/** How a state relates to the states after it: a reflexive, transitive relation every step is in. */
module ProtocolHistory {
  import opened Wrappers
  import opened Schedules
  import opened JobTables
  import opened Protocol
  import opened ProtocolInvariants
  import opened ProtocolSafety

  ghost predicate Consistent(s: State) {
    JobsOk(s.db, s.cleaned, s.retired)
  }

  /** A rule keeps its identity until it is deleted, for good; its revision never decreases, and
      determines what is evaluated and when. */
  ghost predicate RulesLater(s: State, s': State) {
    && s.db.clock <= s'.db.clock && s.db.nextToken <= s'.db.nextToken
    && s.retired <= s'.retired
    && (forall r :: r in s.db.rules ==>
          || r in s'.retired
          || (r in s'.db.rules && s.db.rules[r].revision <= s'.db.rules[r].revision))
    && (forall r :: r in s.db.rules && r in s'.db.rules && s'.db.rules[r].revision == s.db.rules[r].revision ==>
          s'.db.rules[r].(nextRunAt := None) == s.db.rules[r].(nextRunAt := None))
  }

  /** A terminal row stays as it is, attempts never decrease, a token that comes in is a new one. */
  predicate RowLater(job: Job, job': Job, nextToken: Token) {
    && (job.status.Terminal() ==> job' == job)
    && job.attempts <= job'.attempts
    && (job'.token.Some? ==> job'.token == job.token || nextToken <= job'.token.value)
  }

  /** A job is updated, or cleaned up in its final status, or gone with its rule; it never comes back. */
  ghost predicate JobsLater(s: State, s': State) {
    && (forall o :: o in s.db.jobs && o in s'.db.jobs ==> RowLater(s.db.jobs[o], s'.db.jobs[o], s.db.nextToken))
    && (forall o :: o in s.db.jobs ==> o in s'.db.jobs || o in s'.cleaned || o.rule in s'.retired)
    && (forall o :: o in s.db.jobs && s.db.jobs[o].status.Terminal() && o in s'.cleaned ==>
          s'.cleaned[o] == s.db.jobs[o].status)
    && (forall o :: o in s.cleaned ==> o.rule in s'.retired || (o in s'.cleaned && s'.cleaned[o] == s.cleaned[o]))
    && (forall o :: o in s'.db.jobs && o !in s.db.jobs && s'.db.jobs[o].token.Some? ==>
          s.db.nextToken <= s'.db.jobs[o].token.value)
  }

  /** Commits are only added, never for a deleted rule nor for a revision already replaced. */
  ghost predicate CommitsLater(s: State, s': State) {
    && |s.commits| <= |s'.commits| && s'.commits[..|s.commits|] == s.commits
    && forall i :: |s.commits| <= i < |s'.commits| ==>
         var c := s'.commits[i];
         && c.rule !in s.retired
         && (c.rule in s.db.rules ==> s.db.rules[c.rule].revision <= c.revision)
  }

  /** A job that comes in belongs to a rule that was not deleted, and to no revision already replaced. */
  ghost predicate NewJobsCurrent(s: State, s': State) {
    forall o :: o in s'.db.jobs && o !in s.db.jobs ==>
      && o.rule !in s.retired
      && (o.rule in s.db.rules ==> s.db.rules[o.rule].revision <= o.revision)
  }

  ghost predicate TablesLater(s: State, s': State) {
    RulesLater(s, s') && JobsLater(s, s')
  }

  ghost predicate Later(s: State, s': State) {
    TablesLater(s, s') && NewJobsCurrent(s, s') && CommitsLater(s, s')
  }

  // One step

  lemma PatchLater(s: State, r: RuleId, patch: Patch)
    requires Consistent(s) && PatchRule(s.db, r, patch).Ok?
    ensures TablesLater(s, s.(db := PatchRule(s.db, r, patch).value))
  {
  }

  lemma PlanLater(s: State, r: RuleId, window: Time, maxOccurrences: nat)
    requires Consistent(s) && r in s.db.rules && RuleDue(s.db.rules[r], s.db.clock) && 0 < window
    ensures PlanRule(s.db, r, window, maxOccurrences).Ok?
    ensures TablesLater(s, s.(db := PlanRule(s.db, r, window, maxOccurrences).value))
  {
    PlanKeepsJobs(s, r, window, maxOccurrences);
  }

  lemma CreateLater(s: State, r: RuleId, enabled: bool, schedule: Schedule, definition: nat)
    requires Consistent(s) && r !in s.db.rules && CreateRule(s.db, r, enabled, schedule, definition).Ok?
    ensures TablesLater(s, s.(db := CreateRule(s.db, r, enabled, schedule, definition).value))
  {
  }

  lemma DeleteLater(s: State, r: RuleId)
    requires Consistent(s)
    ensures TablesLater(s, DoDelete(s, r))
  {
  }

  lemma CleanupLater(s: State, retention: nat, now: Time)
    requires Consistent(s)
    ensures TablesLater(s, DoCleanup(s, retention, now))
  {
  }

  lemma RowsLater(s: State, s': State)
    requires Consistent(s) && RowUpdate(s.db, s'.db) && s'.cleaned == s.cleaned && s'.retired == s.retired
    ensures TablesLater(s, s')
  {
    forall o | o in s.db.jobs ensures RowLater(s.db.jobs[o], s'.db.jobs[o], s.db.nextToken) {
      assert JobColumns(s.db, o) && RowEvolves(s.db.jobs[o], s'.db.jobs[o], s.db.nextToken, s'.db.nextToken);
    }
  }

  lemma RuleStepsLater(s: State, step: Step)
    requires Consistent(s) && OnlyTables(step) && !TouchesOneRow(step) && !step.Tick? && !step.Cleanup?
    ensures TablesLater(s, Effect(s, step))
  {
    match step
    case CreateRuleStep(r, enabled, schedule, definition) =>
      if r !in s.db.rules && CreateRule(s.db, r, enabled, schedule, definition).Ok? {
        CreateLater(s, r, enabled, schedule, definition);
      }
    case PatchRuleStep(r, patch) =>
      if PatchRule(s.db, r, patch).Ok? { PatchLater(s, r, patch); }
    case DeleteRuleStep(r) => DeleteLater(s, r);
    case Plan(r, window, maxOccurrences) =>
      if r in s.db.rules && RuleDue(s.db.rules[r], s.db.clock) && 0 < window {
        PlanLater(s, r, window, maxOccurrences);
      }
  }

  predicate KeepsTables(step: Step) {
    step.TryLock? || step.TryLockManual? || step.Load? || step.Unlock? || step.Crash? || step.ConnectionDies?
  }

  lemma LockStepsFrame(s: State, step: Step)
    requires KeepsTables(step)
    ensures var s' := Effect(s, step);
            s' == s.(locks := s'.locks, live := s'.live, nextConn := s'.nextConn, workers := s'.workers)
  {
  }

  lemma StepTables(s: State, step: Step)
    requires Consistent(s)
    ensures TablesLater(s, Apply(s, step))
  {
    if TouchesOneRow(step) {
      RowSteps(s, step);
      RowsLater(s, Apply(s, step));
    } else if KeepsTables(step) {
      LockStepsFrame(s, step);
      RowsLater(s, Apply(s, step));
    } else if step.Cleanup? {
      CleanupLater(s, step.retention, step.now);
    } else if !step.Tick? {
      RuleStepsLater(s, step);
    }
  }

  lemma PlanAddsCurrentJobs(s: State, r: RuleId, window: Time, maxOccurrences: nat)
    requires Consistent(s) && r in s.db.rules && RuleDue(s.db.rules[r], s.db.clock) && 0 < window
    ensures PlanRule(s.db, r, window, maxOccurrences).Ok?
    ensures NewJobsCurrent(s, s.(db := PlanRule(s.db, r, window, maxOccurrences).value))
  {
    assert CursorColumns(s.db.rules[r]);
    if s.db.rules[r].nextRunAt.Some? {
      PlanMaterialises(s.db, r, window, maxOccurrences);
    }
  }

  /** Only planning adds jobs, and for the current revision of its rule. */
  lemma StepAddsCurrentJobs(s: State, step: Step)
    requires Consistent(s)
    ensures NewJobsCurrent(s, Apply(s, step))
  {
    if TouchesOneRow(step) {
      RowSteps(s, step);
    } else if KeepsTables(step) {
      LockStepsFrame(s, step);
    } else if step.Plan? {
      if step.r in s.db.rules && RuleDue(s.db.rules[step.r], s.db.clock) && 0 < step.window {
        PlanAddsCurrentJobs(s, step.r, step.window, step.maxOccurrences);
      }
    }
  }

  // What a worker read is what its revision defines

  ghost predicate ReadersOk(s: State, workers: Workers) {
    forall w :: w in workers && workers[w].Reading? ==>
      var r := workers[w].task.Rule();
      && (workers[w].task.Scheduled? ==> workers[w].task.o.revision == workers[w].revision)
      && (r in s.db.rules || r in s.retired)
      && (r in s.db.rules ==> workers[w].revision <= s.db.rules[r].revision)
      && (r in s.db.rules && workers[w].revision == s.db.rules[r].revision ==>
            workers[w].definition == s.db.rules[r].definition)
  }

  lemma ReadersStay(s: State, s': State, workers: Workers)
    requires ReadersOk(s, workers) && RulesLater(s, s') && Consistent(s')
    ensures ReadersOk(s', workers)
  {
  }

  lemma LoadReads(s: State, w: WorkerId)
    requires ReadersOk(s, s.workers)
    ensures ReadersOk(s, DoLoad(s, w).workers)
  {
  }

  lemma StepKeepsReaders(s: State, step: Step)
    requires Consistent(s) && Locks(s) && ReadersOk(s, s.workers)
    ensures ReadersOk(Apply(s, step), Apply(s, step).workers)
  {
    var s' := Apply(s, step);
    StepTables(s, step);
    StepKeepsJobs(s, step);
    assert ReadersOk(s, s'.workers) by {
      if step.Load? {
        LoadReads(s, step.w);
      } else if step.CommitStep? {
        CommitAllOrNothing(s, step.w, step.now);
      } else if OnlyTables(step) {
        TableStepsFrame(s, step);
      } else {
        OtherReaders(s, step);
      }
    }
    ReadersStay(s, s', s'.workers);
  }

  lemma CommitIsCurrent(s: State, s': State, w: WorkerId)
    requires Consistent(s) && ReadersOk(s, s.workers) && Commits(s, s', w)
    ensures var c := s'.commits[|s.commits|];
            && |s'.commits| == |s.commits| + 1
            && c.rule in s.db.rules && s.db.rules[c.rule].enabled
            && c.revision == s.db.rules[c.rule].revision && c.definition == s.db.rules[c.rule].definition
    ensures CommitsLater(s, s')
  {
  }

  /** Only a final transaction adds a commit. */
  lemma StepCommits(s: State, step: Step)
    requires Consistent(s) && Locks(s) && ReadersOk(s, s.workers)
    ensures CommitsLater(s, Apply(s, step))
    ensures !step.CommitStep? ==> Apply(s, step).commits == s.commits
  {
    if step.CommitStep? {
      CommitAllOrNothing(s, step.w, step.now);
      if DoCommit(s, step.w, step.now) != s { CommitIsCurrent(s, DoCommit(s, step.w, step.now), step.w); }
    } else if OnlyTables(step) {
      TableStepsFrame(s, step);
    } else if step.Load? {
    } else {
      OtherReaders(s, step);
    }
  }
}
