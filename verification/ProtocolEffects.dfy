/** What single steps and whole runs do to the columns of rules and jobs. */
module ProtocolEffects {
  import opened Wrappers
  import opened Schedules
  import opened JobTables
  import opened Protocol
  import opened ProtocolInvariants
  import opened ProtocolSafety
  import opened ProtocolHistory
  import opened ProtocolOnce
  import opened ProtocolTheorems
  import opened ProtocolWitnesses

  // Cursors

  /** The least occurrence of a schedule after an instant. */
  ghost predicate FirstAfter(cron: Cron, now: Time, t: Time) {
    now < t && Occurs(cron, t) && forall u :: now < u < t ==> !Occurs(cron, u)
  }

  lemma FirstAfterIsNext(cron: Cron, now: Time)
    ensures cron(now).Some? ==> FirstAfter(cron, now, cron(now).value)
    ensures cron(now).None? ==> forall u :: now < u <= now + SEARCH_HORIZON ==> !Occurs(cron, u)
  {
    SuccessorIsLeastOccurrence(cron, now);
  }

  /** Planning a due rule leaves the first occurrence after now as its cursor, unless nothing occurs
      for the rest of the search horizon; it touches no other column and no other rule. */
  lemma PlanningAdvancesTheCursor(s: State, r: RuleId, window: Time, maxOccurrences: nat)
    requires Reachable(s) && r in s.db.rules && RuleDue(s.db.rules[r], s.db.clock) && 0 < window
    ensures var rule, planned := s.db.rules[r], PlanRule(s.db, r, window, maxOccurrences);
            && planned.Ok? && rule.schedule.CronSchedule? && r in planned.value.rules
            && planned.value.rules == s.db.rules[r := planned.value.rules[r]]
            && var cron, after := rule.schedule.cron, planned.value.rules[r];
            && after == Rule(rule.revision, rule.enabled, rule.schedule, after.nextRunAt, rule.definition)
            && (after.nextRunAt.Some? ==> FirstAfter(cron, s.db.clock, after.nextRunAt.value))
            && (after.nextRunAt.None? ==>
                  forall u :: s.db.clock < u < s.db.clock - window + SEARCH_HORIZON ==> !Occurs(cron, u))
  {
    ReachableInvariant(s);
    var rule := s.db.rules[r];
    assert CursorColumns(rule);
    var cron := rule.schedule.cron;
    FirstAfterIsNext(cron, s.db.clock);
    if rule.nextRunAt.Some? {
      NextCursorIsPastNow(cron, rule.nextRunAt.value, s.db.clock, window);
      forall u | s.db.clock < u < s.db.clock - window + SEARCH_HORIZON && Occurs(cron, u)
        ensures NextCursor(cron, rule.nextRunAt.value, s.db.clock, window).Some?
      {
        NextCursorIsNullOnlyInSilence(cron, rule.nextRunAt.value, s.db.clock, window, u);
      }
    }
  }

  // Rules

  /** A cursor as creation and revision leave it. */
  ghost predicate Restarted(rule: Rule, now: Time) {
    if !rule.enabled || rule.schedule.OnDemand? then rule.nextRunAt.None?
    else
      && rule.schedule.CronSchedule?
      && (rule.nextRunAt.Some? ==> FirstAfter(rule.schedule.cron, now, rule.nextRunAt.value))
      && (rule.nextRunAt.None? ==> forall u :: now < u <= now + SEARCH_HORIZON ==> !Occurs(rule.schedule.cron, u))
  }

  lemma CreationColumns(t: Tables, r: RuleId, enabled: bool, schedule: Schedule, definition: nat)
    ensures CreateRule(t, r, enabled, schedule, definition).Ok? <==> !(enabled && schedule.Malformed?)
    ensures CreateRule(t, r, enabled, schedule, definition).Ok? ==>
              var t' := CreateRule(t, r, enabled, schedule, definition).value;
              && r in t'.rules && t' == t.(rules := t.rules[r := t'.rules[r]])
              && t'.rules[r] == Rule(1, enabled, schedule, t'.rules[r].nextRunAt, definition)
              && Restarted(t'.rules[r], t.clock)
  {
    if schedule.CronSchedule? { FirstAfterIsNext(schedule.cron, t.clock); }
  }

  /** An effective patch gives each column it names its new value and leaves every other, raises the
      revision by one, and restarts the cursor for the schedule that holds from now on. */
  lemma PatchColumns(t: Tables, r: RuleId, patch: Patch)
    requires PatchRule(t, r, patch).Ok? && patch.Touches()
    ensures var t' := PatchRule(t, r, patch).value;
            && r in t.rules && r in t'.rules && t'.rules == t.rules[r := t'.rules[r]]
            && var before, after := t.rules[r], t'.rules[r];
            && after.revision == before.revision + 1
            && (patch.enabled.Some? ==> after.enabled == patch.enabled.value)
            && (patch.enabled.None? ==> after.enabled == before.enabled)
            && (patch.schedule.Some? ==> after.schedule == patch.schedule.value)
            && (patch.schedule.None? ==> after.schedule == before.schedule)
            && (patch.definition.Some? ==> after.definition == patch.definition.value)
            && (patch.definition.None? ==> after.definition == before.definition)
            && Restarted(after, t.clock)
  {
    var after := PatchRule(t, r, patch).value.rules[r];
    if after.schedule.CronSchedule? { FirstAfterIsNext(after.schedule.cron, t.clock); }
  }

  // Disabled rules

  predicate Enables(step: Step, r: RuleId) {
    step.PatchRuleStep? && step.r == r && step.patch.enabled == Some(true)
  }

  /** The rule was disabled, or deleted. */
  predicate AtRest(s: State, r: RuleId) {
    if r in s.db.rules then !s.db.rules[r].enabled else r in s.retired
  }

  lemma PatchKeepsRest(s: State, patched: RuleId, patch: Patch, r: RuleId)
    requires AtRest(s, r) && PatchRule(s.db, patched, patch).Ok? && (patched == r ==> patch.enabled != Some(true))
    ensures RestsOn(s, s.(db := PatchRule(s.db, patched, patch).value), r)
  {
    if patch.Touches() { PatchColumns(s.db, patched, patch); }
  }

  /** The rule stays at rest, and no job of it is added. */
  ghost predicate RestsOn(s: State, s': State, r: RuleId) {
    AtRest(s', r) && forall o :: o in s'.db.jobs && o.rule == r ==> o in s.db.jobs
  }

  lemma RowStepsKeepRest(s: State, step: Step, r: RuleId)
    requires Consistent(s) && AtRest(s, r) && TouchesOneRow(step)
    ensures RestsOn(s, Apply(s, step), r)
  {
    RowSteps(s, step);
  }

  lemma TimersKeepRest(s: State, step: Step, r: RuleId)
    requires AtRest(s, r) && (step.Tick? || step.CreateRuleStep? || step.DeleteRuleStep? || step.Cleanup?)
    ensures RestsOn(s, Effect(s, step), r)
  {
  }

  lemma StepKeepsRest(s: State, step: Step, r: RuleId)
    requires Consistent(s) && AtRest(s, r) && !Enables(step, r)
    ensures RestsOn(s, Apply(s, step), r)
  {
    if TouchesOneRow(step) {
      RowStepsKeepRest(s, step, r);
    } else if KeepsTables(step) {
      LockStepsFrame(s, step);
    } else if step.PatchRuleStep? {
      if PatchRule(s.db, step.r, step.patch).Ok? { PatchKeepsRest(s, step.r, step.patch, r); }
    } else if step.Plan? {
      if step.r in s.db.rules && RuleDue(s.db.rules[step.r], s.db.clock) && 0 < step.window && 0 < step.maxOccurrences {
        PlanKeepsRest(s, step.r, step.window, step.maxOccurrences, r);
      }
    } else {
      TimersKeepRest(s, step, r);
    }
  }

  lemma PlanKeepsRest(s: State, planned: RuleId, window: Time, maxOccurrences: nat, r: RuleId)
    requires Consistent(s) && AtRest(s, r) && planned in s.db.rules && RuleDue(s.db.rules[planned], s.db.clock) && 0 < window
    ensures PlanRule(s.db, planned, window, maxOccurrences).Ok?
    ensures RestsOn(s, s.(db := PlanRule(s.db, planned, window, maxOccurrences).value), r)
  {
    assert CursorColumns(s.db.rules[planned]);
    if s.db.rules[planned].nextRunAt.Some? { PlanMaterialises(s.db, planned, window, maxOccurrences); }
  }

  lemma RestingRulesDoNotCommit(s: State, step: Step, r: RuleId)
    requires Reachable(s) && AtRest(s, r)
    ensures var s' := Apply(s, step);
            && |s.commits| <= |s'.commits| && s'.commits[..|s.commits|] == s.commits
            && forall i :: |s.commits| <= i < |s'.commits| ==> s'.commits[i].rule != r
  {
    ReachableInvariant(s);
    StepCommits(s, step);
    if Apply(s, step).commits != s.commits {
      CommittedDefinitionIsCurrent(s, step);
    }
  }

  /** From a patch that disables a rule on, until a patch enables it again, no job of it is added and
      nothing commits for it, through either trigger. */
  lemma {:induction false} DisabledRulesRest(s: State, steps: seq<Step>, r: RuleId)
    requires Reachable(s) && AtRest(s, r) && forall step :: step in steps ==> !Enables(step, r)
    ensures var s' := Run(s, steps);
            && AtRest(s', r)
            && (forall o :: o in s'.db.jobs && o.rule == r ==> o in s.db.jobs)
            && |s.commits| <= |s'.commits| && s'.commits[..|s.commits|] == s.commits
            && (forall i :: |s.commits| <= i < |s'.commits| ==> s'.commits[i].rule != r)
    decreases |steps|
  {
    if steps != [] {
      var s1 := Apply(s, steps[0]);
      OneStep(s, steps[0]);
      ReachableInvariant(s);
      StepKeepsRest(s, steps[0], r);
      RestingRulesDoNotCommit(s, steps[0], r);
      DisabledRulesRest(s1, steps[1..], r);
      CommitsCompose(s.commits, s1.commits, Run(s1, steps[1..]).commits, r);
    }
  }

  lemma CommitsCompose(a: seq<Commit>, b: seq<Commit>, c: seq<Commit>, r: RuleId)
    requires |a| <= |b| <= |c| && b[..|a|] == a && c[..|b|] == b
    requires forall i :: |a| <= i < |b| ==> b[i].rule != r
    requires forall i :: |b| <= i < |c| ==> c[i].rule != r
    ensures c[..|a|] == a && forall i :: |a| <= i < |c| ==> c[i].rule != r
  {
    assert c[..|a|] == c[..|b|][..|a|];
    forall i | |a| <= i < |c| ensures c[i].rule != r {
      if i < |b| { assert c[i] == c[..|b|][i]; }
    }
  }

  lemma DisablingRests(s: State, r: RuleId, patch: Patch)
    requires PatchRule(s.db, r, patch).Ok? && patch.enabled == Some(false)
    ensures AtRest(Apply(s, PatchRuleStep(r, patch)), r)
  {
    PatchColumns(s.db, r, patch);
  }

  // Evaluations on demand

  /** A run that commits an evaluation of the rule on demand, with the definition it has now. */
  predicate EvaluatesNow(s: State, r: RuleId, steps: seq<Step>)
    requires r in s.db.rules
  {
    && (forall i :: 0 <= i < |steps| ==> !Enables(steps[i], r))
    && var s' := Run(s, steps);
       && |s.commits| < |s'.commits|
       && var last := s'.commits[|s'.commits| - 1];
          && last.rule == r && last.occurrence.None?
          && last.revision == s.db.rules[r].revision && last.definition == s.db.rules[r].definition
  }

  lemma ReadsOnDemand(s: State, w: WorkerId, r: RuleId)
    requires s.At(w).Idle? && s.lockKey(r) !in s.locks && r in s.db.rules && s.db.rules[r].enabled
    ensures var s', rule := Apply(Apply(s, TryLockManual(w, r)), Load(w)), s.db.rules[r];
            && s'.At(w) == Reading(Manual(r), s.nextConn, rule.revision, rule.definition, s.step + 1)
            && s'.db == s.db && s'.commits == s.commits && s.nextConn in s'.live
  {
    var s1 := Apply(s, TryLockManual(w, r));
    assert s1.At(w) == Locked(Manual(r), s.nextConn, false);
  }

  lemma RunOnDemand(s: State, w: WorkerId, r: RuleId)
    requires s.At(w).Idle? && s.lockKey(r) !in s.locks && r in s.db.rules && s.db.rules[r].enabled
    ensures var rule := s.db.rules[r];
            Run(s, [TryLockManual(w, r), Load(w), CommitStep(w, s.db.clock)]).commits ==
              s.commits + [Commit(r, rule.revision, rule.definition, None, s.step + 1, s.step + 2)]
  {
    RunThree(s, TryLockManual(w, r), Load(w), CommitStep(w, s.db.clock));
    ReadsOnDemand(s, w, r);
    CommittedOnDemand(s, Apply(Apply(s, TryLockManual(w, r)), Load(w)), w, r);
  }

  lemma CommittedOnDemand(s: State, s': State, w: WorkerId, r: RuleId)
    requires r in s.db.rules && s.db.rules[r].enabled && s'.step == s.step + 2
    requires var rule := s.db.rules[r]; s'.At(w) == Reading(Manual(r), s.nextConn, rule.revision, rule.definition, s.step + 1)
    requires s'.db == s.db && s'.commits == s.commits && s.nextConn in s'.live
    ensures var rule := s.db.rules[r];
            Apply(s', CommitStep(w, s.db.clock)).commits ==
              s.commits + [Commit(r, rule.revision, rule.definition, None, s.step + 1, s.step + 2)]
  {
  }

  lemma RunThree(s: State, a: Step, b: Step, c: Step)
    ensures Run(s, [a, b, c]) == Apply(Apply(Apply(s, a), b), c)
  {
    assert [a, b, c][1..] == [b, c] && [b, c][1..] == [c] && [c][1..] == [];
    var s1 := Apply(s, a);
    assert Run(s, [a, b, c]) == Run(s1, [b, c]) == Run(Apply(s1, b), [c]) == Run(Apply(Apply(s1, b), c), []);
  }

  lemma RunTwo(s: State, a: Step, b: Step)
    ensures Run(s, [a, b]) == Apply(Apply(s, a), b)
  {
    assert [a, b][1..] == [b] && [b][1..] == [];
    assert Run(s, [a, b]) == Run(Apply(s, a), [b]) == Run(Apply(Apply(s, a), b), []);
  }

  /** Whoever holds the lock of a rule can lose it. */
  lemma Freed(s: State, r: RuleId) returns (steps: seq<Step>)
    ensures var s' := Run(s, steps);
            && s'.At(WORKER).Idle? && s'.lockKey(r) !in s'.locks && s'.db == s.db && s'.commits == s.commits
            && forall i :: 0 <= i < |steps| ==> !Enables(steps[i], r)
  {
    var key := s.lockKey(r);
    var conn: ConnId := if key in s.locks then s.locks[key] else 0;
    steps := [Crash(WORKER), ConnectionDies(conn)];
    RunTwo(s, steps[0], steps[1]);
    AfterCrash(s, WORKER, conn, r);
  }

  lemma EnabledOnDemand(s: State, r: RuleId) returns (steps: seq<Step>)
    requires r in s.db.rules && s.db.rules[r].enabled
    ensures EvaluatesNow(s, r, steps)
  {
    var before := Freed(s, r);
    var s1 := Run(s, before);
    RunOnDemand(s1, WORKER, r);
    var after := [TryLockManual(WORKER, r), Load(WORKER), CommitStep(WORKER, s1.db.clock)];
    RunAppend(s, before, after);
    steps := before + after;
  }

  lemma DisabledOnDemand(s: State, r: RuleId, steps: seq<Step>)
    requires Reachable(s) && r in s.db.rules && !s.db.rules[r].enabled
    ensures !EvaluatesNow(s, r, steps)
  {
    if forall i :: 0 <= i < |steps| ==> !Enables(steps[i], r) {
      forall step | step in steps ensures !Enables(step, r) {
        var i :| 0 <= i < |steps| && steps[i] == step;
      }
      DisabledRulesRest(s, steps, r);
    }
  }

  /** An enabled rule can be evaluated on demand whatever happened before, whoever holds its lock; a
      disabled one cannot, until a patch enables it. */
  lemma OnDemandIffEnabled(s: State, r: RuleId)
    requires Reachable(s) && r in s.db.rules
    ensures (exists steps :: EvaluatesNow(s, r, steps)) <==> s.db.rules[r].enabled
  {
    if s.db.rules[r].enabled {
      var steps := EnabledOnDemand(s, r);
    } else {
      forall steps ensures !EvaluatesNow(s, r, steps) {
        DisabledOnDemand(s, r, steps);
      }
    }
  }

  // How a job ends

  /** The ways in which an open job becomes terminal. */
  predicate Ends(s: State, step: Step, o: Occurrence)
    requires o in s.db.jobs
  {
    match step
    case CommitStep(w, _) =>
      s.At(w).Reading? && s.At(w).task.Scheduled? && s.At(w).task.o == o
    case Fail(w, _, _, _) =>
      s.At(w).HasJob() && s.At(w).task.o == o && s.db.jobs[o].token == Some(s.At(w).task.token) && MAX_ATTEMPTS <= s.At(w).task.charge
    case Cancel(p, token, _, _) => p == o && s.db.jobs[o].token == Some(token)
    case PatchRuleStep(r, patch) => r == o.rule && patch.Touches() && s.db.jobs[o].status == Pending
    case _ => false
  }

  /** The status each of them leaves. */
  function EndStatus(step: Step): JobStatus {
    if step.CommitStep? then Succeeded else if step.Fail? then Failed else Cancelled
  }

  lemma FailEnds(s: State, w: WorkerId, retryAfter: nat, cause: string, now: Time, o: Occurrence)
    requires FailuresOk(s) && o in s.db.jobs && !s.db.jobs[o].status.Terminal()
    ensures o in DoFail(s, w, retryAfter, cause, now).db.jobs
    ensures EndsProperly(s, Fail(w, retryAfter, cause, now), o, DoFail(s, w, retryAfter, cause, now))
  {
  }

  lemma CommitEnds(s: State, w: WorkerId, now: Time, o: Occurrence)
    requires o in s.db.jobs && !s.db.jobs[o].status.Terminal()
    ensures o in DoCommit(s, w, now).db.jobs
    ensures EndsProperly(s, CommitStep(w, now), o, DoCommit(s, w, now))
  {
  }

  lemma PatchEnds(s: State, r: RuleId, patch: Patch, o: Occurrence)
    requires o in s.db.jobs && !s.db.jobs[o].status.Terminal() && PatchRule(s.db, r, patch).Ok?
    ensures var db := PatchRule(s.db, r, patch).value;
            o in db.jobs && db.jobs[o].attempts == s.db.jobs[o].attempts &&
            (db.jobs[o].status.Terminal() ==> Ends(s, PatchRuleStep(r, patch), o) && db.jobs[o].status == Cancelled)
  {
  }

  lemma PlanEndsNothing(s: State, r: RuleId, window: Time, maxOccurrences: nat, o: Occurrence)
    requires Consistent(s) && o in s.db.jobs && r in s.db.rules && RuleDue(s.db.rules[r], s.db.clock) && 0 < window
    ensures var db := PlanRule(s.db, r, window, maxOccurrences);
            db.Ok? && o in db.value.jobs && db.value.jobs[o] == s.db.jobs[o]
  {
    PlanKeepsJobs(s, r, window, maxOccurrences);
  }

  /** A worker with the token starts an attempt, or a failure is charged. */
  predicate Tries(s: State, step: Step, o: Occurrence)
    requires o in s.db.jobs
  {
    (step.Start? || step.Fail?) && s.At(step.w).HasJob() && s.At(step.w).task.o == o &&
    s.db.jobs[o].token == Some(s.At(step.w).task.token)
  }

  /** The step ends the job properly, or leaves it open, or its rule is deleted; attempts rise by one
      at most, and a job FAILS at the maximum only. */
  predicate EndsProperly(s: State, step: Step, o: Occurrence, s': State)
    requires o in s.db.jobs
  {
    if o !in s'.db.jobs then o.rule in s'.retired
    else
      && (s'.db.jobs[o].status.Terminal() ==> Ends(s, step, o) && s'.db.jobs[o].status == EndStatus(step))
      && s'.db.jobs[o].attempts <= s.db.jobs[o].attempts + (if Tries(s, step, o) then 1 else 0)
      && (s'.db.jobs[o].status.Failed? ==> MAX_ATTEMPTS <= s'.db.jobs[o].attempts)
  }

  lemma ClaimStepsEnd(s: State, step: Step, o: Occurrence)
    requires step.Claim? || step.Heartbeat? || step.Start?
    requires o in s.db.jobs && !s.db.jobs[o].status.Terminal()
    ensures EndsProperly(s, step, o, Effect(s, step))
  {
  }

  lemma SettlingStepsEnd(s: State, step: Step, o: Occurrence)
    requires step.Release? || step.Cancel?
    requires o in s.db.jobs && !s.db.jobs[o].status.Terminal()
    ensures EndsProperly(s, step, o, Effect(s, step))
  {
  }

  lemma PatchStepEnds(s: State, r: RuleId, patch: Patch, o: Occurrence)
    requires o in s.db.jobs && !s.db.jobs[o].status.Terminal()
    ensures EndsProperly(s, PatchRuleStep(r, patch), o, WithTables(s, PatchRule(s.db, r, patch)))
  {
    if PatchRule(s.db, r, patch).Ok? { PatchEnds(s, r, patch, o); }
  }

  lemma PlanStepEnds(s: State, step: Step, o: Occurrence)
    requires Consistent(s) && step.Plan?
    requires o in s.db.jobs && !s.db.jobs[o].status.Terminal()
    ensures EndsProperly(s, step, o, Effect(s, step))
  {
    if step.r in s.db.rules && RuleDue(s.db.rules[step.r], s.db.clock) && 0 < step.window {
      PlanEndsNothing(s, step.r, step.window, step.maxOccurrences, o);
    }
  }

  lemma DeletionsEnd(s: State, step: Step, o: Occurrence)
    requires step.DeleteRuleStep? || step.Cleanup? || step.Tick? || step.CreateRuleStep?
    requires o in s.db.jobs && !s.db.jobs[o].status.Terminal()
    ensures EndsProperly(s, step, o, Effect(s, step))
  {
  }

  /** A step that leaves an open job terminal is one of four, and leaves its own status. */
  lemma StepEnds(s: State, step: Step, o: Occurrence)
    requires Consistent(s) && FailuresOk(s) && o in s.db.jobs && !s.db.jobs[o].status.Terminal()
    ensures EndsProperly(s, step, o, Apply(s, step))
  {
    EffectEnds(s, step, o);
  }

  lemma EffectEnds(s: State, step: Step, o: Occurrence)
    requires Consistent(s) && FailuresOk(s) && o in s.db.jobs && !s.db.jobs[o].status.Terminal()
    ensures EndsProperly(s, step, o, Effect(s, step))
  {
    if KeepsTables(step) {
      LockStepsFrame(s, step);
    } else if step.Claim? || step.Heartbeat? || step.Start? {
      ClaimStepsEnd(s, step, o);
    } else if step.Release? || step.Cancel? {
      SettlingStepsEnd(s, step, o);
    } else if step.Fail? {
      FailEnds(s, step.w, step.retryAfter, step.cause, step.now, o);
    } else if step.CommitStep? {
      CommitEnds(s, step.w, step.now, o);
    } else if step.PatchRuleStep? {
      PatchStepEnds(s, step.r, step.patch, o);
    } else if step.Plan? {
      PlanStepEnds(s, step, o);
    } else {
      DeletionsEnd(s, step, o);
    }
  }

  /** A run in which a job is ended by one of the four. */
  predicate EndedIn(s: State, steps: seq<Step>, o: Occurrence, status: JobStatus)
    decreases |steps|
  {
    && steps != [] && o in s.db.jobs
    && ((Ends(s, steps[0], o) && EndStatus(steps[0]) == status) || EndedIn(Apply(s, steps[0]), steps[1..], o, status))
  }

  /** In every run an open job becomes terminal only by the commit of its evaluation, by a failure
      whose charge reaches the maximum, by a cancellation with its token, or by an effective patch of
      its rule while it is pending; and it ends SUCCEEDED, FAILED, or CANCELLED accordingly. */
  lemma {:induction false} JobsEndOnlyFourWays(s: State, steps: seq<Step>, o: Occurrence)
    requires Reachable(s) && o in s.db.jobs && !s.db.jobs[o].status.Terminal()
    ensures var s' := Run(s, steps);
            && (o in s'.db.jobs && s'.db.jobs[o].status.Terminal() ==> EndedIn(s, steps, o, s'.db.jobs[o].status))
            && (o !in s'.db.jobs && o.rule !in s'.retired ==> o in s'.cleaned && EndedIn(s, steps, o, s'.cleaned[o]))
    decreases |steps|
  {
    if steps != [] {
      var s1 := Apply(s, steps[0]);
      OneStep(s, steps[0]);
      ReachableInvariant(s);
      StepEnds(s, steps[0], o);
      ReachableRun(s1, steps[1..]);
      if o in s1.db.jobs {
        if s1.db.jobs[o].status.Terminal() {
          TerminalIsForever(s1, steps[1..], o);
        } else {
          JobsEndOnlyFourWays(s1, steps[1..], o);
        }
      }
    }
  }

  lemma NoJobOfDeletedRule(s: State, o: Occurrence)
    requires Reachable(s) && o.rule in s.retired
    ensures o !in s.db.jobs
  {
    if o in s.db.jobs {
      JobOfReachable(s, o);
      ReachableInvariant(s);
    }
  }

  function TriesIn(s: State, steps: seq<Step>, o: Occurrence): nat
    decreases |steps|
  {
    if steps == [] || o !in s.db.jobs then 0
    else (if Tries(s, steps[0], o) then 1 else 0) + TriesIn(Apply(s, steps[0]), steps[1..], o)
  }

  /** Attempts count what was tried: a job is given up as FAILED no sooner than its fifth try, be it
      an attempt that was started or one charged for a failure before it could start. */
  lemma {:induction false} FailedNeedsFiveTries(s: State, steps: seq<Step>, o: Occurrence)
    requires Reachable(s) && o in s.db.jobs && !s.db.jobs[o].status.Terminal()
    ensures var s' := Run(s, steps);
            o in s'.db.jobs ==>
              && s'.db.jobs[o].attempts <= s.db.jobs[o].attempts + TriesIn(s, steps, o)
              && (s'.db.jobs[o].status.Failed? ==> MAX_ATTEMPTS <= s.db.jobs[o].attempts + TriesIn(s, steps, o))
    decreases |steps|
  {
    if steps != [] {
      var s1 := Apply(s, steps[0]);
      OneStep(s, steps[0]);
      ReachableInvariant(s);
      StepEnds(s, steps[0], o);
      ReachableRun(s1, steps[1..]);
      if o in s1.db.jobs && o in Run(s1, steps[1..]).db.jobs {
        if s1.db.jobs[o].status.Terminal() {
          TerminalIsForever(s1, steps[1..], o);
        } else {
          FailedNeedsFiveTries(s1, steps[1..], o);
        }
      } else if o !in s1.db.jobs {
        ReachableStays(s1, steps[1..]);
        NoJobOfDeletedRule(Run(s1, steps[1..]), o);
      }
    }
  }
}
