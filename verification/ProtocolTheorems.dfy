/** What holds in every run of the protocol, whatever the interleaving. */
module ProtocolTheorems {
  import opened Wrappers
  import opened Schedules
  import opened JobTables
  import opened Protocol
  import opened ProtocolInvariants
  import opened ProtocolSafety
  import opened ProtocolHistory
  import opened ProtocolOnce

  ghost predicate Invariant(s: State) {
    Consistent(s) && Locks(s) && Serial(s) && ReadersOk(s, s.workers) && OnceOk(s) && FailuresOk(s)
  }

  lemma StepKeepsInvariant(s: State, step: Step)
    requires Invariant(s)
    ensures Invariant(Apply(s, step)) && Later(s, Apply(s, step))
  {
    StepKeepsJobs(s, step);
    StepKeepsLocks(s, step);
    StepKeepsSerial(s, step);
    StepKeepsReaders(s, step);
    StepKeepsOnce(s, step);
    StepKeepsFailures(s, step);
    StepTables(s, step);
    StepAddsCurrentJobs(s, step);
    StepCommits(s, step);
  }

  lemma TablesLaterTransitive(a: State, b: State, c: State)
    requires Consistent(a) && Consistent(b) && Consistent(c) && TablesLater(a, b) && TablesLater(b, c)
    ensures TablesLater(a, c)
  {
    forall o | o in c.db.jobs ensures o in a.db.jobs ==> o in b.db.jobs {
      assert BehindCursor(c.db, o);
    }
    forall o | o in a.db.jobs && o in c.db.jobs ensures RowLater(a.db.jobs[o], c.db.jobs[o], a.db.nextToken) {
      assert RowLater(a.db.jobs[o], b.db.jobs[o], a.db.nextToken) && RowLater(b.db.jobs[o], c.db.jobs[o], b.db.nextToken);
    }
  }

  lemma NewJobsTransitive(a: State, b: State, c: State)
    requires RulesLater(a, b) && NewJobsCurrent(a, b) && NewJobsCurrent(b, c)
    ensures NewJobsCurrent(a, c)
  {
  }

  lemma CommitsLaterTransitive(a: State, b: State, c: State)
    requires Consistent(b) && TablesLater(a, b) && CommitsLater(a, b) && CommitsLater(b, c)
    ensures CommitsLater(a, c)
  {
    assert c.commits[..|a.commits|] == c.commits[..|b.commits|][..|a.commits|];
    forall i | |a.commits| <= i < |c.commits|
      ensures c.commits[i].rule !in a.retired
      ensures c.commits[i].rule in a.db.rules ==> a.db.rules[c.commits[i].rule].revision <= c.commits[i].revision
    {
      if i < |b.commits| { assert c.commits[i] == c.commits[..|b.commits|][i] == b.commits[i]; }
    }
  }

  lemma {:induction false} RunKeepsInvariant(s: State, steps: seq<Step>)
    requires Invariant(s)
    ensures Invariant(Run(s, steps)) && Later(s, Run(s, steps))
    decreases |steps|
  {
    if steps != [] {
      var s1 := Apply(s, steps[0]);
      StepKeepsInvariant(s, steps[0]);
      RunKeepsInvariant(s1, steps[1..]);
      TablesLaterTransitive(s, s1, Run(s1, steps[1..]));
      NewJobsTransitive(s, s1, Run(s1, steps[1..]));
      CommitsLaterTransitive(s, s1, Run(s1, steps[1..]));
    }
  }

  /** The states of the runs that start from empty tables. */
  ghost predicate Reachable(s: State) {
    exists clock: Time, lockKey: RuleId -> int, steps :: s == Run(Initial(clock, lockKey), steps)
  }

  lemma InitialInvariant(clock: Time, lockKey: RuleId -> int)
    ensures Invariant(Initial(clock, lockKey))
  {
  }

  lemma ReachableInvariant(s: State)
    requires Reachable(s)
    ensures Invariant(s)
  {
    var clock: Time, lockKey: RuleId -> int, steps :| s == Run(Initial(clock, lockKey), steps);
    InitialInvariant(clock, lockKey);
    RunKeepsInvariant(Initial(clock, lockKey), steps);
  }

  lemma {:induction false} RunAppend(s: State, a: seq<Step>, b: seq<Step>)
    ensures Run(s, a + b) == Run(Run(s, a), b)
    decreases |a|
  {
    if a == [] {
      assert a + b == b;
    } else {
      assert (a + b)[1..] == a[1..] + b;
      RunAppend(Apply(s, a[0]), a[1..], b);
    }
  }

  lemma ReachableStays(s: State, steps: seq<Step>)
    requires Reachable(s)
    ensures Reachable(Run(s, steps))
  {
    var clock: Time, lockKey: RuleId -> int, before :| s == Run(Initial(clock, lockKey), before);
    RunAppend(Initial(clock, lockKey), before, steps);
    assert Run(s, steps) == Run(Initial(clock, lockKey), before + steps);
  }

  lemma ReachableRun(s: State, steps: seq<Step>)
    requires Reachable(s)
    ensures Invariant(s) && Invariant(Run(s, steps)) && Later(s, Run(s, steps))
  {
    ReachableInvariant(s);
    RunKeepsInvariant(s, steps);
  }

  lemma OneStep(s: State, step: Step)
    requires Reachable(s)
    ensures Reachable(Apply(s, step))
  {
    ReachableStays(s, [step]);
    assert Run(s, [step]) == Run(Apply(s, step), []);
  }

  // Exactly once

  function Evaluations(commits: seq<Commit>, o: Occurrence): nat {
    if commits == [] then 0
    else (if commits[|commits| - 1].occurrence == Some(o) then 1 else 0) + Evaluations(commits[..|commits| - 1], o)
  }

  lemma {:induction false} EvaluationsCount(commits: seq<Commit>, o: Occurrence)
    requires forall i, j :: 0 <= i < j < |commits| && commits[i].occurrence.Some? ==>
               commits[i].occurrence != commits[j].occurrence
    ensures Evaluations(commits, o) == if Recorded(commits, o) then 1 else 0
  {
    if commits != [] {
      var rest, last := commits[..|commits| - 1], commits[|commits| - 1];
      EvaluationsCount(rest, o);
      assert Recorded(commits, o) <==> Recorded(rest, o) || last.occurrence == Some(o) by {
        if Recorded(rest, o) {
          var i :| 0 <= i < |rest| && rest[i].occurrence == Some(o);
          assert commits[i].occurrence == Some(o);
        }
        assert commits[|commits| - 1] == last;
      }
    }
  }

  /** In every reachable state an occurrence has at most one evaluation, and has one exactly when
      its job succeeded, whether the job is still stored or was cleaned up since. */
  lemma ExactlyOnce(s: State, o: Occurrence)
    requires Reachable(s)
    ensures Evaluations(s.commits, o) <= 1
    ensures o.rule in s.db.rules ==> (Evaluations(s.commits, o) == 1 <==> Done(s.db, s.cleaned, o))
  {
    ReachableInvariant(s);
    EvaluationsCount(s.commits, o);
  }

  /** Once the fence of a final transaction holds the transaction goes through: the unique index on
      evaluations never rejects it, nor does the completion of the job. */
  lemma FencedCommitSucceeds(s: State, w: WorkerId, now: Time)
    requires Reachable(s) && s.At(w).Reading? && s.At(w).conn in s.live && FenceHolds(s, s.At(w), now)
    ensures Commits(s, DoCommit(s, w, now), w)
  {
    ReachableInvariant(s);
    if s.At(w).task.Scheduled? {
      var o := s.At(w).task.o;
      assert !Recorded(s.commits, o);
    }
    CommitAllOrNothing(s, w, now);
    assert DoCommit(s, w, now).commits != s.commits;
  }

  // Serial evaluations

  /** For two commits of one rule, manual or scheduled, the one that committed last also began to
      read its sources after the other had committed, although connections may die on the way. */
  lemma ReadsAreSerial(s: State, i: nat, j: nat)
    requires Reachable(s) && i < j < |s.commits| && s.commits[i].rule == s.commits[j].rule
    ensures s.commits[i].readFrom < s.commits[i].committedAt < s.commits[j].readFrom < s.commits[j].committedAt
  {
    ReachableInvariant(s);
  }

  // Fencing

  /** At an instant at which a job can be reclaimed, and already at the very end of its lease, its
      holder can neither start an attempt, nor extend the lease, nor pass the fence of the final
      transaction; at the very end of the lease the job cannot be reclaimed either. */
  lemma NoSharedInstant(s: State, o: Occurrence, token: Token, now: Time)
    requires Reachable(s) && o in s.db.jobs
    ensures Claimable(s.db.jobs[o], now) || s.db.jobs[o].lease == Some(now) ==>
              && StartJob(s.db, o, token, now) == Err(StaleClaim)
              && (forall lease :: HeartbeatJob(s.db, o, token, lease, now) == Err(StaleClaim))
              && CheckClaim(s.db, o, token, now) == Some(StaleClaim)
    ensures s.db.jobs[o].lease == Some(now) ==> !Claimable(s.db.jobs[o], now)
  {
    ReachableInvariant(s);
    assert JobColumns(s.db, o);
  }

  /** A claim, and each heartbeat, keeps the job from being reclaimed until the end of the lease it
      sets, and lets its holder act until then. */
  lemma LeaseProtects(db: Tables, o: Occurrence, token: Token, lease: nat, now: Time, later: Time)
    requires now <= later < now + lease
    ensures ClaimJob(db, o, lease, now).Ok? ==>
              var db' := ClaimJob(db, o, lease, now).value;
              && o in db'.jobs && !Claimable(db'.jobs[o], later) && !Claimable(db'.jobs[o], now + lease)
              && StartJob(db', o, db.nextToken, later).Ok?
    ensures HeartbeatJob(db, o, token, lease, now).Ok? ==>
              var db' := HeartbeatJob(db, o, token, lease, now).value;
              && o in db'.jobs && !Claimable(db'.jobs[o], later) && !Claimable(db'.jobs[o], now + lease)
              && HeartbeatJob(db', o, token, lease, later).Ok?
              && (CheckRevision(db, o.rule, o.revision).None? ==> CheckClaim(db', o, token, later).None?)
  {
  }

  ghost predicate Powerless(db: Tables, o: Occurrence, token: Token) {
    && (forall now :: StartJob(db, o, token, now) == Err(StaleClaim))
    && (forall now, lease :: HeartbeatJob(db, o, token, lease, now) == Err(StaleClaim))
    && (forall now, delay :: ReleaseJob(db, o, token, delay, now) == Err(StaleClaim))
    && (forall now, attempts, retryAfter, cause ::
          FailJob(db, o, token, attempts, retryAfter, cause, now) == Err(StaleClaim))
    && (forall now :: CompleteJob(db, o, token, now) == Err(StaleClaim))
    && (forall now, cause :: CancelJob(db, o, token, cause, now) == db)
    && (forall now :: CheckClaim(db, o, token, now).Some?)
  }

  lemma NoTokenNoPower(db: Tables, o: Occurrence, token: Token)
    requires o in db.jobs ==> db.jobs[o].token != Some(token)
    ensures Powerless(db, o, token)
  {
  }

  lemma RetiredTokenStaysAway(s: State, s': State, o: Occurrence, token: Token)
    requires JobsLater(s, s') && token < s.db.nextToken
    requires o in s.db.jobs ==> s.db.jobs[o].token != Some(token)
    ensures o in s'.db.jobs ==> s'.db.jobs[o].token != Some(token)
  {
    if o in s'.db.jobs && o in s.db.jobs {
      assert RowLater(s.db.jobs[o], s'.db.jobs[o], s.db.nextToken);
    }
  }

  /** A token that was issued and that the job no longer carries -- reclaimed, settled or deleted --
      is powerless in every later state. */
  lemma RetiredTokenIsPowerless(s: State, steps: seq<Step>, o: Occurrence, token: Token)
    requires Reachable(s) && token < s.db.nextToken
    requires o in s.db.jobs ==> s.db.jobs[o].token != Some(token)
    ensures Powerless(Run(s, steps).db, o, token)
  {
    ReachableRun(s, steps);
    RetiredTokenStaysAway(s, Run(s, steps), o, token);
    NoTokenNoPower(Run(s, steps).db, o, token);
  }

  /** Reclaiming a job retires the token of its previous holder. */
  lemma ReclaimRetires(s: State, w: WorkerId, lease: nat, now: Time, steps: seq<Step>, o: Occurrence, token: Token)
    requires Reachable(s) && HoldsToken(s.db, o, token)
    requires DoClaim(s, w, o, lease, now) != s
    ensures Powerless(Run(Apply(s, Claim(w, o, lease, now)), steps).db, o, token)
  {
    var s' := Apply(s, Claim(w, o, lease, now));
    OneStep(s, Claim(w, o, lease, now));
    assert token < s.db.nextToken by {
      ReachableInvariant(s);
      assert JobColumns(s.db, o);
    }
    assert s'.db == ClaimJob(s.db, o, lease, now).value;
    RetiredTokenIsPowerless(s', steps, o, token);
  }

  // Revisions

  /** Whatever commits after a state was computed from the revision its rule had there, or from a
      later one; and nothing commits for a deleted rule. */
  lemma RevisionFence(s: State, steps: seq<Step>, i: nat)
    requires Reachable(s) && |s.commits| <= i < |Run(s, steps).commits|
    ensures var c := Run(s, steps).commits[i];
            c.rule !in s.retired && (c.rule in s.db.rules ==> s.db.rules[c.rule].revision <= c.revision)
  {
    ReachableRun(s, steps);
  }

  /** A patch that touches the rule, disabling it included, shuts out every evaluation of the
      definition it replaced. */
  lemma PatchShutsOut(s: State, r: RuleId, patch: Patch, steps: seq<Step>, i: nat)
    requires Reachable(s) && patch.Touches() && PatchRule(s.db, r, patch).Ok?
    requires |s.commits| <= i < |Run(Apply(s, PatchRuleStep(r, patch)), steps).commits|
    ensures var c := Run(Apply(s, PatchRuleStep(r, patch)), steps).commits[i];
            c.rule == r ==> s.db.rules[r].revision < c.revision
  {
    OneStep(s, PatchRuleStep(r, patch));
    ReachableInvariant(Apply(s, PatchRuleStep(r, patch)));
    RevisionFence(Apply(s, PatchRuleStep(r, patch)), steps, i);
  }

  /** An effective patch leaves no job of the rule pending, and no other job changed. */
  lemma PatchLeavesNothingPending(s: State, r: RuleId, patch: Patch, o: Occurrence)
    requires Reachable(s) && patch.Touches() && PatchRule(s.db, r, patch).Ok? && o in s.db.jobs
    ensures var db := PatchRule(s.db, r, patch).value;
            && o in db.jobs
            && (if o.rule == r && s.db.jobs[o].status.Pending? then db.jobs[o].status.Cancelled?
                else db.jobs[o] == s.db.jobs[o])
            && (o.rule == r ==> !db.jobs[o].status.Pending?)
  {
    ReachableInvariant(s);
    assert JobColumns(s.db, o);
  }

  /** What a step commits was computed from the definition that is current at that step. */
  lemma CommittedDefinitionIsCurrent(s: State, step: Step)
    requires Reachable(s) && Apply(s, step).commits != s.commits
    ensures |Apply(s, step).commits| == |s.commits| + 1
    ensures var c := Apply(s, step).commits[|s.commits|];
            && c.rule in s.db.rules && s.db.rules[c.rule].enabled
            && c.revision == s.db.rules[c.rule].revision && c.definition == s.db.rules[c.rule].definition
  {
    ReachableInvariant(s);
    StepCommits(s, step);
    CommitAllOrNothing(s, step.w, step.now);
    CommitIsCurrent(s, DoCommit(s, step.w, step.now), step.w);
  }

  // Jobs

  /** A job that succeeded, failed or was cancelled keeps its row until the row is deleted, and
      never comes back afterwards; attempts never decrease. */
  lemma TerminalIsForever(s: State, steps: seq<Step>, o: Occurrence)
    requires Reachable(s)
    ensures o in s.db.jobs && s.db.jobs[o].status.Terminal() ==>
              var s' := Run(s, steps);
              && (o in s'.db.jobs ==> s'.db.jobs[o] == s.db.jobs[o])
              && (o in s'.cleaned ==> s'.cleaned[o] == s.db.jobs[o].status)
    ensures o in s.cleaned ==> o !in Run(s, steps).db.jobs
    ensures o in s.db.jobs && o in Run(s, steps).db.jobs ==>
              s.db.jobs[o].attempts <= Run(s, steps).db.jobs[o].attempts
  {
    ReachableRun(s, steps);
    var s' := Run(s, steps);
    assert o in s.db.jobs && o in s'.db.jobs ==> RowLater(s.db.jobs[o], s'.db.jobs[o], s.db.nextToken);
    assert o in s'.db.jobs ==> BehindCursor(s'.db, o);
  }

  /** A job suffers at most five failures in any run, and none after it was given up. */
  lemma FailuresAreBounded(s: State, o: Occurrence)
    requires Reachable(s)
    ensures s.Failures(o) <= MAX_ATTEMPTS
    ensures o in s.db.jobs && !s.db.jobs[o].status.Failed? ==> s.Failures(o) < MAX_ATTEMPTS
  {
    ReachableInvariant(s);
  }

  /** Jobs and cursors in every reachable state: the claim columns agree with the status, a cursor
      is an occurrence of the current schedule of an enabled rule, and whatever was materialised
      for the current revision lies behind it. */
  lemma TablesAreSound(s: State)
    requires Reachable(s)
    ensures forall o :: o in s.db.jobs ==> ClaimColumns(s.db.jobs[o]) && BehindCursor(s.db, o)
    ensures forall r :: r in s.db.rules ==> CursorColumns(s.db.rules[r])
  {
    ReachableInvariant(s);
  }

  /** Planning a due rule succeeds, moves its cursor past now or to NULL, and materialises only
      occurrences that never had a job, cleaned up or not. */
  lemma PlanningNeverRepeats(s: State, r: RuleId, window: Time, maxOccurrences: nat)
    requires Reachable(s) && r in s.db.rules && RuleDue(s.db.rules[r], s.db.clock) && 0 < window
    ensures var planned := PlanRule(s.db, r, window, maxOccurrences);
            && planned.Ok? && r in planned.value.rules
            && (planned.value.rules[r].nextRunAt.Some? ==> s.db.clock < planned.value.rules[r].nextRunAt.value)
            && (forall o :: o in planned.value.jobs && o !in s.db.jobs ==> o !in s.cleaned)
            && (forall o :: o in s.db.jobs ==> o in planned.value.jobs && planned.value.jobs[o] == s.db.jobs[o])
  {
    ReachableInvariant(s);
    PlanKeepsJobs(s, r, window, maxOccurrences);
    if s.db.rules[r].nextRunAt.Some? {
      PlanMaterialises(s.db, r, window, maxOccurrences);
    } else {
      SuccessorIsLeastOccurrence(s.db.rules[r].schedule.cron, s.db.clock);
    }
  }

  /** Planning a rule with a cursor materialises exactly the latest occurrences of the window, each
      as a job that can be claimed at once. */
  lemma PlanningMaterialisesTheWindow(s: State, r: RuleId, window: Time, maxOccurrences: nat) returns (due: seq<Time>)
    requires Reachable(s) && r in s.db.rules && RuleDue(s.db.rules[r], s.db.clock)
    requires s.db.rules[r].nextRunAt.Some? && 0 < window < SEARCH_HORIZON && 0 < maxOccurrences
    ensures var rule := s.db.rules[r];
            rule.schedule.CronSchedule? &&
            Enumerates(rule.schedule.cron, due, Max(rule.nextRunAt.value, s.db.clock - window), s.db.clock)
    ensures var planned := PlanRule(s.db, r, window, maxOccurrences);
            && planned.Ok?
            && (forall o :: o in planned.value.jobs && o !in s.db.jobs <==>
                  o.rule == r && o.revision == s.db.rules[r].revision && o.at in Last(due, maxOccurrences))
            && (forall o :: o in planned.value.jobs && o !in s.db.jobs ==>
                  && planned.value.jobs[o] == Job(Pending, 0, s.db.clock, None, None, None, s.db.clock)
                  && Claimable(planned.value.jobs[o], s.db.clock))
  {
    ReachableInvariant(s);
    var rule := s.db.rules[r];
    assert CursorColumns(rule);
    var cron, cursor := rule.schedule.cron, rule.nextRunAt.value;
    due := Due(cron, cursor, s.db.clock, window);
    DueIsTheWindow(cron, cursor, s.db.clock, window);
    DueBounds(cron, cursor, s.db.clock, window, maxOccurrences);
    InsertJobsEffect(s.db.jobs, r, rule.revision, Last(due, maxOccurrences), s.db.clock);
    forall t | t in Last(due, maxOccurrences) ensures Occurrence(r, rule.revision, t) !in s.db.jobs {
      assert Occurrence(r, rule.revision, t) in s.db.jobs ==> BehindCursor(s.db, Occurrence(r, rule.revision, t));
    }
  }
}
