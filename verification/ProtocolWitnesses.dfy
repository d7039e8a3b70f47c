/** Runs that show what the protocol does not promise. */
module ProtocolWitnesses {
  import opened Wrappers
  import opened Schedules
  import opened JobTables
  import opened Protocol
  import opened ProtocolHistory
  import opened ProtocolInvariants
  import opened ProtocolTheorems

  const EVERY_TICK: Cron := t => Some(t + 1)

  const RULE: RuleId := 0

  const FIRST := Occurrence(RULE, 1, 1)

  const WORKER: WorkerId := 0

  /** A rule is created, and its first occurrence is planned. */
  const PLANNED := [CreateRuleStep(RULE, true, CronSchedule(EVERY_TICK), 0), Tick(1), Plan(RULE, 1, 1)]

  const START := Initial(0, r => r)

  lemma FirstIsDue()
    ensures Last(Due(EVERY_TICK, 1, 1, 1), 1) == [1] && NextCursor(EVERY_TICK, 1, 1, 1) == Some(2)
  {
    assert Chain(EVERY_TICK, Some(1), 1) == [1] + Chain(EVERY_TICK, Some(2), 1) == [1];
    assert Beyond(EVERY_TICK, Some(1), 1) == Beyond(EVERY_TICK, Some(2), 1) == Some(2);
  }

  lemma FirstPlan(t: Tables)
    requires t == Tables(1, 0, map[RULE := Rule(1, true, CronSchedule(EVERY_TICK), Some(1), 0)], map[])
    ensures PlanRule(t, RULE, 1, 1) ==
              Ok(Tables(1, 0, map[RULE := Rule(1, true, CronSchedule(EVERY_TICK), Some(2), 0)], map[FIRST := FreshJob(1)]))
  {
    FirstIsDue();
    assert [1][1..] == [];
    assert InsertJobs(map[], RULE, 1, [1], 1) == InsertJobs(map[FIRST := FreshJob(1)], RULE, 1, [], 1) == map[FIRST := FreshJob(1)];
    var rule := t.rules[RULE];
    assert t.rules[RULE := rule.(nextRunAt := Some(2))] == map[RULE := Rule(1, true, CronSchedule(EVERY_TICK), Some(2), 0)];
  }

  /** The tables once the rule is there, with a given cursor. */
  function Tabled(clock: Time, cursor: Time, jobs: map<Occurrence, Job>): Tables {
    Tables(clock, 0, map[RULE := Rule(1, true, CronSchedule(EVERY_TICK), Some(cursor), 0)], jobs)
  }

  lemma Created()
    ensures Apply(START, PLANNED[0]) == START.(db := Tabled(0, 1, map[]), step := 1)
  {
  }

  lemma Planned(s: State)
    requires s == START.(db := Tabled(1, 1, map[]), step := 2)
    ensures Apply(s, PLANNED[2]) == START.(db := Tabled(1, 2, map[FIRST := FreshJob(1)]), step := 3)
  {
    FirstPlan(s.db);
  }

  lemma RunPlanned()
    ensures Run(START, PLANNED) == Apply(Apply(Apply(START, PLANNED[0]), PLANNED[1]), PLANNED[2])
  {
    var s1 := Apply(START, PLANNED[0]);
    var s2 := Apply(s1, PLANNED[1]);
    assert PLANNED[1..] == [PLANNED[1], PLANNED[2]] && [PLANNED[1], PLANNED[2]][1..] == [PLANNED[2]];
    assert [PLANNED[2]][1..] == [];
    assert Run(START, PLANNED) == Run(s1, [PLANNED[1], PLANNED[2]]) == Run(s2, [PLANNED[2]]) == Run(Apply(s2, PLANNED[2]), []);
  }

  lemma PlannedState() returns (s: State)
    ensures s == START.(db := Tabled(1, 2, map[FIRST := FreshJob(1)]), step := 3) && Reachable(s)
  {
    var s1 := Apply(START, PLANNED[0]);
    Created();
    var s2 := Apply(s1, PLANNED[1]);
    Planned(s2);
    s := Apply(s2, PLANNED[2]);
    RunPlanned();
    assert Reachable(Run(START, PLANNED));
  }

  // Attempts

  /** The job can be claimed at an instant, by an idle worker, with the rule's lock free. */
  predicate Ready(s: State, o: Occurrence, w: WorkerId, t: Time) {
    && o in s.db.jobs && Claimable(s.db.jobs[o], t)
    && s.At(w).Idle? && s.lockKey(o.rule) !in s.locks
  }

  /** Claims, starts an attempt, and crashes with its connection. */
  function CrashSteps(s: State, o: Occurrence, w: WorkerId, t: Time): seq<Step> {
    [Claim(w, o, 1, t), TryLock(w), Start(w, false, t), Crash(w), ConnectionDies(s.nextConn)]
  }

  lemma RunFive(s: State, a: Step, b: Step, c: Step, d: Step, e: Step)
    ensures Run(s, [a, b, c, d, e]) == Apply(Apply(Apply(Apply(Apply(s, a), b), c), d), e)
  {
    var steps := [a, b, c, d, e];
    assert steps[1..] == [b, c, d, e] && [b, c, d, e][1..] == [c, d, e] && [c, d, e][1..] == [d, e];
    assert [d, e][1..] == [e] && [e][1..] == [];
    var s1 := Apply(s, a);
    var s2 := Apply(s1, b);
    var s3 := Apply(s2, c);
    assert Run(s, steps) == Run(s1, [b, c, d, e]) == Run(s2, [c, d, e]) == Run(s3, [d, e]);
    assert Run(s3, [d, e]) == Run(Apply(s3, d), [e]) == Run(Apply(Apply(s3, d), e), []);
  }

  lemma AfterClaim(s: State, o: Occurrence, w: WorkerId, t: Time)
    requires Ready(s, o, w, t)
    ensures var s' := Apply(s, Claim(w, o, 1, t));
            && s'.At(w) == Claimed(Scheduled(o, s.db.nextToken, s.db.jobs[o].attempts + 1))
            && o in s'.db.jobs && s'.db.jobs[o].attempts == s.db.jobs[o].attempts
            && HoldsLease(s'.db, o, s.db.nextToken, t) && s'.db.jobs[o].lease == Some(t + 1)
            && (s'.locks, s'.lockKey, s'.nextConn, s'.failures) == (s.locks, s.lockKey, s.nextConn, s.failures)
            && s'.db.rules == s.db.rules && s'.db.clock == s.db.clock
  {
  }

  lemma AfterLock(s: State, w: WorkerId, task: Task)
    requires s.At(w) == Claimed(task) && s.lockKey(task.Rule()) !in s.locks
    ensures var s' := Apply(s, TryLock(w));
            && s'.At(w) == Locked(task, s.nextConn, false) && s.nextConn in s'.live
            && s'.locks == s.locks[s.lockKey(task.Rule()) := s.nextConn]
            && (s'.db, s'.lockKey, s'.failures) == (s.db, s.lockKey, s.failures)
  {
  }

  lemma AfterStart(s: State, w: WorkerId, task: Task, conn: ConnId, t: Time)
    requires task.Scheduled? && s.At(w) == Locked(task, conn, false) && conn in s.live
    requires HoldsLease(s.db, task.o, task.token, t)
    ensures var s' := Apply(s, Start(w, false, t));
            && task.o in s'.db.jobs && s'.db.jobs[task.o].attempts == s.db.jobs[task.o].attempts + 1
            && s'.db.jobs[task.o].status.Running? && s'.db.jobs[task.o].lease == s.db.jobs[task.o].lease
            && (s'.locks, s'.lockKey, s'.failures) == (s.locks, s.lockKey, s.failures)
            && s'.At(w).Locked? && s'.At(w).started && s'.At(w).conn == conn && conn in s'.live
            && s'.At(w).task.Scheduled? && s'.At(w).task.o == task.o && s'.At(w).task.token == task.token
            && HoldsLease(s'.db, task.o, task.token, t) && s'.db.rules == s.db.rules
  {
  }

  /** A worker crashes, and a connection dies: if it was the holder's, the lock of a rule is free. */
  lemma AfterCrash(s: State, w: WorkerId, conn: ConnId, r: RuleId)
    requires s.lockKey(r) in s.locks ==> s.locks[s.lockKey(r)] == conn
    ensures var s' := Apply(Apply(s, Crash(w)), ConnectionDies(conn));
            && s'.At(w).Idle? && s'.lockKey(r) !in s'.locks
            && (s'.db, s'.lockKey, s'.failures) == (s.db, s.lockKey, s.failures)
  {
  }

  lemma OneCrash(s: State, o: Occurrence, w: WorkerId, t: Time)
    requires Ready(s, o, w, t)
    ensures var s' := Run(s, CrashSteps(s, o, w, t));
            && Ready(s', o, w, t + 2) && s'.failures == s.failures
            && s'.db.jobs[o].attempts == s.db.jobs[o].attempts + 1
  {
    var steps := CrashSteps(s, o, w, t);
    RunFive(s, steps[0], steps[1], steps[2], steps[3], steps[4]);
    var s1 := Apply(s, steps[0]);
    AfterClaim(s, o, w, t);
    var task := s1.At(w).task;
    AfterLock(s1, w, task);
    var s2 := Apply(s1, steps[1]);
    AfterStart(s2, w, task, s.nextConn, t);
    AfterCrash(Apply(s2, steps[2]), w, s.nextConn, o.rule);
  }

  lemma {:induction false} ManyCrashes(s: State, o: Occurrence, w: WorkerId, t: Time, n: nat) returns (steps: seq<Step>)
    requires Ready(s, o, w, t)
    ensures var s' := Run(s, steps);
            o in s'.db.jobs && s'.failures == s.failures && s'.db.jobs[o].attempts == s.db.jobs[o].attempts + n
    decreases n
  {
    if n == 0 {
      steps := [];
    } else {
      OneCrash(s, o, w, t);
      var rest := ManyCrashes(Run(s, CrashSteps(s, o, w, t)), o, w, t + 2, n - 1);
      RunAppend(s, CrashSteps(s, o, w, t), rest);
      steps := CrashSteps(s, o, w, t) + rest;
    }
  }

  /** Any job that is not terminal can be claimed at some instant, once its worker is idle and the
      lock of its rule is free. */
  lemma OpenJobsBecomeReady(s: State, o: Occurrence, w: WorkerId) returns (steps: seq<Step>, t: Time)
    requires o in s.db.jobs && ClaimColumns(s.db.jobs[o]) && !s.db.jobs[o].status.Terminal()
    ensures Ready(Run(s, steps), o, w, t)
    ensures Run(s, steps).db == s.db && Run(s, steps).failures == s.failures
  {
    var job, key := s.db.jobs[o], s.lockKey(o.rule);
    t := if job.status.Pending? then job.availableAt else job.lease.value + 1;
    var conn: ConnId := if key in s.locks then s.locks[key] else 0;
    steps := [Crash(w), ConnectionDies(conn)];
    AfterCrash(s, w, conn, o.rule);
    assert steps[1..] == [ConnectionDies(conn)] && [ConnectionDies(conn)][1..] == [];
    var s1 := Apply(s, Crash(w));
    assert Run(s, steps) == Run(s1, [ConnectionDies(conn)]) == Run(Apply(s1, ConnectionDies(conn)), []);
  }

  lemma JobOfReachable(s: State, o: Occurrence)
    requires Reachable(s) && o in s.db.jobs
    ensures ClaimColumns(s.db.jobs[o]) && o.rule in s.db.rules && o.revision <= s.db.rules[o.rule].revision
  {
    ReachableInvariant(s);
    assert JobColumns(s.db, o);
  }

  /** A run after which the job has at least n attempts, with no further failure charged to it. */
  predicate ReachesAttempts(s: State, o: Occurrence, n: nat, steps: seq<Step>) {
    var s' := Run(s, steps);
    o in s'.db.jobs && n <= s'.db.jobs[o].attempts && s'.Failures(o) == s.Failures(o)
  }

  ghost predicate CanReachAttempts(s: State, o: Occurrence, n: nat) {
    exists steps :: ReachesAttempts(s, o, n, steps)
  }

  lemma OpenJobsReachAnyAttempts(s: State, o: Occurrence, n: nat) returns (steps: seq<Step>)
    requires o in s.db.jobs && ClaimColumns(s.db.jobs[o]) && !s.db.jobs[o].status.Terminal()
    ensures ReachesAttempts(s, o, n, steps)
    ensures Run(s, steps).db.jobs[o].attempts == s.db.jobs[o].attempts + n
  {
    var before, t := OpenJobsBecomeReady(s, o, WORKER);
    var crashes := ManyCrashes(Run(s, before), o, WORKER, t, n);
    RunAppend(s, before, crashes);
    steps := before + crashes;
  }

  /** The attempts of a job have no bound exactly as long as it is not terminal: every crash after
      the start of an attempt adds one, and none of them is charged as a failure. */
  lemma AttemptsUnboundedIffOpen(s: State, o: Occurrence)
    requires Reachable(s) && o in s.db.jobs
    ensures (forall n: nat :: CanReachAttempts(s, o, n)) <==> !s.db.jobs[o].status.Terminal()
  {
    JobOfReachable(s, o);
    if s.db.jobs[o].status.Terminal() {
      var more := s.db.jobs[o].attempts + 1;
      forall steps ensures !ReachesAttempts(s, o, more, steps) {
        TerminalIsForever(s, steps, o);
      }
      assert !CanReachAttempts(s, o, more);
    } else {
      forall n: nat ensures CanReachAttempts(s, o, n) {
        var steps := OpenJobsReachAnyAttempts(s, o, n);
      }
    }
  }

  /** An instance: the first job of a rule, with any number of attempts and no failure. */
  lemma CrashesAreNotCounted(n: nat)
    ensures exists s :: Reachable(s) && FIRST in s.db.jobs && s.db.jobs[FIRST].attempts == n && s.Failures(FIRST) == 0
  {
    var s := PlannedState();
    var steps := OpenJobsReachAnyAttempts(s, FIRST, n);
    ReachableStays(s, steps);
  }

  // Old revisions

  /** A run after which the job is pending. */
  predicate LeavesPending(s: State, o: Occurrence, steps: seq<Step>) {
    var s' := Run(s, steps);
    o in s'.db.jobs && s'.db.jobs[o].status.Pending?
  }

  /** The job of an earlier revision is not replaced once the rule was patched. */
  ghost predicate Outlives(s: State, r: RuleId, patch: Patch, o: Occurrence) {
    && r in s.db.rules && o.rule == r && o.revision <= s.db.rules[r].revision
    && exists steps :: LeavesPending(Apply(s, PatchRuleStep(r, patch)), o, steps)
  }

  predicate RunsAJob(s: State, o: Occurrence, r: RuleId) {
    o in s.db.jobs && o.rule == r && s.db.jobs[o].status.Running?
  }

  lemma PatchKeepsRunning(s: State, r: RuleId, patch: Patch)
    requires PatchRule(s.db, r, patch).Ok? && patch.Touches()
    ensures var s' := Apply(s, PatchRuleStep(r, patch));
            && r in s'.db.rules && s'.db.rules[r].revision == s.db.rules[r].revision + 1
            && s'.db.jobs.Keys == s.db.jobs.Keys
            && forall o :: o in s.db.jobs && s.db.jobs[o].status.Running? ==> s'.db.jobs[o] == s.db.jobs[o]
  {
  }

  /** A job that was running when its rule was patched can be released. */
  lemma RunningOutlives(s: State, r: RuleId, patch: Patch, o: Occurrence)
    requires Reachable(s) && patch.Touches() && PatchRule(s.db, r, patch).Ok? && RunsAJob(s, o, r)
    ensures Outlives(s, r, patch, o)
  {
    JobOfReachable(s, o);
    PatchKeepsRunning(s, r, patch);
    var s' := Apply(s, PatchRuleStep(r, patch));
    var release := Release(o, s.db.jobs[o].token.value, 0, 0);
    AfterRelease(s', o, s.db.jobs[o].token.value, 0);
    assert [release][1..] == [];
    assert Run(s', [release]) == Run(Apply(s', release), []);
    assert LeavesPending(s', o, [release]);
  }

  /** Whatever outlives the patch was running when it committed. */
  lemma OutlivingWasRunning(s: State, r: RuleId, patch: Patch, o: Occurrence, steps: seq<Step>)
    requires Reachable(s) && patch.Touches() && PatchRule(s.db, r, patch).Ok?
    requires o.rule == r && o.revision <= s.db.rules[r].revision
    requires LeavesPending(Apply(s, PatchRuleStep(r, patch)), o, steps)
    ensures RunsAJob(s, o, r)
  {
    PatchKeepsRunning(s, r, patch);
    var s' := Apply(s, PatchRuleStep(r, patch));
    OneStep(s, PatchRuleStep(r, patch));
    ReplacedJobsAreOld(s', steps, o);
    TerminalIsForever(s', steps, o);
    PatchLeavesNothingPending(s, r, patch, o);
  }

  /** No step adds a job of a revision that is replaced. */
  lemma ReplacedJobsAreOld(s: State, steps: seq<Step>, o: Occurrence)
    requires Reachable(s) && o.rule in s.db.rules && o.revision < s.db.rules[o.rule].revision
    ensures o in Run(s, steps).db.jobs ==> o in s.db.jobs
  {
    ReachableRun(s, steps);
  }

  /** After an effective patch a job of the replaced revisions can ever be pending again exactly if
      one was running when the patch committed. */
  lemma OldRevisionPendingIffRunning(s: State, r: RuleId, patch: Patch)
    requires Reachable(s) && patch.Touches() && PatchRule(s.db, r, patch).Ok?
    ensures (exists o :: Outlives(s, r, patch, o)) <==> exists o :: RunsAJob(s, o, r)
  {
    if o :| Outlives(s, r, patch, o) {
      var steps :| LeavesPending(Apply(s, PatchRuleStep(r, patch)), o, steps);
      OutlivingWasRunning(s, r, patch, o, steps);
    }
    if o :| RunsAJob(s, o, r) {
      RunningOutlives(s, r, patch, o);
    }
  }

  lemma AfterRelease(s: State, o: Occurrence, token: Token, now: Time)
    requires HoldsToken(s.db, o, token)
    ensures var s' := Apply(s, Release(o, token, 0, now));
            && o in s'.db.jobs && s'.db.jobs[o].status.Pending? && s'.db.jobs[o].availableAt == now
            && s'.db.rules == s.db.rules && s'.db.clock == s.db.clock
  {
  }

  lemma AfterPatch(s: State, patch: Patch)
    requires RULE in s.db.rules && s.db.rules[RULE].schedule == CronSchedule(EVERY_TICK)
    requires patch.Touches() && patch.schedule.None? && patch.expectedRevision.None?
    ensures PatchRule(s.db, RULE, patch).Ok? && PatchRule(s.db, RULE, patch).value.clock == s.db.clock
  {
  }

  /** An instance, which can even be claimed again: the first job of a rule was running when the
      rule was patched, and was released afterwards. What it cannot do is commit. */
  lemma ReleasedJobsOutliveTheirRevision()
    ensures exists s ::
              && Reachable(s) && FIRST in s.db.jobs && s.db.jobs[FIRST].status.Pending?
              && RULE in s.db.rules && FIRST.revision < s.db.rules[RULE].revision
              && Claimable(s.db.jobs[FIRST], s.db.clock)
  {
    var s := PlannedState();
    var claim := Claim(WORKER, FIRST, 1, 1);
    OneStep(s, claim);
    AfterClaim(s, FIRST, WORKER, 1);
    var s1 := Apply(s, claim);
    var patch := Patch(None, None, Some(7), false, None);
    OneStep(s1, PatchRuleStep(RULE, patch));
    AfterPatch(s1, patch);
    PatchKeepsRunning(s1, RULE, patch);
    var s2 := Apply(s1, PatchRuleStep(RULE, patch));
    var release := Release(FIRST, s.db.nextToken, 0, 1);
    OneStep(s2, release);
    AfterRelease(s2, FIRST, s.db.nextToken, 1);
    assert Reachable(Apply(s2, release));
  }
}
