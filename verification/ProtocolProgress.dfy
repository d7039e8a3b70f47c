/** No job is lost, and no occurrence is missed without being passed over in the open. */
module ProtocolProgress {
  import opened Wrappers
  import opened Schedules
  import opened JobTables
  import opened Protocol
  import opened ProtocolInvariants
  import opened ProtocolSafety
  import opened ProtocolHistory
  import opened ProtocolOnce
  import opened ProtocolTheorems
  import opened ProtocolWitnesses

  // Jobs

  /** A job stays until it is terminal and cleaned up, or its rule is deleted; as long as it is not
      terminal there is an instant at which it can be claimed. */
  lemma JobsAreNeverLost(s: State, steps: seq<Step>, o: Occurrence)
    requires Reachable(s) && o in s.db.jobs
    ensures var s' := Run(s, steps);
            && (o in s'.db.jobs || (o in s'.cleaned && s'.cleaned[o].Terminal()) || o.rule in s'.retired)
            && (o in s'.db.jobs && !s'.db.jobs[o].status.Terminal() ==> exists now :: Claimable(s'.db.jobs[o], now))
  {
    ReachableRun(s, steps);
    var s' := Run(s, steps);
    if o in s'.db.jobs && !s'.db.jobs[o].status.Terminal() {
      ReachableStays(s, steps);
      JobOfReachable(s', o);
      var job := s'.db.jobs[o];
      assert Claimable(job, if job.status.Pending? then job.availableAt else job.lease.value + 1);
    }
  }

  /** The rule still asks for the occurrence: it is enabled, at the revision it was planned for. */
  predicate Wanted(s: State, o: Occurrence) {
    o.rule in s.db.rules && s.db.rules[o.rule].enabled && s.db.rules[o.rule].revision == o.revision
  }

  predicate Succeeds(s: State, o: Occurrence, steps: seq<Step>) {
    Done(Run(s, steps).db, Run(s, steps).cleaned, o)
  }

  lemma AfterLoad(s: State, w: WorkerId, task: Task, conn: ConnId)
    requires task.Scheduled? && s.At(w) == Locked(task, conn, true) && conn in s.live && Wanted(s, task.o)
    ensures var s' := Apply(s, Load(w));
            && s'.At(w).Reading? && s'.At(w).task == task && s'.At(w).conn == conn
            && s'.db == s.db && conn in s'.live
  {
  }

  /** A claim of a wanted job can be followed up to its commit. */
  lemma ReadyCompletes(s: State, o: Occurrence, w: WorkerId, t: Time) returns (steps: seq<Step>)
    requires Reachable(s) && Ready(s, o, w, t) && Wanted(s, o)
    ensures Succeeds(s, o, steps)
  {
    steps := [Claim(w, o, 1, t), TryLock(w), Start(w, false, t), Load(w), CommitStep(w, t)];
    RunFive(s, steps[0], steps[1], steps[2], steps[3], steps[4]);
    var s1 := Apply(s, steps[0]);
    AfterClaim(s, o, w, t);
    var task := s1.At(w).task;
    AfterLock(s1, w, task);
    var s2 := Apply(s1, steps[1]);
    AfterStart(s2, w, task, s.nextConn, t);
    var s3 := Apply(s2, steps[2]);
    AfterLoad(s3, w, s3.At(w).task, s.nextConn);
    var s4 := Apply(s3, steps[3]);
    OneStep(s, steps[0]);
    OneStep(s1, steps[1]);
    OneStep(s2, steps[2]);
    OneStep(s3, steps[3]);
    CompletesFrom(s4, w, o, t);
  }

  lemma CompletesFrom(s: State, w: WorkerId, o: Occurrence, now: Time)
    requires Reachable(s) && s.At(w).Reading? && s.At(w).conn in s.live
    requires s.At(w).task.Scheduled? && s.At(w).task.o == o && FenceHolds(s, s.At(w), now)
    ensures var s' := Apply(s, CommitStep(w, now)); o in s'.db.jobs && s'.db.jobs[o].status.Succeeded?
  {
    FencedCommitSucceeds(s, w, now);
  }

  /** Nothing makes an occurrence succeed that its rule does not ask for. */
  lemma UnwantedDoesNotSucceed(s: State, step: Step, o: Occurrence)
    requires Consistent(s) && o in s.db.jobs && !Wanted(s, o) && !Done(s.db, s.cleaned, o)
    ensures !Done(Apply(s, step).db, Apply(s, step).cleaned, o)
  {
    if step.CommitStep? {
      CommitAllOrNothing(s, step.w, step.now);
    } else {
      StepSuccess(s, step);
    }
  }

  /** A job of a rule that was disabled, revised or deleted since is wanted by no later state. */
  lemma UnwantedStays(s: State, s': State, o: Occurrence)
    requires Consistent(s') && RulesLater(s, s') && o.rule in s.db.rules && o.revision <= s.db.rules[o.rule].revision
    requires !Wanted(s, o)
    ensures !Wanted(s', o)
    ensures o.rule in s'.db.rules ==> o.revision <= s'.db.rules[o.rule].revision
  {
  }

  lemma {:induction false} UnwantedNeverSucceeds(s: State, steps: seq<Step>, o: Occurrence)
    requires Reachable(s) && !Done(s.db, s.cleaned, o)
    requires o in s.db.jobs ==> !Wanted(s, o)
    requires o.rule in s.retired || (o.rule in s.db.rules && o.revision <= s.db.rules[o.rule].revision)
    requires o in s.db.jobs || o in s.cleaned || o.rule in s.retired
    ensures !Succeeds(s, o, steps)
    decreases |steps|
  {
    if steps != [] {
      var s1 := Apply(s, steps[0]);
      OneStep(s, steps[0]);
      ReachableInvariant(s);
      ReachableInvariant(s1);
      StepKeepsInvariant(s, steps[0]);
      if o in s.db.jobs {
        UnwantedDoesNotSucceed(s, steps[0], o);
        UnwantedStays(s, s1, o);
      }
      UnwantedNeverSucceeds(s1, steps[1..], o);
    }
  }

  /** At least once: however often it was claimed, crashed or released before, an open job can still
      succeed exactly as long as its rule is enabled at the revision of the job. */
  lemma OpenJobSucceedsIffWanted(s: State, o: Occurrence)
    requires Reachable(s) && o in s.db.jobs && !s.db.jobs[o].status.Terminal()
    ensures (exists steps :: Succeeds(s, o, steps)) <==> Wanted(s, o)
  {
    JobOfReachable(s, o);
    NotCleaned(s, o);
    if Wanted(s, o) {
      var before, t := OpenJobsBecomeReady(s, o, WORKER);
      ReachableStays(s, before);
      var after := ReadyCompletes(Run(s, before), o, WORKER, t);
      RunAppend(s, before, after);
      assert Succeeds(s, o, before + after);
    } else {
      forall steps ensures !Succeeds(s, o, steps) {
        UnwantedNeverSucceeds(s, steps, o);
      }
    }
  }

  /** What the scheduler guarantees of a job: never two evaluations, one exactly when it succeeded,
      and until it is terminal the way to that one stays open as long as its rule asks for it. */
  lemma SchedulerGuarantee(s: State, o: Occurrence)
    requires Reachable(s) && o in s.db.jobs
    ensures Evaluations(s.commits, o) <= 1
    ensures Evaluations(s.commits, o) == 1 <==> s.db.jobs[o].status.Succeeded?
    ensures !s.db.jobs[o].status.Terminal() ==> ((exists steps :: Succeeds(s, o, steps)) <==> Wanted(s, o))
  {
    ExactlyOnce(s, o);
    JobOfReachable(s, o);
    NotCleaned(s, o);
    if !s.db.jobs[o].status.Terminal() { OpenJobSucceedsIffWanted(s, o); }
  }

  lemma NotCleaned(s: State, o: Occurrence)
    requires Reachable(s) && o in s.db.jobs
    ensures o !in s.cleaned
  {
    ReachableInvariant(s);
  }

  // Occurrences

  /** The cursor of the occurrence's revision has passed it. */
  predicate Behind(s: State, o: Occurrence) {
    && o.rule in s.db.rules && s.db.rules[o.rule].revision == o.revision
    && s.db.rules[o.rule].nextRunAt.Some? && o.at < s.db.rules[o.rule].nextRunAt.value
  }

  /** The instant is an occurrence of its rule's schedule. */
  predicate IsOccurrence(s: State, o: Occurrence) {
    && o.rule in s.db.rules && s.db.rules[o.rule].revision == o.revision
    && s.db.rules[o.rule].schedule.CronSchedule? && Occurs(s.db.rules[o.rule].schedule.cron, o.at)
  }

  predicate Materialised(s: State, o: Occurrence) {
    o in s.db.jobs || o in s.cleaned
  }

  /** A planning step drops a due occurrence that is not among the latest of the window. */
  predicate Drops(s: State, step: Step, o: Occurrence) {
    && step.Plan? && step.r == o.rule && IsOccurrence(s, o) && o.at <= s.db.clock
    && var rule := s.db.rules[o.rule];
       && rule.nextRunAt.Some? && rule.nextRunAt.value <= o.at
       && o.at !in Last(Due(rule.schedule.cron, rule.nextRunAt.value, s.db.clock, step.window), step.maxOccurrences)
  }

  /** A planning step initialises the cursor after the occurrence. */
  predicate InitialisesPast(s: State, step: Step, o: Occurrence) {
    && step.Plan? && step.r == o.rule && IsOccurrence(s, o) && o.at <= s.db.clock
    && s.db.rules[o.rule].nextRunAt.None?
  }

  /** A planning step passes the occurrence over. */
  predicate PassesOver(s: State, step: Step, o: Occurrence) {
    Drops(s, step, o) || InitialisesPast(s, step, o)
  }

  predicate PassedOver(s: State, steps: seq<Step>, o: Occurrence)
    decreases |steps|
  {
    steps != [] && (PassesOver(s, steps[0], o) || PassedOver(Apply(s, steps[0]), steps[1..], o))
  }

  lemma AdvancePasses(t: Tables, r: RuleId, window: Time, maxOccurrences: nat, o: Occurrence)
    requires r in t.rules && RuleDue(t.rules[r], t.clock) && o.rule == r && t.rules[r].revision == o.revision
    requires t.rules[r].schedule.CronSchedule? && Occurs(t.rules[r].schedule.cron, o.at)
    requires t.rules[r].nextRunAt.Some? && t.rules[r].nextRunAt.value <= o.at && 0 < window
    ensures var rule, t' := t.rules[r], PlanRule(t, r, window, maxOccurrences).value;
            var cursor := t'.rules[r].nextRunAt;
            cursor.Some? && o.at < cursor.value ==>
              && o.at <= t.clock
              && (o.at in Last(Due(rule.schedule.cron, rule.nextRunAt.value, t.clock, window), maxOccurrences) ==> o in t'.jobs)
  {
    var rule := t.rules[r];
    var cron, cursor := rule.schedule.cron, rule.nextRunAt.value;
    SuccessorIsLeastOccurrence(cron, t.clock);
    NextCursorIsPastNow(cron, cursor, t.clock, window);
    InsertJobsEffect(t.jobs, r, rule.revision, Last(Due(cron, cursor, t.clock, window), maxOccurrences), t.clock);
  }

  lemma PlanPasses(s: State, r: RuleId, window: Time, maxOccurrences: nat, o: Occurrence)
    requires Consistent(s) && IsOccurrence(s, o) && o.rule == r && RuleDue(s.db.rules[r], s.db.clock)
    requires 0 < window && 0 < maxOccurrences && !Behind(s, o)
    ensures var s' := Apply(s, Plan(r, window, maxOccurrences));
            Behind(s', o) ==> o in s'.db.jobs || PassesOver(s, Plan(r, window, maxOccurrences), o)
  {
    if s.db.rules[r].nextRunAt.Some? {
      AdvancePasses(s.db, r, window, maxOccurrences, o);
    } else {
      SuccessorIsLeastOccurrence(s.db.rules[r].schedule.cron, s.db.clock);
    }
  }

  lemma PatchLeavesOtherRows(s: State, patched: RuleId, patch: Patch, r: RuleId)
    requires PatchRule(s.db, patched, patch).Ok? && r in s.db.rules
    ensures var db := PatchRule(s.db, patched, patch).value;
            r in db.rules && (db.rules[r].revision == s.db.rules[r].revision ==> db.rules[r] == s.db.rules[r])
  {
  }

  lemma PlanLeavesOtherRows(s: State, planned: RuleId, window: Time, maxOccurrences: nat, r: RuleId)
    requires Consistent(s) && planned in s.db.rules && RuleDue(s.db.rules[planned], s.db.clock) && planned != r && r in s.db.rules
    ensures PlanRule(s.db, planned, window, maxOccurrences).Ok?
    ensures var db := PlanRule(s.db, planned, window, maxOccurrences).value; r in db.rules && db.rules[r] == s.db.rules[r]
  {
    assert CursorColumns(s.db.rules[planned]);
  }

  /** Only planning changes the row of a rule within one revision. */
  lemma RowUntouched(s: State, step: Step, r: RuleId)
    requires Consistent(s) && r in s.db.rules && !(step.Plan? && step.r == r)
    ensures var s' := Apply(s, step);
            r in s'.db.rules && s'.db.rules[r].revision == s.db.rules[r].revision ==> s'.db.rules[r] == s.db.rules[r]
  {
    if TouchesOneRow(step) {
      RowSteps(s, step);
    } else if KeepsTables(step) {
      LockStepsFrame(s, step);
    } else if step.PatchRuleStep? {
      if PatchRule(s.db, step.r, step.patch).Ok? { PatchLeavesOtherRows(s, step.r, step.patch, r); }
    } else if step.Plan? {
      if step.r in s.db.rules && RuleDue(s.db.rules[step.r], s.db.clock) {
        PlanLeavesOtherRows(s, step.r, step.window, step.maxOccurrences, r);
      }
    }
  }

  /** A step that plans the rule when it may; any other leaves its row alone. */
  predicate Plans(s: State, step: Step, r: RuleId) {
    step.Plan? && step.r == r && r in s.db.rules && RuleDue(s.db.rules[r], s.db.clock) && 0 < step.window && 0 < step.maxOccurrences
  }

  lemma NotPlanned(s: State, step: Step, r: RuleId)
    requires step.Plan? && step.r == r && r in s.db.rules && !Plans(s, step, r)
    ensures Apply(s, step).db == s.db
  {
  }

  lemma RowKept(s: State, step: Step, r: RuleId)
    requires Consistent(s) && r in s.db.rules && !Plans(s, step, r)
    ensures var s' := Apply(s, step);
            r in s'.db.rules && s'.db.rules[r].revision == s.db.rules[r].revision ==> s'.db.rules[r] == s.db.rules[r]
  {
    if step.Plan? && step.r == r { NotPlanned(s, step, r); } else { RowUntouched(s, step, r); }
  }

  /** Only planning moves a cursor past an occurrence. */
  lemma CursorPasses(s: State, step: Step, o: Occurrence)
    requires Consistent(s) && IsOccurrence(s, o) && !Behind(s, o)
    ensures Behind(Apply(s, step), o) ==> o in Apply(s, step).db.jobs || PassesOver(s, step, o)
  {
    if Plans(s, step, o.rule) {
      PlanPasses(s, step.r, step.window, step.maxOccurrences, o);
    } else {
      RowKept(s, step, o.rule);
    }
  }

  /** The schedule of a revision never changes. */
  lemma OccurrenceStays(s: State, s': State, o: Occurrence)
    requires RulesLater(s, s') && IsOccurrence(s, o) && o.rule in s'.db.rules && s'.db.rules[o.rule].revision == o.revision
    ensures IsOccurrence(s', o)
  {
    assert s'.db.rules[o.rule].(nextRunAt := None) == s.db.rules[o.rule].(nextRunAt := None);
  }

  lemma MaterialisedStays(s: State, s': State, o: Occurrence)
    requires Consistent(s') && JobsLater(s, s') && Materialised(s, o) && o.rule in s'.db.rules
    ensures Materialised(s', o)
  {
  }

  /** The first step of a run at whose end the occurrence lies behind the cursor of its revision. */
  lemma FirstStep(s: State, step: Step, rest: seq<Step>, o: Occurrence)
    requires Reachable(s) && IsOccurrence(s, o) && Behind(Run(Apply(s, step), rest), o)
    ensures var s1 := Apply(s, step);
            && Consistent(s) && Reachable(s1) && IsOccurrence(s1, o)
            && s.db.clock <= s1.db.clock <= Run(s1, rest).db.clock
            && (Materialised(s, o) ==> Materialised(s1, o))
  {
    var s1 := Apply(s, step);
    OneStep(s, step);
    ReachableInvariant(s);
    StepKeepsInvariant(s, step);
    ReachableRun(s1, rest);
    SameRevisionBetween(s, s1, Run(s1, rest), o);
    OccurrenceStays(s, s1, o);
    if Materialised(s, o) { MaterialisedStays(s, s1, o); }
  }

  /** Whatever occurrence the cursor passes in a run was materialised as a job, or passed over by a
      planning step: it fell out of the window, was more than the maximum ago, or lay before the
      cursor was initialised. */
  lemma {:induction false} NothingIsSilentlyMissed(s: State, steps: seq<Step>, o: Occurrence)
    requires Reachable(s) && IsOccurrence(s, o)
    requires Behind(s, o) ==> Materialised(s, o)
    ensures Behind(Run(s, steps), o) ==> Materialised(Run(s, steps), o) || PassedOver(s, steps, o)
    decreases |steps|
  {
    if steps != [] && Behind(Run(s, steps), o) {
      FirstStep(s, steps[0], steps[1..], o);
      if !Materialised(s, o) { CursorPasses(s, steps[0], o); }
      if !PassesOver(s, steps[0], o) {
        NothingIsSilentlyMissed(Apply(s, steps[0]), steps[1..], o);
      }
    }
  }

  lemma SameRevisionBetween(s: State, s1: State, s2: State, o: Occurrence)
    requires Consistent(s1) && Consistent(s2) && RulesLater(s, s1) && RulesLater(s1, s2)
    requires o.rule in s.db.rules && s.db.rules[o.rule].revision == o.revision
    requires o.rule in s2.db.rules && s2.db.rules[o.rule].revision == o.revision
    ensures o.rule in s1.db.rules && s1.db.rules[o.rule].revision == o.revision
  {
  }

  /** What is dropped fell out of the window, or as many as the maximum are due after it. */
  lemma DroppedIsOldOrTooMuch(s: State, step: Step, o: Occurrence) returns (due: seq<Time>)
    requires Reachable(s) && Drops(s, step, o) && 0 < step.window < SEARCH_HORIZON
    ensures var rule := s.db.rules[o.rule];
            Enumerates(rule.schedule.cron, due, Max(rule.nextRunAt.value, s.db.clock - step.window), s.db.clock)
    ensures o.at < s.db.clock - step.window || (step.maxOccurrences < |due| && o.at in due[..|due| - step.maxOccurrences])
  {
    ReachableInvariant(s);
    var rule := s.db.rules[o.rule];
    assert CursorColumns(rule);
    due := Due(rule.schedule.cron, rule.nextRunAt.value, s.db.clock, step.window);
    DueIsTheWindow(rule.schedule.cron, rule.nextRunAt.value, s.db.clock, step.window);
    if s.db.clock - step.window <= o.at {
      NotAmongLast(due, o.at, step.maxOccurrences);
    }
  }

  lemma NotAmongLast(times: seq<Time>, t: Time, n: nat)
    requires t in times && t !in Last(times, n)
    ensures n < |times| && t in times[..|times| - n]
  {
    if n < |times| {
      assert times == times[..|times| - n] + times[|times| - n..];
    }
  }

  // Runs shorter than the search horizon

  predicate Dropped(s: State, steps: seq<Step>, o: Occurrence)
    decreases |steps|
  {
    steps != [] && (Drops(s, steps[0], o) || Dropped(Apply(s, steps[0]), steps[1..], o))
  }

  predicate WindowsWithin(steps: seq<Step>, window: Time) {
    forall i :: 0 <= i < |steps| && steps[i].Plan? ==> steps[i].window <= window
  }

  /** The cursor has yet to come to the occurrence, or is NULL while the occurrence is far ahead. */
  predicate Ahead(s: State, o: Occurrence, far: Time) {
    o.rule in s.db.rules &&
    match s.db.rules[o.rule].nextRunAt
    case Some(cursor) => cursor <= o.at
    case None => far <= o.at
  }

  lemma PlanStaysAhead(s: State, r: RuleId, window: Time, maxOccurrences: nat, o: Occurrence, far: Time)
    requires Consistent(s) && IsOccurrence(s, o) && o.rule == r && RuleDue(s.db.rules[r], s.db.clock)
    requires 0 < window && 0 < maxOccurrences
    requires Ahead(s, o, far) && s.db.clock < far <= s.db.clock - window + SEARCH_HORIZON
    ensures var s' := Apply(s, Plan(r, window, maxOccurrences));
            Ahead(s', o, far) || o in s'.db.jobs || Drops(s, Plan(r, window, maxOccurrences), o)
  {
    var rule := s.db.rules[r];
    var cron := rule.schedule.cron;
    SuccessorIsLeastOccurrence(cron, s.db.clock);
    if rule.nextRunAt.Some? {
      AdvanceStaysAhead(s.db, r, window, maxOccurrences, o);
    }
  }

  lemma AdvanceStaysAhead(t: Tables, r: RuleId, window: Time, maxOccurrences: nat, o: Occurrence)
    requires r in t.rules && RuleDue(t.rules[r], t.clock) && o.rule == r && t.rules[r].revision == o.revision
    requires t.rules[r].schedule.CronSchedule? && Occurs(t.rules[r].schedule.cron, o.at)
    requires t.rules[r].nextRunAt.Some? && t.rules[r].nextRunAt.value <= o.at && 0 < window
    ensures var rule, t' := t.rules[r], PlanRule(t, r, window, maxOccurrences).value;
            var cursor := t'.rules[r].nextRunAt;
            && (o.at in Last(Due(rule.schedule.cron, rule.nextRunAt.value, t.clock, window), maxOccurrences) ==> o in t'.jobs)
            && (t.clock < o.at < t.clock - window + SEARCH_HORIZON ==> cursor.Some?)
            && (t.clock < o.at && cursor.Some? ==> cursor.value <= o.at)
  {
    var rule := t.rules[r];
    var cron, cursor := rule.schedule.cron, rule.nextRunAt.value;
    SuccessorIsLeastOccurrence(cron, t.clock);
    NextCursorIsPastNow(cron, cursor, t.clock, window);
    if t.clock < o.at < t.clock - window + SEARCH_HORIZON {
      NextCursorIsNullOnlyInSilence(cron, cursor, t.clock, window, o.at);
    }
    InsertJobsEffect(t.jobs, r, rule.revision, Last(Due(cron, cursor, t.clock, window), maxOccurrences), t.clock);
  }

  lemma StepStaysAhead(s: State, step: Step, o: Occurrence, window: Time, far: Time)
    requires Consistent(s) && IsOccurrence(s, o) && Ahead(s, o, far)
    requires (step.Plan? ==> step.window <= window) && s.db.clock < far <= s.db.clock - window + SEARCH_HORIZON
    requires o.rule in Apply(s, step).db.rules && Apply(s, step).db.rules[o.rule].revision == o.revision
    ensures Ahead(Apply(s, step), o, far) || o in Apply(s, step).db.jobs || Drops(s, step, o)
  {
    if Plans(s, step, o.rule) {
      PlanStaysAhead(s, step.r, step.window, step.maxOccurrences, o, far);
    } else {
      RowKept(s, step, o.rule);
    }
  }

  /** In a run that stays within the search horizon, an occurrence the cursor had yet to come to and
      has passed at the end was materialised, or dropped because of the window or the maximum: no
      other way of missing one is left. */
  lemma {:induction false} OnlyLimitsMiss(s: State, steps: seq<Step>, o: Occurrence, window: Time, far: Time)
    requires Reachable(s) && IsOccurrence(s, o) && WindowsWithin(steps, window)
    requires Ahead(s, o, far) || Materialised(s, o)
    requires Run(s, steps).db.clock < far <= s.db.clock - window + SEARCH_HORIZON
    ensures Behind(Run(s, steps), o) ==> Materialised(Run(s, steps), o) || Dropped(s, steps, o)
    decreases |steps|
  {
    if steps != [] && Behind(Run(s, steps), o) {
      FirstStep(s, steps[0], steps[1..], o);
      if !Materialised(s, o) { StepStaysAhead(s, steps[0], o, window, far); }
      if !Drops(s, steps[0], o) {
        OnlyLimitsMiss(Apply(s, steps[0]), steps[1..], o, window, far);
      }
    }
  }
}
