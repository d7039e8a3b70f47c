/** What every step of the protocol keeps. */
module ProtocolInvariants {
  import opened Wrappers
  import opened Schedules
  import opened JobTables
  import opened Protocol

  // Jobs and cursors

  /** The CHECK constraint of the job table: running exactly when token and lease are present. */
  predicate ClaimColumns(job: Job) {
    && (job.status.Running? <==> job.token.Some?)
    && (job.status.Running? <==> job.lease.Some?)
  }

  /** An occurrence that has or had a job lies in the past, belongs to no future revision, and is
      behind the cursor of the revision it was planned for. */
  predicate BehindCursor(db: Tables, o: Occurrence) {
    && o.rule in db.rules
    && o.at <= db.clock
    && o.revision <= db.rules[o.rule].revision
    && (o.revision == db.rules[o.rule].revision && db.rules[o.rule].nextRunAt.Some?
        ==> o.at < db.rules[o.rule].nextRunAt.value)
  }

  /** The cursor is NULL or an occurrence of the current schedule of an enabled cron rule, whose
      expression parses. */
  predicate CursorColumns(rule: Rule) {
    && 1 <= rule.revision
    && (rule.enabled ==> !rule.schedule.Malformed?)
    && (rule.nextRunAt.Some? ==> rule.enabled && rule.schedule.CronSchedule? &&
                                 Occurs(rule.schedule.cron, rule.nextRunAt.value))
  }

  predicate JobColumns(db: Tables, o: Occurrence)
    requires o in db.jobs
  {
    && ClaimColumns(db.jobs[o])
    && (db.jobs[o].token.Some? ==> db.jobs[o].token.value < db.nextToken)
    && BehindCursor(db, o)
  }

  ghost predicate JobsOk(db: Tables, cleaned: map<Occurrence, JobStatus>, retired: set<RuleId>) {
    && (forall o :: o in db.jobs ==> JobColumns(db, o))
    && (forall o :: o in cleaned ==> BehindCursor(db, o) && o !in db.jobs && cleaned[o].Terminal())
    && (forall r :: r in db.rules ==> CursorColumns(db.rules[r]) && r !in retired)
  }

  lemma {:induction false} InsertJobsEffect(jobs: map<Occurrence, Job>, r: RuleId, revision: nat, times: seq<Time>, now: Time)
    ensures var after := InsertJobs(jobs, r, revision, times, now);
            && (forall o :: o in jobs ==> o in after && after[o] == jobs[o])
            && (forall o :: o in after && o !in jobs ==>
                  after[o] == FreshJob(now) && o.rule == r && o.revision == revision && o.at in times)
            && (forall t :: t in times ==> Occurrence(r, revision, t) in after)
    decreases |times|
  {
    if times != [] {
      var o := Occurrence(r, revision, times[0]);
      var jobs' := if o in jobs then jobs else jobs[o := FreshJob(now)];
      InsertJobsEffect(jobs', r, revision, times[1..], now);
    }
  }

  /** A walk of the schedule stays between the instant it starts from and now. */
  lemma {:induction false} ChainBounds(cron: Cron, from: Option<Time>, now: Time)
    ensures forall t :: t in Chain(cron, from, now) ==> from.Some? && from.value <= t <= now
    decreases if from.Some? && from.value <= now then now - from.value + 1 else 0
  {
    if from.Some? && from.value <= now {
      ChainBounds(cron, cron(from.value), now);
      assert Chain(cron, from, now) == [from.value] + Chain(cron, cron(from.value), now);
    }
  }

  lemma DueBounds(cron: Cron, cursor: Time, now: Time, window: Time, maxOccurrences: nat)
    requires 0 < window
    ensures forall t :: t in Last(Due(cron, cursor, now, window), maxOccurrences) ==> cursor <= t <= now
  {
    ChainBounds(cron, WindowStart(cron, cursor, now, window), now);
    if cursor < now - window {
      SuccessorIsLeastOccurrence(cron, now - window - 1);
    }
    var due := Due(cron, cursor, now, window);
    assert forall t :: t in Last(due, maxOccurrences) ==> t in due;
  }

  lemma CursorAfter(enabled: bool, schedule: Schedule, now: Time)
    ensures var cursor := InitialCursor(enabled, schedule, now);
            && (cursor.Ok? && cursor.value.Some? ==> enabled && schedule.CronSchedule? && now < cursor.value.value
                                                     && Occurs(schedule.cron, cursor.value.value))
            && (cursor.Ok? && enabled ==> !schedule.Malformed?)
  {
    if schedule.CronSchedule? {
      SuccessorIsLeastOccurrence(schedule.cron, now);
    }
  }

  /** Rewriting the row of a rule keeps the invariant when what was planned stays behind the cursor. */
  lemma RuleRowKeepsJobs(s: State, r: RuleId, rule: Rule)
    requires JobsOk(s.db, s.cleaned, s.retired) && r in s.db.rules && CursorColumns(rule)
    requires s.db.rules[r].revision <= rule.revision
    requires rule.revision == s.db.rules[r].revision && rule.nextRunAt.Some? ==>
               forall o :: (o in s.db.jobs || o in s.cleaned) && o.rule == r && o.revision == rule.revision
                 ==> o.at < rule.nextRunAt.value
    ensures JobsOk(s.db.(rules := s.db.rules[r := rule]), s.cleaned, s.retired)
  {
  }

  lemma PlanInitialises(s: State, r: RuleId)
    requires JobsOk(s.db, s.cleaned, s.retired) && r in s.db.rules && RuleDue(s.db.rules[r], s.db.clock)
    requires s.db.rules[r].nextRunAt.None?
    ensures var rule := s.db.rules[r].(nextRunAt := s.db.rules[r].schedule.cron(s.db.clock));
            JobsOk(s.db.(rules := s.db.rules[r := rule]), s.cleaned, s.retired)
  {
    var rule := s.db.rules[r];
    SuccessorIsLeastOccurrence(rule.schedule.cron, s.db.clock);
    RuleRowKeepsJobs(s, r, rule.(nextRunAt := rule.schedule.cron(s.db.clock)));
  }

  /** What planning does to a rule that has a cursor: the cursor passes now, and the jobs added
      lie between the old cursor and now. */
  ghost predicate Materialised(db: Tables, db': Tables, r: RuleId)
    requires r in db.rules && db.rules[r].nextRunAt.Some?
  {
    var rule := db.rules[r];
    && r in db'.rules
    && db' == db.(jobs := db'.jobs, rules := db.rules[r := rule.(nextRunAt := db'.rules[r].nextRunAt)])
    && CursorColumns(db'.rules[r])
    && (db'.rules[r].nextRunAt.Some? ==> db.clock < db'.rules[r].nextRunAt.value)
    && (forall o :: o in db.jobs ==> o in db'.jobs && db'.jobs[o] == db.jobs[o])
    && (forall o :: o in db'.jobs && o !in db.jobs ==>
          && db'.jobs[o] == FreshJob(db.clock) && o.rule == r && o.revision == rule.revision
          && rule.nextRunAt.value <= o.at <= db.clock)
  }

  lemma PlanMaterialises(db: Tables, r: RuleId, window: Time, maxOccurrences: nat)
    requires r in db.rules && RuleDue(db.rules[r], db.clock) && 0 < window
    requires CursorColumns(db.rules[r]) && db.rules[r].nextRunAt.Some?
    ensures Materialised(db, PlanRule(db, r, window, maxOccurrences).value, r)
  {
    var rule := db.rules[r];
    var cron := rule.schedule.cron;
    var cursor := rule.nextRunAt.value;
    InsertJobsEffect(db.jobs, r, rule.revision, Last(Due(cron, cursor, db.clock, window), maxOccurrences), db.clock);
    DueBounds(cron, cursor, db.clock, window, maxOccurrences);
    NextCursorIsPastNow(cron, cursor, db.clock, window);
  }

  lemma MaterialisedKeepsJobs(s: State, r: RuleId, db': Tables)
    requires JobsOk(s.db, s.cleaned, s.retired) && r in s.db.rules && s.db.rules[r].nextRunAt.Some?
    requires Materialised(s.db, db', r)
    ensures JobsOk(db', s.cleaned, s.retired)
    ensures forall o :: o in db'.jobs && o !in s.db.jobs ==> o !in s.cleaned
  {
    assert forall o :: o in s.cleaned ==> BehindCursor(s.db, o);
    forall o | o in db'.jobs ensures JobColumns(db', o) {
      if o in s.db.jobs { assert JobColumns(s.db, o); }
    }
    forall o | o in s.cleaned ensures BehindCursor(db', o) {
      assert BehindCursor(s.db, o);
    }
  }

  /** Planning never fails on a reachable table, keeps every job it finds, and adds only
      occurrences that never had one: nothing is materialised twice, cleaned up or not. */
  lemma PlanKeepsJobs(s: State, r: RuleId, window: Time, maxOccurrences: nat)
    requires JobsOk(s.db, s.cleaned, s.retired) && r in s.db.rules && RuleDue(s.db.rules[r], s.db.clock) && 0 < window
    ensures PlanRule(s.db, r, window, maxOccurrences).Ok?
    ensures JobsOk(PlanRule(s.db, r, window, maxOccurrences).value, s.cleaned, s.retired)
    ensures var db := PlanRule(s.db, r, window, maxOccurrences).value;
            && (forall o :: o in s.db.jobs ==> o in db.jobs && db.jobs[o] == s.db.jobs[o])
            && (forall o :: o in db.jobs && o !in s.db.jobs ==> db.jobs[o] == FreshJob(s.db.clock) && o !in s.cleaned)
  {
    assert CursorColumns(s.db.rules[r]);
    if s.db.rules[r].nextRunAt.None? {
      PlanInitialises(s, r);
    } else {
      PlanMaterialises(s.db, r, window, maxOccurrences);
      MaterialisedKeepsJobs(s, r, PlanRule(s.db, r, window, maxOccurrences).value);
    }
  }

  lemma PatchKeepsJobs(s: State, r: RuleId, patch: Patch)
    requires JobsOk(s.db, s.cleaned, s.retired) && PatchRule(s.db, r, patch).Ok?
    ensures JobsOk(PatchRule(s.db, r, patch).value, s.cleaned, s.retired)
  {
    if patch.Touches() {
      var rule := s.db.rules[r];
      CursorAfter(Or(patch.enabled, rule.enabled), Or(patch.schedule, rule.schedule), s.db.clock);
    }
  }

  // Updates of job rows

  /** How an update changes the row of a job: a terminal row never changes, attempts never
      decrease, and a token is kept, cleared, or replaced by a fresh one. */
  predicate RowEvolves(job: Job, job': Job, nextToken: Token, nextToken': Token) {
    && (ClaimColumns(job) ==> ClaimColumns(job'))
    && (job.status.Terminal() && ClaimColumns(job) ==> job' == job)
    && job.attempts <= job'.attempts
    && (job'.token.Some? ==> job'.token == job.token || (job'.token.value == nextToken < nextToken'))
  }

  ghost predicate RowUpdate(db: Tables, db': Tables) {
    && db'.rules == db.rules && db'.clock == db.clock && db.nextToken <= db'.nextToken
    && db'.jobs.Keys == db.jobs.Keys
    && forall o :: o in db.jobs ==> RowEvolves(db.jobs[o], db'.jobs[o], db.nextToken, db'.nextToken)
  }

  lemma PutIsRowUpdate(db: Tables, o: Occurrence, job: Job, nextToken: Token)
    requires o in db.jobs && db.nextToken <= nextToken
    requires RowEvolves(db.jobs[o], job, db.nextToken, nextToken)
    ensures RowUpdate(db, Put(db, o, job).(nextToken := nextToken))
  {
  }

  lemma ClaimIsRowUpdate(db: Tables, o: Occurrence, lease: nat, now: Time)
    ensures var r := ClaimJob(db, o, lease, now); r.Ok? ==> RowUpdate(db, r.value)
  {
    var r := ClaimJob(db, o, lease, now);
    if r.Ok? { PutIsRowUpdate(db, o, r.value.jobs[o], r.value.nextToken); }
  }

  lemma StartIsRowUpdate(db: Tables, o: Occurrence, token: Token, now: Time)
    ensures var r := StartJob(db, o, token, now); r.Ok? ==> RowUpdate(db, r.value)
  {
    var r := StartJob(db, o, token, now);
    if r.Ok? { PutIsRowUpdate(db, o, r.value.jobs[o], db.nextToken); }
  }

  lemma HeartbeatIsRowUpdate(db: Tables, o: Occurrence, token: Token, lease: nat, now: Time)
    ensures var r := HeartbeatJob(db, o, token, lease, now); r.Ok? ==> RowUpdate(db, r.value)
  {
    var r := HeartbeatJob(db, o, token, lease, now);
    if r.Ok? { PutIsRowUpdate(db, o, r.value.jobs[o], db.nextToken); }
  }

  lemma ReleaseIsRowUpdate(db: Tables, o: Occurrence, token: Token, delay: nat, now: Time)
    ensures var r := ReleaseJob(db, o, token, delay, now); r.Ok? ==> RowUpdate(db, r.value)
  {
    var r := ReleaseJob(db, o, token, delay, now);
    if r.Ok? { PutIsRowUpdate(db, o, r.value.jobs[o], db.nextToken); }
  }

  lemma FailIsRowUpdate(db: Tables, o: Occurrence, token: Token, attempts: nat, retryAfter: nat, cause: string, now: Time)
    ensures var r := FailJob(db, o, token, attempts, retryAfter, cause, now); r.Ok? ==> RowUpdate(db, r.value)
  {
    var r := FailJob(db, o, token, attempts, retryAfter, cause, now);
    if r.Ok? { PutIsRowUpdate(db, o, r.value.jobs[o], db.nextToken); }
  }

  lemma CompleteIsRowUpdate(db: Tables, o: Occurrence, token: Token, now: Time)
    ensures var r := CompleteJob(db, o, token, now); r.Ok? ==> RowUpdate(db, r.value)
  {
    var r := CompleteJob(db, o, token, now);
    if r.Ok? { PutIsRowUpdate(db, o, r.value.jobs[o], db.nextToken); }
  }

  lemma CancelIsRowUpdate(db: Tables, o: Occurrence, token: Token, cause: string, now: Time)
    requires o in db.jobs ==> ClaimColumns(db.jobs[o])
    ensures RowUpdate(db, CancelJob(db, o, token, cause, now))
  {
    if o in db.jobs && db.jobs[o].token == Some(token) {
      PutIsRowUpdate(db, o, CancelJob(db, o, token, cause, now).jobs[o], db.nextToken);
    }
  }

  predicate TouchesOneRow(step: Step) {
    step.Claim? || step.Heartbeat? || step.Release? || step.Cancel? || step.Fail? || step.Start? || step.CommitStep?
  }

  lemma FailRow(s: State, w: WorkerId, retryAfter: nat, cause: string, now: Time)
    requires JobsOk(s.db, s.cleaned, s.retired)
    ensures var s' := DoFail(s, w, retryAfter, cause, now);
            RowUpdate(s.db, s'.db) && s'.cleaned == s.cleaned && s'.retired == s.retired
  {
    if s.At(w).HasJob() {
      var task := s.At(w).task;
      FailIsRowUpdate(s.db, task.o, task.token, task.charge, retryAfter, cause, now);
    }
  }

  lemma StartRow(s: State, w: WorkerId, replyLost: bool, now: Time)
    requires JobsOk(s.db, s.cleaned, s.retired)
    ensures var s' := DoStart(s, w, replyLost, now);
            RowUpdate(s.db, s'.db) && s'.cleaned == s.cleaned && s'.retired == s.retired
  {
    if s.At(w).HasJob() { StartIsRowUpdate(s.db, s.At(w).task.o, s.At(w).task.token, now); }
  }

  lemma CommitRow(s: State, w: WorkerId, now: Time)
    requires JobsOk(s.db, s.cleaned, s.retired)
    ensures var s' := DoCommit(s, w, now);
            RowUpdate(s.db, s'.db) && s'.cleaned == s.cleaned && s'.retired == s.retired
  {
    if s.At(w).HasJob() { CompleteIsRowUpdate(s.db, s.At(w).task.o, s.At(w).task.token, now); }
  }

  lemma RowSteps(s: State, step: Step)
    requires TouchesOneRow(step) && JobsOk(s.db, s.cleaned, s.retired)
    ensures var s' := Apply(s, step);
            RowUpdate(s.db, s'.db) && s'.cleaned == s.cleaned && s'.retired == s.retired
  {
    match step
    case Claim(_, o, lease, now) => ClaimIsRowUpdate(s.db, o, lease, now);
    case Heartbeat(o, token, lease, now) => HeartbeatIsRowUpdate(s.db, o, token, lease, now);
    case Release(o, token, delay, now) => ReleaseIsRowUpdate(s.db, o, token, delay, now);
    case Cancel(o, token, cause, now) => CancelIsRowUpdate(s.db, o, token, cause, now);
    case Fail(w, retryAfter, cause, now) => FailRow(s, w, retryAfter, cause, now);
    case Start(w, replyLost, now) => StartRow(s, w, replyLost, now);
    case CommitStep(w, now) => CommitRow(s, w, now);
  }

  lemma RowUpdateKeepsJobs(db: Tables, db': Tables, cleaned: map<Occurrence, JobStatus>, retired: set<RuleId>)
    requires JobsOk(db, cleaned, retired) && RowUpdate(db, db')
    ensures JobsOk(db', cleaned, retired)
  {
    forall o | o in db'.jobs ensures JobColumns(db', o) {
      assert JobColumns(db, o) && RowEvolves(db.jobs[o], db'.jobs[o], db.nextToken, db'.nextToken);
    }
    forall o | o in cleaned ensures BehindCursor(db', o) {
      assert BehindCursor(db, o);
    }
  }

  lemma DeleteKeepsJobs(s: State, r: RuleId)
    requires JobsOk(s.db, s.cleaned, s.retired)
    ensures var s' := DoDelete(s, r); JobsOk(s'.db, s'.cleaned, s'.retired)
  {
  }

  lemma CleanupKeepsJobs(s: State, retention: nat, now: Time)
    requires JobsOk(s.db, s.cleaned, s.retired)
    ensures var s' := DoCleanup(s, retention, now); JobsOk(s'.db, s'.cleaned, s'.retired)
  {
  }

  lemma CreateKeepsJobs(s: State, r: RuleId, enabled: bool, schedule: Schedule, definition: nat)
    requires JobsOk(s.db, s.cleaned, s.retired) && r !in s.db.rules && r !in s.retired
    requires CreateRule(s.db, r, enabled, schedule, definition).Ok?
    ensures JobsOk(CreateRule(s.db, r, enabled, schedule, definition).value, s.cleaned, s.retired)
  {
    CursorAfter(enabled, schedule, s.db.clock);
  }

  lemma TickKeepsJobs(s: State, elapsed: nat)
    requires JobsOk(s.db, s.cleaned, s.retired)
    ensures JobsOk(s.db.(clock := s.db.clock + elapsed), s.cleaned, s.retired)
  {
  }

  lemma RuleStepKeepsJobs(s: State, step: Step)
    requires (step.CreateRuleStep? || step.PatchRuleStep? || step.Plan?) && JobsOk(s.db, s.cleaned, s.retired)
    ensures var s' := Effect(s, step); JobsOk(s'.db, s'.cleaned, s'.retired)
  {
    match step
    case CreateRuleStep(r, enabled, schedule, definition) =>
      if r !in s.db.rules && r !in s.retired && CreateRule(s.db, r, enabled, schedule, definition).Ok? {
        CreateKeepsJobs(s, r, enabled, schedule, definition);
      }
    case PatchRuleStep(r, patch) =>
      if PatchRule(s.db, r, patch).Ok? { PatchKeepsJobs(s, r, patch); }
    case Plan(r, window, maxOccurrences) =>
      if r in s.db.rules && RuleDue(s.db.rules[r], s.db.clock) && 0 < window {
        PlanKeepsJobs(s, r, window, maxOccurrences);
      }
  }

  lemma StepKeepsJobs(s: State, step: Step)
    requires JobsOk(s.db, s.cleaned, s.retired)
    ensures var s' := Apply(s, step); JobsOk(s'.db, s'.cleaned, s'.retired)
  {
    if TouchesOneRow(step) {
      RowSteps(s, step);
      RowUpdateKeepsJobs(s.db, Apply(s, step).db, s.cleaned, s.retired);
    } else if step.CreateRuleStep? || step.PatchRuleStep? || step.Plan? {
      RuleStepKeepsJobs(s, step);
    } else {
      match step
      case Tick(elapsed) => TickKeepsJobs(s, elapsed);
      case DeleteRuleStep(r) => DeleteKeepsJobs(s, r);
      case Cleanup(retention, now) => CleanupKeepsJobs(s, retention, now);
      case _ =>
    }
  }
}
