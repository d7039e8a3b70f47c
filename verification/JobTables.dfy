/** The rule and evaluation_job tables and the statements that touch them.

    Each function is one SQL statement or one transaction: it returns the new tables, or the
    error with which the source reports that its WHERE clause matched no row. A job is keyed by
    its occurrence, the unique key of its table; `now` is the database time the statement reads. */
module JobTables {
  import opened Wrappers
  import opened Schedules

  type RuleId = nat
  type Token = nat

  const MAX_ATTEMPTS: nat := 5

  /** `Malformed` is a cron schedule whose expression or time zone does not parse. */
  datatype Schedule = OnDemand | CronSchedule(cron: Cron) | Malformed
  {
    predicate IsCron() { !OnDemand? }
  }

  /** `definition` stands for the template kind and spec the rule evaluates. */
  datatype Rule = Rule(revision: nat, enabled: bool, schedule: Schedule, nextRunAt: Option<Time>, definition: nat)

  datatype Occurrence = Occurrence(rule: RuleId, revision: nat, at: Time)

  datatype JobStatus = Pending | Running | Succeeded | Failed | Cancelled
  {
    predicate Terminal() { Succeeded? || Failed? || Cancelled? }
  }

  datatype Job = Job(status: JobStatus, attempts: nat, availableAt: Time, lease: Option<Time>,
                     token: Option<Token>, lastError: Option<string>, updatedAt: Time)

  datatype StoreError = NotFound | StaleClaim | ObsoleteJob | RevisionConflict | BadSchedule

  datatype Tables = Tables(clock: Time, nextToken: Token, rules: map<RuleId, Rule>, jobs: map<Occurrence, Job>)

  type Outcome = Result<Tables, StoreError>

  // Rules

  function Next(schedule: Schedule, after: Time): Result<Option<Time>, StoreError> {
    match schedule
    case OnDemand => Ok(None)
    case Malformed => Err(BadSchedule)
    case CronSchedule(cron) => Ok(cron(after))
  }

  /** The cursor a rule starts from when it is created or revised. */
  function InitialCursor(enabled: bool, schedule: Schedule, now: Time): Result<Option<Time>, StoreError> {
    if enabled && schedule.IsCron() then Next(schedule, now) else Ok(None)
  }

  function CreateRule(t: Tables, r: RuleId, enabled: bool, schedule: Schedule, definition: nat): Outcome {
    match InitialCursor(enabled, schedule, t.clock)
    case Err(e) => Err(e)
    case Ok(cursor) => Ok(t.(rules := t.rules[r := Rule(1, enabled, schedule, cursor, definition)]))
  }

  /** A partial update; `other` is set when some column besides these is updated. */
  datatype Patch = Patch(enabled: Option<bool>, schedule: Option<Schedule>, definition: Option<nat>,
                         other: bool, expectedRevision: Option<nat>)
  {
    predicate Touches() { enabled.Some? || schedule.Some? || definition.Some? || other }
  }

  /** Pending jobs of the rule up to the given revision are cancelled. */
  function CancelSuperseded(t: Tables, r: RuleId, revision: nat): map<Occurrence, Job> {
    map o | o in t.jobs ::
      if o.rule == r && o.revision <= revision && t.jobs[o].status.Pending?
      then t.jobs[o].(status := Cancelled, lastError := Some("rule revised"), updatedAt := t.clock)
      else t.jobs[o]
  }

  function PatchRule(t: Tables, r: RuleId, patch: Patch): Outcome {
    if r !in t.rules then Err(NotFound)
    else if !patch.Touches() then Ok(t)
    else
      var current := t.rules[r];
      if patch.expectedRevision.Some? && patch.expectedRevision.value != current.revision then Err(RevisionConflict)
      else
        var enabled := Or(patch.enabled, current.enabled);
        var schedule := Or(patch.schedule, current.schedule);
        match InitialCursor(enabled, schedule, t.clock)
        case Err(e) => Err(e)
        case Ok(cursor) =>
          var revised := Rule(current.revision + 1, enabled, schedule, cursor,
                              Or(patch.definition, current.definition));
          Ok(t.(rules := t.rules[r := revised], jobs := CancelSuperseded(t, r, current.revision)))
  }

  /** Deletion cascades to the jobs of the rule. */
  function DeleteRule(t: Tables, r: RuleId): Outcome {
    if r !in t.rules then Err(NotFound)
    else Ok(t.(rules := t.rules - {r}, jobs := map o | o in t.jobs && o.rule != r :: t.jobs[o]))
  }

  function CheckRevision(t: Tables, r: RuleId, expected: nat): Option<StoreError> {
    if r !in t.rules then Some(NotFound)
    else if !t.rules[r].enabled || t.rules[r].revision != expected then Some(ObsoleteJob)
    else None
  }

  // Planning

  predicate RuleDue(rule: Rule, now: Time) {
    rule.enabled && rule.schedule.IsCron() && (rule.nextRunAt.None? || rule.nextRunAt.value <= now)
  }

  function FreshJob(now: Time): Job {
    Job(Pending, 0, now, None, None, None, now)
  }

  /** Inserts one job an instant, leaving an occurrence alone that already has one. */
  function InsertJobs(jobs: map<Occurrence, Job>, r: RuleId, revision: nat, times: seq<Time>, now: Time)
    : map<Occurrence, Job>
    decreases |times|
  {
    if times == [] then jobs
    else
      var o := Occurrence(r, revision, times[0]);
      InsertJobs(if o in jobs then jobs else jobs[o := FreshJob(now)], r, revision, times[1..], now)
  }

  /** One due rule of the planner's batch: a rule without cursor gets one, any other has its due
      occurrences materialised and its cursor advanced. */
  function PlanRule(t: Tables, r: RuleId, window: Time, maxOccurrences: nat): Outcome
    requires r in t.rules && RuleDue(t.rules[r], t.clock)
  {
    var rule := t.rules[r];
    if rule.schedule.Malformed? then Err(BadSchedule)
    else
      var cron := rule.schedule.cron;
      if rule.nextRunAt.None? then
        Ok(t.(rules := t.rules[r := rule.(nextRunAt := cron(t.clock))]))
      else
        var cursor := rule.nextRunAt.value;
        Ok(t.(
           rules := t.rules[r := rule.(nextRunAt := NextCursor(cron, cursor, t.clock, window))],
           jobs := InsertJobs(t.jobs, r, rule.revision,
                              Last(Due(cron, cursor, t.clock, window), maxOccurrences), t.clock)))
  }

  // Claims

  /** A pending job whose delay is over, or a running one whose lease ran out. */
  predicate Claimable(job: Job, now: Time) {
    || (job.status.Pending? && job.availableAt <= now)
    || (job.status.Running? && job.lease.Some? && job.lease.value < now)
  }

  predicate HoldsToken(t: Tables, o: Occurrence, token: Token) {
    o in t.jobs && t.jobs[o].status.Running? && t.jobs[o].token == Some(token)
  }

  predicate HoldsLease(t: Tables, o: Occurrence, token: Token, now: Time) {
    HoldsToken(t, o, token) && t.jobs[o].lease.Some? && now < t.jobs[o].lease.value
  }

  function Put(t: Tables, o: Occurrence, job: Job): Tables {
    t.(jobs := t.jobs[o := job])
  }

  function ClaimJob(t: Tables, o: Occurrence, lease: nat, now: Time): Outcome {
    if o !in t.jobs || !Claimable(t.jobs[o], now) then Err(NotFound)
    else Ok(Put(t, o, t.jobs[o].(status := Running, token := Some(t.nextToken), lease := Some(now + lease),
                                 updatedAt := now)).(nextToken := t.nextToken + 1))
  }

  function StartJob(t: Tables, o: Occurrence, token: Token, now: Time): Outcome {
    if !HoldsLease(t, o, token, now) then Err(StaleClaim)
    else Ok(Put(t, o, t.jobs[o].(attempts := t.jobs[o].attempts + 1, updatedAt := now)))
  }

  function HeartbeatJob(t: Tables, o: Occurrence, token: Token, lease: nat, now: Time): Outcome {
    if !HoldsLease(t, o, token, now) then Err(StaleClaim)
    else Ok(Put(t, o, t.jobs[o].(lease := Some(now + lease), updatedAt := now)))
  }

  function Settled(job: Job, status: JobStatus, now: Time): Job {
    job.(status := status, token := None, lease := None, updatedAt := now)
  }

  function ReleaseJob(t: Tables, o: Occurrence, token: Token, delay: nat, now: Time): Outcome {
    if !HoldsToken(t, o, token) then Err(StaleClaim)
    else Ok(Put(t, o, Settled(t.jobs[o], Pending, now).(availableAt := now + delay)))
  }

  function FailJob(t: Tables, o: Occurrence, token: Token, attempts: nat, retryAfter: nat, cause: string, now: Time)
    : Outcome
  {
    if !HoldsToken(t, o, token) then Err(StaleClaim)
    else
      var charged := t.jobs[o].(attempts := Max(t.jobs[o].attempts, attempts), lastError := Some(cause));
      Ok(Put(t, o, if MAX_ATTEMPTS <= attempts then Settled(charged, Failed, now)
                   else Settled(charged, Pending, now).(availableAt := now + retryAfter)))
  }

  /** The fence of the final transaction. */
  function CheckClaim(t: Tables, o: Occurrence, token: Token, now: Time): Option<StoreError> {
    if o !in t.jobs then Some(NotFound)
    else if !HoldsLease(t, o, token, now) then Some(StaleClaim)
    else CheckRevision(t, o.rule, o.revision)
  }

  function CompleteJob(t: Tables, o: Occurrence, token: Token, now: Time): Outcome {
    if !HoldsToken(t, o, token) then Err(StaleClaim)
    else Ok(Put(t, o, Settled(t.jobs[o], Succeeded, now).(lastError := None)))
  }

  /** Unlike the other settlements a cancellation that matches no row is not an error. */
  function CancelJob(t: Tables, o: Occurrence, token: Token, cause: string, now: Time): Tables {
    if o !in t.jobs || t.jobs[o].token != Some(token) then t
    else Put(t, o, Settled(t.jobs[o], Cancelled, now).(lastError := Some(cause)))
  }

  predicate CleanupDue(job: Job, retention: nat, now: Time) {
    job.status.Terminal() && job.updatedAt < now - retention
  }

  function DeleteTerminal(t: Tables, retention: nat, now: Time): Tables {
    t.(jobs := map o | o in t.jobs && !CleanupDue(t.jobs[o], retention, now) :: t.jobs[o])
  }
}
