/** The evaluation protocol: any number of planners, executors, manual evaluators and API clients
    over one database.

    `Apply` runs one atomic step. A step whose guard fails leaves the state as it is, just as a
    statement that matches no row does, so every sequence of steps is a run. */
module Protocol {
  import opened Wrappers
  import opened Schedules
  import opened JobTables

  type WorkerId = nat
  type ConnId = nat

  /** What a worker evaluates: a claimed occurrence, with the attempt number to charge should it
      fail, or a rule on demand. */
  datatype Task =
    | Scheduled(o: Occurrence, token: Token, charge: nat)
    | Manual(r: RuleId)
  {
    function Rule(): RuleId { if Scheduled? then o.rule else r }
  }

  datatype Worker =
    | Idle
    | Claimed(task: Task)
    | Locked(task: Task, conn: ConnId, started: bool)
    | Reading(task: Task, conn: ConnId, revision: nat, definition: nat, readFrom: nat)
    | Committed(task: Task, conn: ConnId)
    | Settling(task: Task)
  {
    predicate HasConn() { Locked? || Reading? || Committed? }
    predicate HasJob() { !Idle? && task.Scheduled? }
  }

  /** One final transaction that committed: which rule definition it evaluated, when it began to
      read its sources and when it committed, both in steps of the run. */
  datatype Commit = Commit(rule: RuleId, revision: nat, definition: nat, occurrence: Option<Occurrence>,
                           readFrom: nat, committedAt: nat)

  /** `locks` maps an advisory key to the connection holding it; `live` is the set of dedicated
      connections still up. The rest below `commits` is history no step reads: the final status of
      the jobs cleaned up, the deleted rules and the failures charged to each job. */
  datatype State = State(
    db: Tables,
    locks: map<int, ConnId>, live: set<ConnId>, nextConn: ConnId,
    workers: map<WorkerId, Worker>,
    step: nat,
    commits: seq<Commit>,
    cleaned: map<Occurrence, JobStatus>, retired: set<RuleId>, failures: map<Occurrence, nat>,
    lockKey: RuleId -> int)
  {
    function At(w: WorkerId): Worker { if w in workers then workers[w] else Idle }

    function Failures(o: Occurrence): nat { FailuresOf(failures, o) }
  }

  function FailuresOf(failures: map<Occurrence, nat>, o: Occurrence): nat {
    if o in failures then failures[o] else 0
  }

  /** No rule, job or evaluation yet; `lockKey` is any hash of rules, collisions included. */
  function Initial(clock: Time, lockKey: RuleId -> int): State {
    State(Tables(clock, 0, map[], map[]), map[], {}, 0, map[], 0, [], map[], {}, map[], lockKey)
  }

  /** `now` is the time the transaction of the step reads: nothing relates it to the clock, nor to
      what other transactions read. Only planning and cursor resets read the clock itself. */
  datatype Step =
    | Tick(elapsed: nat)
    | CreateRuleStep(r: RuleId, enabled: bool, schedule: Schedule, definition: nat)
    | PatchRuleStep(r: RuleId, patch: Patch)
    | DeleteRuleStep(r: RuleId)
    | Plan(r: RuleId, window: Time, maxOccurrences: nat)
    | Claim(w: WorkerId, o: Occurrence, lease: nat, now: Time)
    | Heartbeat(o: Occurrence, token: Token, lease: nat, now: Time)
    | Release(o: Occurrence, token: Token, delay: nat, now: Time)
    | Cancel(o: Occurrence, token: Token, cause: string, now: Time)
    | Fail(w: WorkerId, retryAfter: nat, cause: string, now: Time)
    | Cleanup(retention: nat, now: Time)
    | TryLock(w: WorkerId)
    | TryLockManual(w: WorkerId, r: RuleId)
    | Start(w: WorkerId, replyLost: bool, now: Time)
    | Load(w: WorkerId)
    | CommitStep(w: WorkerId, now: Time)
    | Unlock(w: WorkerId)
    | Crash(w: WorkerId)
    | ConnectionDies(conn: ConnId)

  function SetWorker(s: State, w: WorkerId, worker: Worker): State {
    s.(workers := s.workers[w := worker])
  }

  function WithTables(s: State, outcome: Outcome): State {
    if outcome.Ok? then s.(db := outcome.value) else s
  }

  function DoDelete(s: State, r: RuleId): State {
    match DeleteRule(s.db, r)
    case Err(_) => s
    case Ok(db) => s.(db := db, retired := s.retired + {r},
                      cleaned := map o | o in s.cleaned && o.rule != r :: s.cleaned[o])
  }

  function DoCleanup(s: State, retention: nat, now: Time): State {
    s.(db := DeleteTerminal(s.db, retention, now),
       cleaned := s.cleaned + map o | o in s.db.jobs && CleanupDue(s.db.jobs[o], retention, now)
                                :: s.db.jobs[o].status)
  }

  /** A worker that has nothing to do claims one job and copies it. */
  function DoClaim(s: State, w: WorkerId, o: Occurrence, lease: nat, now: Time): State {
    match ClaimJob(s.db, o, lease, now)
    case Err(_) => s
    case Ok(db) =>
      if !s.At(w).Idle? then s
      else SetWorker(s, w, Claimed(Scheduled(o, s.db.nextToken, db.jobs[o].attempts + 1))).(db := db)
  }

  /** Opens a dedicated connection and tries the advisory lock of the rule, without waiting. */
  function DoLock(s: State, w: WorkerId, task: Task): State {
    var key := s.lockKey(task.Rule());
    if key in s.locks then s
    else SetWorker(s, w, Locked(task, s.nextConn, false)).(
           locks := s.locks[key := s.nextConn], live := s.live + {s.nextConn}, nextConn := s.nextConn + 1)
  }

  /** Persists the attempt. When the reply is lost the worker charges the attempt it knows of. */
  function DoStart(s: State, w: WorkerId, replyLost: bool, now: Time): State {
    var worker := s.At(w);
    if !worker.Locked? || worker.started || worker.conn !in s.live || !worker.task.Scheduled? then s
    else
      var task := worker.task;
      match StartJob(s.db, task.o, task.token, now)
      case Err(_) => s
      case Ok(db) =>
        if replyLost then s.(db := db)
        else SetWorker(s, w, worker.(started := true, task := task.(charge := db.jobs[task.o].attempts))).(db := db)
  }

  /** Loads the rule under the lock; the source reads follow. A scheduled evaluation insists on the
      revision of its job, a manual one takes the current revision. */
  function DoLoad(s: State, w: WorkerId): State {
    var worker := s.At(w);
    if !worker.Locked? || worker.conn !in s.live || worker.started != worker.task.Scheduled? then s
    else
      var r := worker.task.Rule();
      if r !in s.db.rules || !s.db.rules[r].enabled then s
      else
        var rule := s.db.rules[r];
        if worker.task.Scheduled? && worker.task.o.revision != rule.revision then s
        else SetWorker(s, w, Reading(worker.task, worker.conn, rule.revision, rule.definition, s.step))
  }

  /** The unique index on the occurrence of an evaluation. Deleting a rule deletes its evaluations. */
  predicate AlreadyEvaluated(s: State, o: Occurrence) {
    exists i :: 0 <= i < |s.commits| && s.commits[i].occurrence == Some(o) && o.rule in s.db.rules
  }

  predicate FenceHolds(s: State, worker: Worker, now: Time)
    requires worker.Reading?
  {
    if worker.task.Scheduled? then CheckClaim(s.db, worker.task.o, worker.task.token, now).None?
    else CheckRevision(s.db, worker.task.r, worker.revision).None?
  }

  function CommitOf(s: State, worker: Worker): Commit
    requires worker.Reading?
  {
    Commit(worker.task.Rule(), worker.revision, worker.definition,
           if worker.task.Scheduled? then Some(worker.task.o) else None, worker.readFrom, s.step)
  }

  /** The final transaction, on the connection that holds the lock: fence, evaluation row, job. */
  function DoCommit(s: State, w: WorkerId, now: Time): State {
    var worker := s.At(w);
    if !worker.Reading? || worker.conn !in s.live || !FenceHolds(s, worker, now) then s
    else if worker.task.Manual? then
      SetWorker(s, w, Committed(worker.task, worker.conn)).(commits := s.commits + [CommitOf(s, worker)])
    else if AlreadyEvaluated(s, worker.task.o) then s
    else
      match CompleteJob(s.db, worker.task.o, worker.task.token, now)
      case Err(_) => s
      case Ok(db) =>
        SetWorker(s, w, Committed(worker.task, worker.conn)).(
          db := db, commits := s.commits + [CommitOf(s, worker)])
  }

  function WithoutConn(s: State, conn: ConnId): State {
    s.(live := s.live - {conn}, locks := map k | k in s.locks && s.locks[k] != conn :: s.locks[k])
  }

  /** Gives the lock and the connection back. The job is still to be settled, even after a commit:
      a failed heartbeat overrides the success. */
  function DoUnlock(s: State, w: WorkerId): State {
    var worker := s.At(w);
    if !worker.HasConn() then s
    else WithoutConn(SetWorker(s, w, if worker.task.Scheduled? then Settling(worker.task) else Idle), worker.conn)
  }

  /** An infrastructure failure is charged to the job: one more attempt than at the claim, or the
      attempt that was started. */
  function DoFail(s: State, w: WorkerId, retryAfter: nat, cause: string, now: Time): State {
    var worker := s.At(w);
    if !worker.HasJob() || !(worker.Settling? || worker.Claimed?) then s
    else
      var task := worker.task;
      match FailJob(s.db, task.o, task.token, task.charge, retryAfter, cause, now)
      case Err(_) => SetWorker(s, w, Idle)
      case Ok(db) => SetWorker(s, w, Idle).(db := db, failures := s.failures[task.o := s.Failures(task.o) + 1])
  }

  function Effect(s: State, step: Step): State {
    match step
    case Tick(elapsed) => s.(db := s.db.(clock := s.db.clock + elapsed))
    case CreateRuleStep(r, enabled, schedule, definition) =>
      if r in s.db.rules || r in s.retired then s
      else WithTables(s, CreateRule(s.db, r, enabled, schedule, definition))
    case PatchRuleStep(r, patch) => WithTables(s, PatchRule(s.db, r, patch))
    case DeleteRuleStep(r) => DoDelete(s, r)
    case Plan(r, window, maxOccurrences) =>
      if r !in s.db.rules || !RuleDue(s.db.rules[r], s.db.clock) || window <= 0 || maxOccurrences == 0 then s
      else WithTables(s, PlanRule(s.db, r, window, maxOccurrences))
    case Claim(w, o, lease, now) => DoClaim(s, w, o, lease, now)
    case Heartbeat(o, token, lease, now) => WithTables(s, HeartbeatJob(s.db, o, token, lease, now))
    case Release(o, token, delay, now) => WithTables(s, ReleaseJob(s.db, o, token, delay, now))
    case Cancel(o, token, cause, now) => s.(db := CancelJob(s.db, o, token, cause, now))
    case Fail(w, retryAfter, cause, now) => DoFail(s, w, retryAfter, cause, now)
    case Cleanup(retention, now) => DoCleanup(s, retention, now)
    case TryLock(w) => if s.At(w).Claimed? then DoLock(s, w, s.At(w).task) else s
    case TryLockManual(w, r) => if s.At(w).Idle? then DoLock(s, w, Manual(r)) else s
    case Start(w, replyLost, now) => DoStart(s, w, replyLost, now)
    case Load(w) => DoLoad(s, w)
    case CommitStep(w, now) => DoCommit(s, w, now)
    case Unlock(w) => DoUnlock(s, w)
    case Crash(w) => SetWorker(s, w, Idle)
    case ConnectionDies(conn) => WithoutConn(s, conn)
  }

  function Apply(s: State, step: Step): State {
    Effect(s, step).(step := s.step + 1)
  }

  function Run(s: State, steps: seq<Step>): State
    decreases |steps|
  {
    if steps == [] then s else Run(Apply(s, steps[0]), steps[1..])
  }
}
