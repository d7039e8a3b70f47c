/** Locks, fences, exactly-once commits and bounded failures, as one inductive invariant. */
module ProtocolSafety {
  import opened Wrappers
  import opened Schedules
  import opened JobTables
  import opened Protocol
  import opened ProtocolInvariants

  type Workers = map<WorkerId, Worker>

  /** Steps of clients, planners and timers: they touch no worker, lock or commit. */
  predicate OnlyTables(step: Step) {
    step.Tick? || step.CreateRuleStep? || step.PatchRuleStep? || step.DeleteRuleStep? || step.Plan? ||
    step.Heartbeat? || step.Release? || step.Cancel? || step.Cleanup?
  }

  /** Nothing but the tables and their history changes. */
  ghost predicate TableFrame(s: State, s': State) {
    s' == s.(db := s'.db, cleaned := s'.cleaned, retired := s'.retired)
  }

  lemma WithTablesFrame(s: State, outcome: Outcome)
    ensures TableFrame(s, WithTables(s, outcome))
  {
  }

  lemma CleanupFrame(s: State, retention: nat, now: Time)
    ensures TableFrame(s, DoCleanup(s, retention, now))
  {
  }

  lemma DeleteFrame(s: State, r: RuleId)
    ensures TableFrame(s, DoDelete(s, r))
  {
  }

  lemma TableStepsFrame(s: State, step: Step)
    requires OnlyTables(step)
    ensures var s' := Apply(s, step);
            s' == s.(db := s'.db, cleaned := s'.cleaned, retired := s'.retired, step := s.step + 1)
  {
    assert TableFrame(s, Effect(s, step)) by {
      match step
      case Tick(_) =>
      case CreateRuleStep(r, enabled, schedule, definition) =>
        WithTablesFrame(s, CreateRule(s.db, r, enabled, schedule, definition));
      case PatchRuleStep(r, patch) => WithTablesFrame(s, PatchRule(s.db, r, patch));
      case DeleteRuleStep(r) => DeleteFrame(s, r);
      case Plan(r, window, maxOccurrences) =>
        if r in s.db.rules && RuleDue(s.db.rules[r], s.db.clock) {
          WithTablesFrame(s, PlanRule(s.db, r, window, maxOccurrences));
        }
      case Heartbeat(o, token, lease, now) => WithTablesFrame(s, HeartbeatJob(s.db, o, token, lease, now));
      case Release(o, token, delay, now) => WithTablesFrame(s, ReleaseJob(s.db, o, token, delay, now));
      case Cancel(_, _, _, _) =>
      case Cleanup(retention, now) => CleanupFrame(s, retention, now);
    }
  }

  /** Steps of one worker that leave locks and connections alone. */
  predicate OneWorker(step: Step) {
    step.Claim? || step.Fail? || step.Start? || step.Load? || step.CommitStep? || step.Crash?
  }

  /** Such a step may give the worker's phase up; it never changes the connection or the task's rule. */
  ghost predicate WorkerFrame(s: State, s': State, w: WorkerId) {
    && s' == s.(db := s'.db, workers := s'.workers, commits := s'.commits, failures := s'.failures)
    && (s'.workers == s.workers || s'.workers == s.workers[w := s'.At(w)])
    && (s'.At(w).HasConn() ==> s.At(w).HasConn() && s'.At(w).conn == s.At(w).conn
                               && s'.At(w).task.Rule() == s.At(w).task.Rule())
  }

  lemma ClaimFrame(s: State, w: WorkerId, o: Occurrence, lease: nat, now: Time)
    ensures WorkerFrame(s, DoClaim(s, w, o, lease, now), w)
  {}

  lemma FailFrame(s: State, w: WorkerId, retryAfter: nat, cause: string, now: Time)
    ensures WorkerFrame(s, DoFail(s, w, retryAfter, cause, now), w)
  {}

  lemma StartFrame(s: State, w: WorkerId, replyLost: bool, now: Time)
    ensures WorkerFrame(s, DoStart(s, w, replyLost, now), w)
  {}

  lemma LoadFrame(s: State, w: WorkerId)
    ensures WorkerFrame(s, DoLoad(s, w), w)
  {}

  lemma CommitFrame(s: State, w: WorkerId, now: Time)
    ensures WorkerFrame(s, DoCommit(s, w, now), w)
  {}

  lemma WorkerStepsFrame(s: State, step: Step)
    requires OneWorker(step)
    ensures WorkerFrame(s, Effect(s, step), step.w)
  {
    match step
    case Claim(w, o, lease, now) => ClaimFrame(s, w, o, lease, now);
    case Fail(w, retryAfter, cause, now) => FailFrame(s, w, retryAfter, cause, now);
    case Start(w, replyLost, now) => StartFrame(s, w, replyLost, now);
    case Load(w) => LoadFrame(s, w);
    case CommitStep(w, now) => CommitFrame(s, w, now);
    case Crash(_) =>
  }

  /** A commit that goes through: the fence held on a live connection, and for a scheduled task the
      job, running until now, succeeds. */
  ghost predicate Commits(s: State, s': State, w: WorkerId) {
    var worker := s.At(w);
    && worker.Reading? && worker.conn in s.live
    && s' == s.(db := s'.db, commits := s.commits + [CommitOf(s, worker)],
                workers := s.workers[w := Committed(worker.task, worker.conn)])
    && worker.task.Rule() in s.db.rules
    && s.db.rules[worker.task.Rule()].enabled
    && (if worker.task.Manual? then s'.db == s.db && worker.revision == s.db.rules[worker.task.r].revision
        else
          var o := worker.task.o;
          && o.revision == s.db.rules[o.rule].revision
          && HoldsToken(s.db, o, worker.task.token)
          && o in s'.db.jobs && s'.db == Put(s.db, o, s'.db.jobs[o])
          && s'.db.jobs[o].status.Succeeded? && s'.db.jobs[o].token.None?)
  }

  lemma CommitAllOrNothing(s: State, w: WorkerId, now: Time)
    ensures var s' := DoCommit(s, w, now); s' == s || Commits(s, s', w)
  {
  }

  // The advisory lock

  /** A worker whose connection is up holds the lock of its rule, and no two share a connection. */
  ghost predicate LocksOk(locks: map<int, ConnId>, live: set<ConnId>, nextConn: ConnId, workers: Workers, lockKey: RuleId -> int) {
    && (forall k :: k in locks ==> locks[k] in live)
    && (forall c :: c in live ==> c < nextConn)
    && (forall w :: w in workers && workers[w].HasConn() ==> workers[w].conn < nextConn)
    && (forall w :: w in workers && workers[w].HasConn() && workers[w].conn in live ==>
          var key := lockKey(workers[w].task.Rule());
          key in locks && locks[key] == workers[w].conn)
    && (forall v, w :: v in workers && w in workers && v != w && workers[v].HasConn() && workers[w].HasConn()
          ==> workers[v].conn != workers[w].conn)
  }

  ghost predicate Locks(s: State) {
    LocksOk(s.locks, s.live, s.nextConn, s.workers, s.lockKey)
  }

  lemma LockTaken(s: State, w: WorkerId, task: Task)
    requires Locks(s) && !s.At(w).HasConn()
    ensures Locks(DoLock(s, w, task))
  {
  }

  lemma WorkerMoves(s: State, w: WorkerId, worker: Worker)
    requires Locks(s)
    requires worker.HasConn() ==>
               s.At(w).HasConn() && worker.conn == s.At(w).conn && worker.task.Rule() == s.At(w).task.Rule()
    ensures LocksOk(s.locks, s.live, s.nextConn, s.workers[w := worker], s.lockKey)
  {
  }

  lemma ConnectionGone(s: State, conn: ConnId)
    requires Locks(s)
    ensures Locks(WithoutConn(s, conn))
  {
  }

  lemma StepKeepsLocks(s: State, step: Step)
    requires Locks(s)
    ensures Locks(Apply(s, step))
  {
    if OnlyTables(step) {
      TableStepsFrame(s, step);
    } else if OneWorker(step) {
      WorkerStepsFrame(s, step);
      WorkerMoves(s, step.w, Effect(s, step).At(step.w));
    } else {
      match step
      case TryLock(w) => if s.At(w).Claimed? { LockTaken(s, w, s.At(w).task); }
      case TryLockManual(w, r) => if s.At(w).Idle? { LockTaken(s, w, Manual(r)); }
      case ConnectionDies(conn) => ConnectionGone(s, conn);
      case Unlock(w) =>
        if s.At(w).HasConn() {
          var after := if s.At(w).task.Scheduled? then Settling(s.At(w).task) else Idle;
          WorkerMoves(s, w, after);
          ConnectionGone(SetWorker(s, w, after), s.At(w).conn);
        }
    }
  }

  // Windows between the first source read and the commit

  ghost predicate SerialOk(commits: seq<Commit>, workers: Workers, live: set<ConnId>, step: nat, lockKey: RuleId -> int) {
    && (forall i :: 0 <= i < |commits| ==> commits[i].readFrom < commits[i].committedAt < step)
    && (forall i, j :: 0 <= i < j < |commits| && lockKey(commits[i].rule) == lockKey(commits[j].rule)
          ==> commits[i].committedAt < commits[j].readFrom)
    && (forall w :: w in workers && workers[w].Reading? ==> workers[w].readFrom < step)
    && (forall w, i :: w in workers && workers[w].Reading? && workers[w].conn in live && 0 <= i < |commits| &&
                       lockKey(commits[i].rule) == lockKey(workers[w].task.Rule())
          ==> commits[i].committedAt < workers[w].readFrom)
  }

  ghost predicate Serial(s: State) {
    SerialOk(s.commits, s.workers, s.live, s.step, s.lockKey)
  }

  /** Nobody starts reading, nothing commits, and no dead connection comes back. */
  ghost predicate NoNewReader(s: State, s': State) {
    && s'.commits == s.commits && s'.lockKey == s.lockKey && s'.step == s.step
    && forall w :: w in s'.workers && s'.workers[w].Reading? ==>
         w in s.workers && s'.workers[w] == s.workers[w] &&
         (s'.workers[w].conn in s'.live ==> s'.workers[w].conn in s.live)
  }

  lemma SerialUndisturbed(s: State, s': State)
    requires Serial(s) && NoNewReader(s, s')
    ensures Serial(s'.(step := s.step + 1))
  {
  }

  lemma ClaimReaders(s: State, w: WorkerId, o: Occurrence, lease: nat, now: Time)
    ensures NoNewReader(s, DoClaim(s, w, o, lease, now))
  {}

  lemma FailReaders(s: State, w: WorkerId, retryAfter: nat, cause: string, now: Time)
    ensures NoNewReader(s, DoFail(s, w, retryAfter, cause, now))
  {}

  lemma StartReaders(s: State, w: WorkerId, replyLost: bool, now: Time)
    ensures NoNewReader(s, DoStart(s, w, replyLost, now))
  {}

  lemma LockReaders(s: State, w: WorkerId, task: Task)
    requires Locks(s)
    ensures NoNewReader(s, DoLock(s, w, task))
  {}

  lemma UnlockReaders(s: State, w: WorkerId)
    ensures NoNewReader(s, DoUnlock(s, w))
  {}

  lemma LoadKeepsSerial(s: State, w: WorkerId)
    requires Serial(s)
    ensures Serial(DoLoad(s, w).(step := s.step + 1))
  {
  }

  /** The committing worker holds the lock, so no other reader of the rule has its connection up. */
  lemma CommitKeepsSerial(s: State, s': State, w: WorkerId)
    requires Locks(s) && Serial(s) && Commits(s, s', w)
    ensures Serial(s'.(step := s.step + 1))
  {
    forall v, i | v in s'.workers && s'.workers[v].Reading? && s'.workers[v].conn in s'.live && 0 <= i < |s'.commits| &&
                  s.lockKey(s'.commits[i].rule) == s.lockKey(s'.workers[v].task.Rule())
      ensures s'.commits[i].committedAt < s'.workers[v].readFrom
    {
      assert v != w && s.workers[v] == s'.workers[v];
    }
  }

  lemma DoCommitKeepsSerial(s: State, w: WorkerId, now: Time)
    requires Locks(s) && Serial(s)
    ensures Serial(DoCommit(s, w, now).(step := s.step + 1))
  {
    CommitAllOrNothing(s, w, now);
    if DoCommit(s, w, now) == s {
      SerialUndisturbed(s, s);
    } else {
      CommitKeepsSerial(s, DoCommit(s, w, now), w);
    }
  }

  lemma OtherReaders(s: State, step: Step)
    requires Locks(s) && !OnlyTables(step) && !step.Load? && !step.CommitStep?
    ensures NoNewReader(s, Effect(s, step))
  {
    match step
    case Claim(w, o, lease, now) => ClaimReaders(s, w, o, lease, now);
    case Fail(w, retryAfter, cause, now) => FailReaders(s, w, retryAfter, cause, now);
    case Start(w, replyLost, now) => StartReaders(s, w, replyLost, now);
    case TryLock(w) => if s.At(w).Claimed? { LockReaders(s, w, s.At(w).task); }
    case TryLockManual(w, r) => LockReaders(s, w, Manual(r));
    case Unlock(w) => UnlockReaders(s, w);
    case Crash(_) =>
    case ConnectionDies(_) =>
  }

  lemma QuietStep(s: State, step: Step)
    requires Locks(s) && !step.Load? && !step.CommitStep?
    ensures NoNewReader(s, Effect(s, step))
  {
    if OnlyTables(step) { TableStepsFrame(s, step); } else { OtherReaders(s, step); }
  }

  lemma QuietStepKeepsSerial(s: State, step: Step)
    requires Locks(s) && Serial(s) && !step.Load? && !step.CommitStep?
    ensures Serial(Effect(s, step).(step := s.step + 1))
  {
    QuietStep(s, step);
    SerialUndisturbed(s, Effect(s, step));
  }

  lemma StepKeepsSerial(s: State, step: Step)
    requires Locks(s) && Serial(s)
    ensures Serial(Apply(s, step))
  {
    if step.Load? {
      LoadKeepsSerial(s, step.w);
    } else if step.CommitStep? {
      DoCommitKeepsSerial(s, step.w, step.now);
    } else {
      QuietStepKeepsSerial(s, step);
    }
  }
}
