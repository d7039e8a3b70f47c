/** How the worker settles a claimed job once its evaluation has returned. */
module Settlement {
  import opened Wrappers
  import opened Schedules
  import JobTables
  import P = Protocol
  import opened JobStore
  import Worker

  const SECOND: nat := 1_000_000_000
  const BUSY_DELAY: nat := 5 * SECOND

  /** What went wrong, if anything did: the rule was locked, the job obsolete, the claim lost, the
      row gone, or something else. */
  datatype Trouble = RuleBusy | Obsolete | Stale | Missing | Broken(cause: string)

  function DelayBefore(attempts: nat): nat {
    SECOND * (
      if attempts <= 1 then Worker.BASE_DELAY
      else if Worker.MAX_DELAY < Worker.BASE_DELAY * Worker.Doubled(attempts - 1) then Worker.MAX_DELAY
      else Worker.BASE_DELAY * Worker.Doubled(attempts - 1))
  }

  function OrSame(outcome: JobTables.Outcome, t: Tables): Tables {
    if outcome.Ok? then outcome.value else t
  }

  function Settled(t: Tables, o: Occurrence, token: Token, charge: nat, verdict: Option<Trouble>, shutdown: bool): Tables {
    if verdict.None? then t
    else if shutdown then OrSame(JobTables.ReleaseJob(t, o, token, 0, t.clock), t)
    else
      match verdict.value
      case RuleBusy => OrSame(JobTables.ReleaseJob(t, o, token, BUSY_DELAY, t.clock), t)
      case Obsolete => JobTables.CancelJob(t, o, token, "obsolete", t.clock)
      case Stale => t
      case Missing => t
      case Broken(cause) => OrSame(JobTables.FailJob(t, o, token, charge, DelayBefore(charge), cause, t.clock), t)
  }

  /** The failure of a heartbeat overrides whatever the evaluation returned, a success included.
      `copied` is the attempt count the claim carried; `attempts` is zero unless an attempt started. */
  method Process(store: Storage, o: Occurrence, token: Token, copied: nat, attempts: nat, evaluation: Option<Trouble>,
                 heartbeat: Option<Trouble>, shutdown: bool)
    modifies store`jobs
    ensures store.Snapshot() == Settled(old(store.Snapshot()), o, token, if attempts == 0 then copied + 1 else attempts,
                                        if heartbeat.Some? then heartbeat else evaluation, shutdown)
  {
    var err := evaluation;
    if heartbeat.Some? {
      err := heartbeat;
    }
    if err.None? {
      return;
    }
    if shutdown {
      var _ := store.ReleaseEvaluationJob(o, token, 0);
      return;
    }
    if err.value.RuleBusy? {
      var _ := store.ReleaseEvaluationJob(o, token, BUSY_DELAY);
      return;
    }
    if err.value.Obsolete? {
      store.CancelEvaluationJob(o, token, "obsolete");
      return;
    }
    if err.value.Stale? || err.value.Missing? {
      return;
    }
    var charge := attempts;
    if charge == 0 {
      charge := copied + 1;
    }
    var retry := Worker.RetryDelay(charge);
    var _ := store.FailEvaluationJob(o, token, charge, SECOND * retry, err.value.cause);
  }

  /** Settling changes nothing for a worker that no longer holds the claim. In particular a late
      heartbeat error cannot undo an evaluation that committed: completion took the token away. */
  lemma LateTroubleIsHarmless(t: Tables, o: Occurrence, token: Token, charge: nat, verdict: Option<Trouble>, shutdown: bool,
                              now: Time)
    ensures (o in t.jobs ==> t.jobs[o].token != Some(token)) ==> Settled(t, o, token, charge, verdict, shutdown) == t
    ensures JobTables.CompleteJob(t, o, token, now).Ok? ==>
              var completed := JobTables.CompleteJob(t, o, token, now).value;
              Settled(completed, o, token, charge, verdict, shutdown) == completed
  {
  }

  /** Exactly an infrastructure failure is charged, and delays the job the longer the more attempts
      it took; a busy rule and a shutdown put the job back as it was, to be claimed again after five
      seconds or at once. */
  lemma OnlyFailuresAreCharged(t: Tables, o: Occurrence, token: Token, charge: nat, verdict: Option<Trouble>, shutdown: bool)
    requires JobTables.HoldsToken(t, o, token)
    ensures var job, after := t.jobs[o], Settled(t, o, token, charge, verdict, shutdown);
            && after.jobs.Keys == t.jobs.Keys
            && (forall p :: p in t.jobs && p != o ==> after.jobs[p] == t.jobs[p])
            && (after.jobs[o].attempts == if verdict.Some? && verdict.value.Broken? && !shutdown then Max(job.attempts, charge)
                                          else job.attempts)
            && (after.jobs[o].status.Pending? ==>
                  after.jobs[o].availableAt == t.clock + if shutdown then 0
                                                         else if verdict.value.Broken? then DelayBefore(charge) else BUSY_DELAY)
            && (after.jobs[o].status.Pending? && !(verdict.value.Broken? && !shutdown) ==> after.jobs[o].lastError == job.lastError)
            && (after.jobs[o].status.Failed? <==>
                  verdict.Some? && verdict.value.Broken? && !shutdown && JobTables.MAX_ATTEMPTS <= charge)
  {
  }

  /** The row of the job after each settlement by the holder of its claim. */
  lemma EverySettlement(t: Tables, o: Occurrence, token: Token, charge: nat, verdict: Option<Trouble>, shutdown: bool)
    requires JobTables.HoldsToken(t, o, token)
    ensures var job, after := t.jobs[o], Settled(t, o, token, charge, verdict, shutdown);
            && o in after.jobs && after == t.(jobs := t.jobs[o := after.jobs[o]])
            && after.jobs[o] ==
                 if verdict.None? then job
                 else if shutdown then
                   JobTables.Job(JobTables.Pending, job.attempts, t.clock, None, None, job.lastError, t.clock)
                 else
                   match verdict.value
                   case RuleBusy =>
                     JobTables.Job(JobTables.Pending, job.attempts, t.clock + 5 * SECOND, None, None, job.lastError, t.clock)
                   case Obsolete =>
                     JobTables.Job(JobTables.Cancelled, job.attempts, job.availableAt, None, None, Some("obsolete"), t.clock)
                   case Stale => job
                   case Missing => job
                   case Broken(cause) =>
                     var attempts := if job.attempts < charge then charge else job.attempts;
                     if charge < 5 then
                       JobTables.Job(JobTables.Pending, attempts, t.clock + DelayBefore(charge), None, None, Some(cause), t.clock)
                     else
                       JobTables.Job(JobTables.Failed, attempts, job.availableAt, None, None, Some(cause), t.clock)
  {
  }

  /** The delays before a retry, in seconds. */
  lemma RetrySchedule(charge: nat)
    ensures DelayBefore(0) == DelayBefore(1) == 5 * SECOND && DelayBefore(2) == 10 * SECOND
    ensures DelayBefore(3) == 20 * SECOND && DelayBefore(4) == 40 * SECOND
    ensures 7 <= charge ==> DelayBefore(charge) == 300 * SECOND
    ensures 2 <= charge < 7 ==> DelayBefore(charge) == 2 * DelayBefore(charge - 1)
  {
    assert Worker.Doubled(1) == 2 && Worker.Doubled(2) == 4 && Worker.Doubled(3) == 8;
    assert Worker.Doubled(4) == 16 && Worker.Doubled(5) == 32 && Worker.Doubled(6) == 64;
    if 7 <= charge { Worker.DoubledGrows(6, charge - 1); }
  }

  /** Every settlement is a step of the protocol taken by a worker that is settling the job, so what
      is proved of its runs covers it. */
  lemma SettlementIsAStep(s: P.State, w: P.WorkerId, verdict: Option<Trouble>, shutdown: bool)
    requires s.At(w).Settling? && s.At(w).task.Scheduled?
    ensures var task := s.At(w).task;
            var settled := Settled(s.db, task.o, task.token, task.charge, verdict, shutdown);
            settled == s.db || exists step :: P.Apply(s, step).db == settled
  {
    var task := s.At(w).task;
    var settled := Settled(s.db, task.o, task.token, task.charge, verdict, shutdown);
    if settled != s.db {
      var step :=
        if shutdown then P.Release(task.o, task.token, 0, s.db.clock)
        else if verdict.value.RuleBusy? then P.Release(task.o, task.token, BUSY_DELAY, s.db.clock)
        else if verdict.value.Obsolete? then P.Cancel(task.o, task.token, "obsolete", s.db.clock)
        else P.Fail(w, DelayBefore(task.charge), verdict.value.cause, s.db.clock);
      assert P.Apply(s, step).db == settled;
    }
  }
}
