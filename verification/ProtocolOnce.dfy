/** Exactly one committed evaluation per occurrence, and a bound on the failures charged to a job. */
module ProtocolOnce {
  import opened Wrappers
  import opened Schedules
  import opened JobTables
  import opened Protocol
  import opened ProtocolInvariants
  import opened ProtocolSafety
  import opened ProtocolHistory

  /** The job of the occurrence succeeded, whether its row is still there or was cleaned up. */
  predicate Done(db: Tables, cleaned: map<Occurrence, JobStatus>, o: Occurrence) {
    (o in db.jobs && db.jobs[o].status.Succeeded?) || (o in cleaned && cleaned[o].Succeeded?)
  }

  ghost predicate Recorded(commits: seq<Commit>, o: Occurrence) {
    exists i :: 0 <= i < |commits| && commits[i].occurrence == Some(o)
  }

  ghost predicate OnceOk(s: State) {
    && (forall i, j :: 0 <= i < j < |s.commits| && s.commits[i].occurrence.Some? ==>
          s.commits[i].occurrence != s.commits[j].occurrence)
    && (forall i :: 0 <= i < |s.commits| ==>
          var c := s.commits[i];
          && (c.rule in s.db.rules || c.rule in s.retired)
          && (c.occurrence.Some? ==> c.occurrence.value.rule == c.rule && c.occurrence.value.revision == c.revision))
    && (forall o: Occurrence :: o.rule in s.db.rules ==> (Recorded(s.commits, o) <==> Done(s.db, s.cleaned, o)))
  }

  // No step but a commit makes a job succeed

  ghost predicate NoNewSuccess(s: State, s': State) {
    forall o :: Done(s'.db, s'.cleaned, o) ==> Done(s.db, s.cleaned, o)
  }

  lemma RowSuccess(s: State, step: Step)
    requires TouchesOneRow(step) && !step.CommitStep?
    ensures NoNewSuccess(s, Effect(s, step))
  {
  }

  lemma PlanSuccess(s: State, r: RuleId, window: Time, maxOccurrences: nat)
    requires Consistent(s) && r in s.db.rules && RuleDue(s.db.rules[r], s.db.clock) && 0 < window
    ensures PlanRule(s.db, r, window, maxOccurrences).Ok?
    ensures NoNewSuccess(s, s.(db := PlanRule(s.db, r, window, maxOccurrences).value))
  {
    PlanKeepsJobs(s, r, window, maxOccurrences);
  }

  lemma RuleSuccess(s: State, step: Step)
    requires Consistent(s) && OnlyTables(step) && !TouchesOneRow(step)
    ensures NoNewSuccess(s, Effect(s, step))
  {
    match step
    case Plan(r, window, maxOccurrences) =>
      if r in s.db.rules && RuleDue(s.db.rules[r], s.db.clock) && 0 < window {
        PlanSuccess(s, r, window, maxOccurrences);
      }
    case _ =>
  }

  lemma StepSuccess(s: State, step: Step)
    requires Consistent(s) && !step.CommitStep?
    ensures NoNewSuccess(s, Effect(s, step))
  {
    if TouchesOneRow(step) {
      RowSuccess(s, step);
    } else if KeepsTables(step) {
      LockStepsFrame(s, step);
    } else {
      RuleSuccess(s, step);
    }
  }

  lemma SuccessStays(s: State, s': State, o: Occurrence)
    requires Consistent(s) && Consistent(s') && TablesLater(s, s') && o.rule in s'.db.rules
    requires Done(s.db, s.cleaned, o)
    ensures Done(s'.db, s'.cleaned, o)
  {
  }

  lemma OtherStepsKeepOnce(s: State, s': State)
    requires Consistent(s) && Consistent(s') && OnceOk(s)
    requires TablesLater(s, s') && NoNewSuccess(s, s') && s'.commits == s.commits
    ensures OnceOk(s')
  {
    forall o: Occurrence | o.rule in s'.db.rules ensures Recorded(s'.commits, o) <==> Done(s'.db, s'.cleaned, o) {
      if o.rule in s.db.rules {
        if Done(s.db, s.cleaned, o) { SuccessStays(s, s', o); }
      } else {
        assert Done(s.db, s.cleaned, o) ==> BehindCursor(s.db, o);
      }
    }
  }

  /** A running job has no evaluation yet, so the unique index accepts the one its fence admits. */
  lemma CommitKeepsOnce(s: State, s': State, w: WorkerId)
    requires Consistent(s) && ReadersOk(s, s.workers) && OnceOk(s) && Commits(s, s', w)
    ensures OnceOk(s')
  {
    var c := s'.commits[|s.commits|];
    assert s'.commits[..|s.commits|] == s.commits;
    forall o: Occurrence | o.rule in s'.db.rules ensures Recorded(s'.commits, o) <==> Done(s'.db, s'.cleaned, o) {
      assert Recorded(s'.commits, o) <==> Recorded(s.commits, o) || c.occurrence == Some(o) by {
        if Recorded(s.commits, o) {
          var i :| 0 <= i < |s.commits| && s.commits[i].occurrence == Some(o);
          assert s'.commits[i].occurrence == Some(o);
        }
      }
    }
    if c.occurrence.Some? {
      var o := c.occurrence.value;
      assert o !in s.cleaned && !Recorded(s.commits, o);
    }
  }

  lemma StepKeepsOnce(s: State, step: Step)
    requires Consistent(s) && Locks(s) && ReadersOk(s, s.workers) && OnceOk(s)
    ensures OnceOk(Apply(s, step))
  {
    var s' := Apply(s, step);
    StepTables(s, step);
    StepKeepsJobs(s, step);
    StepCommits(s, step);
    if step.CommitStep? {
      CommitAllOrNothing(s, step.w, step.now);
      if DoCommit(s, step.w, step.now) != s {
        CommitKeepsOnce(s, DoCommit(s, step.w, step.now), step.w);
      }
    } else {
      StepSuccess(s, step);
      OtherStepsKeepOnce(s, s');
    }
  }

  // Failures charged to a job

  ghost predicate ChargesOk(db: Tables, cleaned: map<Occurrence, JobStatus>, retired: set<RuleId>,
                            failures: map<Occurrence, nat>, workers: Workers)
  {
    && (forall o :: o in db.jobs ==>
          && FailuresOf(failures, o) <= db.jobs[o].attempts
          && (db.jobs[o].status.Failed? || FailuresOf(failures, o) < MAX_ATTEMPTS))
    && (forall o :: o in failures ==>
          failures[o] <= MAX_ATTEMPTS && (o in db.jobs || o in cleaned || o.rule in retired))
    && (forall w :: w in workers && workers[w].HasJob() ==>
          var task := workers[w].task;
          && task.token < db.nextToken
          && (HoldsToken(db, task.o, task.token) ==>
                FailuresOf(failures, task.o) < task.charge <= db.jobs[task.o].attempts + 1))
  }

  ghost predicate FailuresOk(s: State) {
    ChargesOk(s.db, s.cleaned, s.retired, s.failures, s.workers)
  }

  ghost predicate SameTasks(workers: Workers, workers': Workers) {
    forall w :: w in workers' && workers'[w].HasJob() ==>
      w in workers && workers[w].HasJob() && workers'[w].task == workers[w].task
  }

  lemma FailuresStay(s: State, s': State)
    requires Consistent(s) && Consistent(s') && TablesLater(s, s') && s'.failures == s.failures
    requires FailuresOk(s) && SameTasks(s.workers, s'.workers)
    ensures FailuresOk(s')
  {
    forall o | o in s'.db.jobs
      ensures s'.Failures(o) <= s'.db.jobs[o].attempts
      ensures s'.db.jobs[o].status.Failed? || s'.Failures(o) < MAX_ATTEMPTS
    {
      assert JobColumns(s'.db, o);
      if o in s.db.jobs { assert RowLater(s.db.jobs[o], s'.db.jobs[o], s.db.nextToken); }
    }
    forall w | w in s'.workers && s'.workers[w].HasJob() && HoldsToken(s'.db, s'.workers[w].task.o, s'.workers[w].task.token)
      ensures s'.Failures(s'.workers[w].task.o) < s'.workers[w].task.charge <= s'.db.jobs[s'.workers[w].task.o].attempts + 1
    {
      var o := s.workers[w].task.o;
      assert o in s.db.jobs ==> RowLater(s.db.jobs[o], s'.db.jobs[o], s.db.nextToken) && JobColumns(s.db, o);
    }
  }

  lemma RowKeepsFailures(s: State, db: Tables)
    requires Consistent(s) && FailuresOk(s) && RowUpdate(s.db, db)
    ensures ChargesOk(db, s.cleaned, s.retired, s.failures, s.workers)
  {
    var s' := s.(db := db);
    RowUpdateKeepsJobs(s.db, db, s.cleaned, s.retired);
    RowsLater(s, s');
    FailuresStay(s, s');
  }

  lemma Recharged(db: Tables, cleaned: map<Occurrence, JobStatus>, retired: set<RuleId>, failures: map<Occurrence, nat>,
                  workers: Workers, w: WorkerId, worker: Worker)
    requires ChargesOk(db, cleaned, retired, failures, workers)
    requires worker.HasJob() ==> worker.task.token < db.nextToken && FailuresOf(failures, worker.task.o) < worker.task.charge
    requires worker.HasJob() && HoldsToken(db, worker.task.o, worker.task.token) ==>
               worker.task.charge <= db.jobs[worker.task.o].attempts + 1
    ensures ChargesOk(db, cleaned, retired, failures, workers[w := worker])
  {
  }

  lemma ClaimCharges(s: State, w: WorkerId, o: Occurrence, lease: nat, now: Time)
    requires Consistent(s) && FailuresOk(s)
    ensures FailuresOk(DoClaim(s, w, o, lease, now))
  {
    var s' := DoClaim(s, w, o, lease, now);
    if s' != s {
      ClaimIsRowUpdate(s.db, o, lease, now);
      RowKeepsFailures(s, s'.db);
      Recharged(s'.db, s.cleaned, s.retired, s.failures, s.workers, w, s'.At(w));
    }
  }

  lemma StartCharges(s: State, w: WorkerId, replyLost: bool, now: Time)
    requires Consistent(s) && FailuresOk(s)
    ensures FailuresOk(DoStart(s, w, replyLost, now))
  {
    var s' := DoStart(s, w, replyLost, now);
    if s' != s {
      var o, token := s.At(w).task.o, s.At(w).task.token;
      StartIsRowUpdate(s.db, o, token, now);
      RowKeepsFailures(s, s'.db);
      if !replyLost { Recharged(s'.db, s.cleaned, s.retired, s.failures, s.workers, w, s'.At(w)); }
    }
  }

  /** A failure is charged at least one attempt more than all before it, so the fifth one is final. */
  lemma Charged(db: Tables, cleaned: map<Occurrence, JobStatus>, retired: set<RuleId>, failures: map<Occurrence, nat>,
                workers: Workers, o: Occurrence, charge: nat)
    requires ChargesOk(db, cleaned, retired, failures, workers) && o in db.jobs && db.jobs[o].token.None?
    requires FailuresOf(failures, o) < charge <= db.jobs[o].attempts && FailuresOf(failures, o) < MAX_ATTEMPTS
    requires db.jobs[o].status.Failed? || charge < MAX_ATTEMPTS
    ensures ChargesOk(db, cleaned, retired, failures[o := FailuresOf(failures, o) + 1], workers)
  {
  }

  /** A failure charged to a job ends its claim, and the job when the charge reaches the maximum. */
  ghost predicate ClaimFailed(db: Tables, db': Tables, o: Occurrence, charge: nat) {
    && RowUpdate(db, db') && o in db.jobs && o in db'.jobs && !db.jobs[o].status.Failed?
    && db'.jobs[o].token.None? && charge <= db'.jobs[o].attempts
    && (db'.jobs[o].status.Failed? || charge < MAX_ATTEMPTS)
  }

  lemma FailureEndsTheClaim(db: Tables, o: Occurrence, token: Token, charge: nat, retryAfter: nat, cause: string, now: Time)
    requires FailJob(db, o, token, charge, retryAfter, cause, now).Ok? && ClaimColumns(db.jobs[o])
    ensures ClaimFailed(db, FailJob(db, o, token, charge, retryAfter, cause, now).value, o, charge)
  {
    FailIsRowUpdate(db, o, token, charge, retryAfter, cause, now);
  }

  lemma FailedRow(s: State, db: Tables, o: Occurrence, charge: nat)
    requires Consistent(s) && FailuresOk(s) && ClaimFailed(s.db, db, o, charge) && s.Failures(o) < charge
    ensures ChargesOk(db, s.cleaned, s.retired, s.failures[o := s.Failures(o) + 1], s.workers)
  {
    RowKeepsFailures(s, db);
    Charged(db, s.cleaned, s.retired, s.failures, s.workers, o, charge);
  }

  lemma FailedTask(s: State, w: WorkerId, task: Task, retryAfter: nat, cause: string, now: Time)
    requires Consistent(s) && FailuresOk(s) && task.Scheduled?
    requires HoldsToken(s.db, task.o, task.token) ==> s.Failures(task.o) < task.charge
    requires FailJob(s.db, task.o, task.token, task.charge, retryAfter, cause, now).Ok?
    ensures var db := FailJob(s.db, task.o, task.token, task.charge, retryAfter, cause, now).value;
            ChargesOk(db, s.cleaned, s.retired, s.failures[task.o := s.Failures(task.o) + 1], s.workers[w := Idle])
  {
    assert JobColumns(s.db, task.o);
    var db := FailJob(s.db, task.o, task.token, task.charge, retryAfter, cause, now).value;
    FailureEndsTheClaim(s.db, task.o, task.token, task.charge, retryAfter, cause, now);
    FailedRow(s, db, task.o, task.charge);
    Recharged(db, s.cleaned, s.retired, s.failures[task.o := s.Failures(task.o) + 1], s.workers, w, Idle);
  }

  lemma FailCharges(s: State, w: WorkerId, retryAfter: nat, cause: string, now: Time)
    requires Consistent(s) && FailuresOk(s)
    ensures FailuresOk(DoFail(s, w, retryAfter, cause, now))
  {
    var worker, s' := s.At(w), DoFail(s, w, retryAfter, cause, now);
    if worker.HasJob() && (worker.Settling? || worker.Claimed?) {
      var task := worker.task;
      var outcome := FailJob(s.db, task.o, task.token, task.charge, retryAfter, cause, now);
      if outcome.Ok? {
        FailedTask(s, w, task, retryAfter, cause, now);
        assert s' == s.(db := outcome.value, failures := s.failures[task.o := s.Failures(task.o) + 1], workers := s.workers[w := Idle]);
      } else {
        Recharged(s.db, s.cleaned, s.retired, s.failures, s.workers, w, Idle);
        assert s' == s.(workers := s.workers[w := Idle]);
      }
    } else {
      assert s' == s;
    }
  }

  lemma OtherTasks(s: State, step: Step)
    requires !step.Claim? && !step.Start? && !step.Fail?
    ensures SameTasks(s.workers, Effect(s, step).workers) && Effect(s, step).failures == s.failures
  {
    if OnlyTables(step) {
      TableStepsFrame(s, step);
    } else if step.CommitStep? {
      CommitAllOrNothing(s, step.w, step.now);
    } else {
      LockStepsFrame(s, step);
    }
  }

  lemma StepKeepsFailures(s: State, step: Step)
    requires Consistent(s) && FailuresOk(s)
    ensures FailuresOk(Apply(s, step))
  {
    if step.Claim? {
      ClaimCharges(s, step.w, step.o, step.lease, step.now);
    } else if step.Start? {
      StartCharges(s, step.w, step.replyLost, step.now);
    } else if step.Fail? {
      FailCharges(s, step.w, step.retryAfter, step.cause, step.now);
    } else {
      StepTables(s, step);
      StepKeepsJobs(s, step);
      OtherTasks(s, step);
      FailuresStay(s, Apply(s, step));
    }
  }
}
