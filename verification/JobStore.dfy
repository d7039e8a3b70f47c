/** The storage layer of rules and jobs, as the object the source has: its methods read and update
    the tables in place. Every method is proved to do what the function of `JobTables` says. */
module JobStore {
  import opened Wrappers
  import opened Schedules
  import JobTables
  import opened Protocol

  type RuleId = JobTables.RuleId
  type Token = JobTables.Token
  type Rule = JobTables.Rule
  type Job = JobTables.Job
  type Occurrence = JobTables.Occurrence
  type Tables = JobTables.Tables
  type StoreError = JobTables.StoreError

  const DEFAULT_WINDOW: Time := 24 * 3600 * 1_000_000_000
  const DEFAULT_OCCURRENCES: nat := 100
  const DEFAULT_BATCH: nat := 100

  datatype PlanResult = PlanResult(rulesScanned: nat, jobsCreated: nat, skipped: nat, initialized: nat)

  datatype ClaimedJob = ClaimedJob(o: Occurrence, job: Job, reclaimed: bool)

  // The planner's SELECT

  /** next_run_at ASC NULLS FIRST */
  predicate NoLaterCursor(a: Option<Time>, b: Option<Time>) {
    a.None? || (b.Some? && a.value <= b.value)
  }

  function CursorOf(rules: map<RuleId, Rule>, r: RuleId): Option<Time> {
    if r in rules then rules[r].nextRunAt else None
  }

  function DueRules(t: Tables, locked: set<RuleId>): set<RuleId> {
    set r | r in t.rules && JobTables.RuleDue(t.rules[r], t.clock) && r !in locked
  }

  /** The first `size` of some rules in the order of their cursors. */
  ghost predicate IsFirst(rules: map<RuleId, Rule>, candidates: set<RuleId>, size: nat, batch: seq<RuleId>) {
    && Distinct(batch) && (forall r :: r in batch ==> r in candidates) && |batch| <= size
    && (forall r, q :: r in batch && q in candidates && q !in batch ==>
          |batch| == size && NoLaterCursor(CursorOf(rules, r), CursorOf(rules, q)))
    && (forall i, j :: 0 <= i < j < |batch| ==> NoLaterCursor(CursorOf(rules, batch[i]), CursorOf(rules, batch[j])))
    && (|batch| < size ==> forall r :: r in candidates ==> r in batch)
  }

  /** The first `size` due rules nobody else holds a row lock on. */
  ghost predicate IsBatch(t: Tables, locked: set<RuleId>, size: nat, batch: seq<RuleId>) {
    IsFirst(t.rules, DueRules(t, locked), size, batch)
  }

  /** One planner transaction: the rules of the batch in turn, all or nothing. */
  function PlanBatch(t: Tables, batch: seq<RuleId>, window: Time, maxOccurrences: nat): JobTables.Outcome
    decreases |batch|
  {
    if batch == [] then Ok(t)
    else if batch[0] !in t.rules || !JobTables.RuleDue(t.rules[batch[0]], t.clock) then
      PlanBatch(t, batch[1..], window, maxOccurrences)
    else
      match JobTables.PlanRule(t, batch[0], window, maxOccurrences)
      case Err(e) => Err(e)
      case Ok(t') => PlanBatch(t', batch[1..], window, maxOccurrences)
  }

  /** Occurrences dropped and cursors initialised while planning the batch. */
  function PlanCounts(t: Tables, batch: seq<RuleId>, window: Time, maxOccurrences: nat): (counts: (int, int))
    decreases |batch|
  {
    if batch == [] then (0, 0)
    else if batch[0] !in t.rules || !JobTables.RuleDue(t.rules[batch[0]], t.clock) then
      PlanCounts(t, batch[1..], window, maxOccurrences)
    else
      match JobTables.PlanRule(t, batch[0], window, maxOccurrences)
      case Err(_) => (0, 0)
      case Ok(t') =>
        var rest := PlanCounts(t', batch[1..], window, maxOccurrences);
        var rule := t.rules[batch[0]];
        if rule.nextRunAt.None? then (rest.0, rest.1 + 1)
        else (rest.0 + DroppedBy(rule.schedule.cron, rule.nextRunAt.value, t.clock, window, maxOccurrences), rest.1)
  }

  function DroppedBy(cron: Cron, cursor: Time, now: Time, window: Time, maxOccurrences: nat): int {
    var due := Due(cron, cursor, now, window);
    |due| - |Last(due, maxOccurrences)| + if cursor < now - window then 1 else 0
  }

  function PlanSteps(batch: seq<RuleId>, window: Time, maxOccurrences: nat): seq<Step>
    decreases |batch|
  {
    if batch == [] then [] else [Plan(batch[0], window, maxOccurrences)] + PlanSteps(batch[1..], window, maxOccurrences)
  }

  /** A planner transaction is a run of planning steps of the protocol. */
  lemma {:induction false} PlanBatchIsARun(s: State, batch: seq<RuleId>, window: Time, maxOccurrences: nat)
    requires 0 < window && 0 < maxOccurrences
    requires PlanBatch(s.db, batch, window, maxOccurrences).Ok?
    ensures Run(s, PlanSteps(batch, window, maxOccurrences)).db == PlanBatch(s.db, batch, window, maxOccurrences).value
    decreases |batch|
  {
    if batch != [] {
      var step := Plan(batch[0], window, maxOccurrences);
      var steps := PlanSteps(batch, window, maxOccurrences);
      assert steps[0] == step && steps[1..] == PlanSteps(batch[1..], window, maxOccurrences);
      PlanBatchIsARun(Apply(s, step), batch[1..], window, maxOccurrences);
    }
  }

  // Rows, column by column

  /** A cursor is given to enabled rules with a cron schedule only. */
  ghost function FirstRun(enabled: bool, schedule: JobTables.Schedule, now: Time): Option<Time> {
    if enabled && schedule.CronSchedule? then schedule.cron(now) else None
  }

  /** A column that the patch names has the new value, any other keeps its own. */
  ghost predicate Named<T>(before: T, patched: Option<T>, after: T) {
    match patched
    case Some(value) => after == value
    case None => after == before
  }

  predicate Holds(jobs: map<Occurrence, Job>, o: Occurrence, token: Token) {
    o in jobs && jobs[o].status == JobTables.Running && jobs[o].token == Some(token)
  }

  predicate HoldsLiveLease(jobs: map<Occurrence, Job>, o: Occurrence, token: Token, now: Time) {
    Holds(jobs, o, token) && jobs[o].lease.Some? && now < jobs[o].lease.value
  }

  predicate IsClaimable(job: Job, now: Time) {
    match job.status
    case Pending => job.availableAt <= now
    case Running => job.lease.Some? && job.lease.value < now
    case _ => false
  }

  class Storage {
    var clock: Time
    var nextToken: Token
    var rules: map<RuleId, Rule>
    var jobs: map<Occurrence, Job>

    function Snapshot(): Tables
      reads this
    {
      JobTables.Tables(clock, nextToken, rules, jobs)
    }

    /** The rule is enabled, has a cron schedule, and no cursor or one that was reached. */
    ghost predicate IsDue(r: RuleId)
      reads this
    {
      && r in rules && rules[r].enabled && !rules[r].schedule.OnDemand?
      && (rules[r].nextRunAt.None? || rules[r].nextRunAt.value <= clock)
    }

    // Rules

    method CreateRule(r: RuleId, enabled: bool, schedule: JobTables.Schedule, definition: nat)
      returns (error: Option<StoreError>)
      modifies this`rules
      ensures match JobTables.CreateRule(old(Snapshot()), r, enabled, schedule, definition)
              case Ok(t) => error.None? && Snapshot() == t
              case Err(e) => error == Some(e) && Snapshot() == old(Snapshot())
      ensures error.None? ==>
                && rules == old(rules)[r := JobTables.Rule(1, enabled, schedule, FirstRun(enabled, schedule, clock), definition)]
                && jobs == old(jobs)
      ensures error.Some? <==> enabled && schedule.Malformed?
    {
      var nextRunAt: Option<Time> := None;
      if enabled && schedule.IsCron() {
        var next := JobTables.Next(schedule, clock);
        if next.Err? { return Some(next.error); }
        nextRunAt := next.value;
      }
      rules := rules[r := JobTables.Rule(1, enabled, schedule, nextRunAt, definition)];
      return None;
    }

    method AssertRuleRevision(r: RuleId, expected: nat) returns (error: Option<StoreError>)
      ensures error == JobTables.CheckRevision(Snapshot(), r, expected)
      ensures error.None? <==> r in rules && rules[r].enabled && rules[r].revision == expected
      ensures error == Some(JobTables.NotFound) <==> r !in rules
    {
      if r !in rules { return Some(JobTables.NotFound); }
      if !rules[r].enabled || rules[r].revision != expected { return Some(JobTables.ObsoleteJob); }
      return None;
    }

    method PatchRule(r: RuleId, patch: JobTables.Patch) returns (error: Option<StoreError>)
      modifies this`rules, this`jobs
      ensures match JobTables.PatchRule(old(Snapshot()), r, patch)
              case Ok(t) => error.None? && Snapshot() == t
              case Err(e) => error == Some(e) && Snapshot() == old(Snapshot())
      ensures error.None? && patch.Touches() ==>
                && r in old(rules) && r in rules && rules == old(rules)[r := rules[r]]
                && var before, after := old(rules)[r], rules[r];
                && after.revision == before.revision + 1
                && Named(before.enabled, patch.enabled, after.enabled)
                && Named(before.schedule, patch.schedule, after.schedule)
                && Named(before.definition, patch.definition, after.definition)
                && after.nextRunAt == FirstRun(after.enabled, after.schedule, clock)
      ensures error.None? && patch.Touches() ==>
                && jobs.Keys == old(jobs).Keys
                && forall o :: o in jobs ==>
                     jobs[o] == if o.rule == r && o.revision <= old(rules)[r].revision && old(jobs)[o].status.Pending?
                                then old(jobs)[o].(status := JobTables.Cancelled, lastError := Some("rule revised"), updatedAt := clock)
                                else old(jobs)[o]
      ensures error == Some(JobTables.NotFound) <==> r !in old(rules)
      ensures error == Some(JobTables.RevisionConflict) <==>
                && r in old(rules) && patch.Touches()
                && patch.expectedRevision.Some? && patch.expectedRevision.value != old(rules)[r].revision
      ensures error.Some? || !patch.Touches() ==> rules == old(rules) && jobs == old(jobs)
    {
      if r !in rules { return Some(JobTables.NotFound); }
      if !patch.Touches() { return None; }
      var current := rules[r];
      if patch.expectedRevision.Some? && current.revision != patch.expectedRevision.value {
        return Some(JobTables.RevisionConflict);
      }
      var schedule, enabled, definition := current.schedule, current.enabled, current.definition;
      if patch.schedule.Some? { schedule := patch.schedule.value; }
      if patch.enabled.Some? { enabled := patch.enabled.value; }
      if patch.definition.Some? { definition := patch.definition.value; }
      var nextRunAt: Option<Time> := None;
      if enabled && schedule.IsCron() {
        var next := JobTables.Next(schedule, clock);
        if next.Err? { return Some(next.error); }
        nextRunAt := next.value;
      }
      var settled := JobTables.CancelSuperseded(Snapshot(), r, current.revision);
      rules := rules[r := JobTables.Rule(current.revision + 1, enabled, schedule, nextRunAt, definition)];
      jobs := settled;
      return None;
    }

    method DeleteRule(r: RuleId) returns (error: Option<StoreError>)
      modifies this`rules, this`jobs
      ensures match JobTables.DeleteRule(old(Snapshot()), r)
              case Ok(t) => error.None? && Snapshot() == t
              case Err(e) => error == Some(e) && Snapshot() == old(Snapshot())
      ensures error.None? <==> r in old(rules)
      ensures error.None? ==> rules == old(rules) - {r} && jobs == map o | o in old(jobs) && o.rule != r :: old(jobs)[o]
    {
      if r !in rules { return Some(JobTables.NotFound); }
      rules := rules - {r};
      jobs := map o | o in jobs && o.rule != r :: jobs[o];
      return None;
    }

    // Planning

    method EarliestCursor(candidates: set<RuleId>) returns (r: RuleId)
      requires candidates != {} && candidates <= rules.Keys
      ensures r in candidates
      ensures forall q :: q in candidates ==> NoLaterCursor(CursorOf(rules, r), CursorOf(rules, q))
    {
      r :| r in candidates;
      var rest := candidates - {r};
      while rest != {}
        invariant r in candidates && rest <= candidates
        invariant forall q :: q in candidates - rest ==> NoLaterCursor(CursorOf(rules, r), CursorOf(rules, q))
        decreases rest
      {
        var q :| q in rest;
        if !NoLaterCursor(CursorOf(rules, r), CursorOf(rules, q)) { r := q; }
        rest := rest - {q};
      }
    }

    method SelectDue(locked: set<RuleId>, size: nat) returns (batch: seq<RuleId>)
      ensures IsBatch(Snapshot(), locked, size, batch)
      ensures forall r :: r in batch ==> IsDue(r) && r !in locked
      ensures |batch| < size ==> forall r :: IsDue(r) && r !in locked ==> r in batch
    {
      batch := [];
      var candidates := DueRules(Snapshot(), locked);
      while |batch| < size && candidates != {}
        invariant |batch| <= size && candidates <= DueRules(Snapshot(), locked)
        invariant forall r :: r in DueRules(Snapshot(), locked) <==> r in candidates || r in batch
        invariant forall r :: r in batch ==> r !in candidates
        invariant Distinct(batch)
        invariant forall r, q :: r in batch && q in candidates ==> NoLaterCursor(CursorOf(rules, r), CursorOf(rules, q))
        invariant forall i, j :: 0 <= i < j < |batch| ==> NoLaterCursor(CursorOf(rules, batch[i]), CursorOf(rules, batch[j]))
        decreases candidates
      {
        var r := EarliestCursor(candidates);
        batch := batch + [r];
        candidates := candidates - {r};
      }
    }

    /** Inserts the jobs of a rule, one occurrence after the other. */
    method InsertOccurrences(r: RuleId, revision: nat, times: seq<Time>) returns (created: nat)
      modifies this`jobs
      ensures jobs == JobTables.InsertJobs(old(jobs), r, revision, times, clock)
      ensures |jobs| == |old(jobs)| + created
    {
      created := 0;
      for i := 0 to |times|
        invariant JobTables.InsertJobs(jobs, r, revision, times[i..], clock)
               == JobTables.InsertJobs(old(jobs), r, revision, times, clock)
        invariant |jobs| == |old(jobs)| + created
      {
        var o := JobTables.Occurrence(r, revision, times[i]);
        if o !in jobs {
          jobs := jobs[o := JobTables.FreshJob(clock)];
          created := created + 1;
        }
      }
    }

    /** One rule of the batch; false when its schedule does not parse. */
    method PlanOne(r: RuleId, window: Time, maxOccurrences: nat)
      returns (planned: bool, created: nat, skipped: nat, initialized: nat)
      requires r in rules && JobTables.RuleDue(rules[r], clock) && 0 < maxOccurrences
      modifies this`rules, this`jobs
      ensures match JobTables.PlanRule(old(Snapshot()), r, window, maxOccurrences)
              case Ok(t) => planned && Snapshot() == t
              case Err(_) => !planned && Snapshot() == old(Snapshot())
      ensures |jobs| == |old(jobs)| + created
      ensures planned ==>
                var rule := old(rules)[r];
                if rule.nextRunAt.None? then skipped == 0 && initialized == 1
                else initialized == 0 &&
                     skipped == DroppedBy(rule.schedule.cron, rule.nextRunAt.value, clock, window, maxOccurrences)
    {
      var rule := rules[r];
      created, skipped, initialized := 0, 0, 0;
      if rule.schedule.Malformed? { return false, 0, 0, 0; }
      var next: Option<Time>;
      if rule.nextRunAt.None? {
        next := rule.schedule.cron(clock);
        initialized := 1;
      } else {
        var kept;
        kept, skipped, next := CatchUp(rule.schedule.cron, rule.nextRunAt.value, clock, window, maxOccurrences);
        created := InsertOccurrences(r, rule.revision, kept);
      }
      rules := rules[r := rule.(nextRunAt := next)];
      planned := true;
    }

    method PlanSelected(batch: seq<RuleId>, window: Time, maxOccurrences: nat)
      returns (planned: bool, created: nat, skipped: nat, initialized: nat)
      requires 0 < maxOccurrences
      modifies this`rules, this`jobs
      ensures planned == PlanBatch(old(Snapshot()), batch, window, maxOccurrences).Ok?
      ensures planned ==>
                && Snapshot() == PlanBatch(old(Snapshot()), batch, window, maxOccurrences).value
                && (skipped, initialized) == PlanCounts(old(Snapshot()), batch, window, maxOccurrences)
                && |jobs| == |old(jobs)| + created
    {
      planned, created, skipped, initialized := true, 0, 0, 0;
      ghost var counts := PlanCounts(Snapshot(), batch, window, maxOccurrences);
      for i := 0 to |batch|
        invariant planned
        invariant PlanBatch(Snapshot(), batch[i..], window, maxOccurrences)
               == PlanBatch(old(Snapshot()), batch, window, maxOccurrences)
        invariant PlanBatch(old(Snapshot()), batch, window, maxOccurrences).Ok? ==>
                    var rest := PlanCounts(Snapshot(), batch[i..], window, maxOccurrences);
                    counts == (skipped + rest.0, initialized + rest.1)
        invariant |jobs| == |old(jobs)| + created
      {
        var r := batch[i];
        assert batch[i..][0] == r && batch[i..][1..] == batch[i + 1..];
        if r in rules && JobTables.RuleDue(rules[r], clock) {
          var c, k, n;
          planned, c, k, n := PlanOne(r, window, maxOccurrences);
          if !planned { return; }
          created, skipped, initialized := created + c, skipped + k, initialized + n;
        }
      }
    }

    /** Materialises the due occurrences of a batch of rules in one transaction: a schedule that
        does not parse rolls all of it back. `locked` are the rule rows others hold. */
    method PlanScheduledJobs(catchUpWindow: Time, maxOccurrences: int, batchSize: int, locked: set<RuleId>)
      returns (result: Result<PlanResult, StoreError>, ghost batch: seq<RuleId>)
      modifies this`rules, this`jobs
      ensures IsBatch(old(Snapshot()), locked, if batchSize <= 0 then DEFAULT_BATCH else batchSize, batch)
      ensures var window := if catchUpWindow <= 0 then DEFAULT_WINDOW else catchUpWindow;
              var limit: nat := if maxOccurrences <= 0 then DEFAULT_OCCURRENCES else maxOccurrences;
              if PlanBatch(old(Snapshot()), batch, window, limit).Ok? then
                && Snapshot() == PlanBatch(old(Snapshot()), batch, window, limit).value && result.Ok?
                && result.value.rulesScanned == |batch| && |jobs| == |old(jobs)| + result.value.jobsCreated
                && (result.value.skipped, result.value.initialized) == PlanCounts(old(Snapshot()), batch, window, limit)
              else result == Err(JobTables.BadSchedule) && Snapshot() == old(Snapshot())
    {
      var window := if catchUpWindow <= 0 then DEFAULT_WINDOW else catchUpWindow;
      var limit: nat := if maxOccurrences <= 0 then DEFAULT_OCCURRENCES else maxOccurrences;
      var selected := SelectDue(locked, if batchSize <= 0 then DEFAULT_BATCH else batchSize);
      batch := selected;
      var savedRules, savedJobs := rules, jobs;
      var planned, created, skipped, initialized := PlanSelected(selected, window, limit);
      if planned {
        result := Ok(PlanResult(|selected|, created, skipped, initialized));
      } else {
        rules, jobs := savedRules, savedJobs;
        result := Err(JobTables.BadSchedule);
      }
    }

    // Claims

    method EarliestOccurrence(candidates: set<Occurrence>) returns (o: Occurrence)
      requires candidates != {}
      ensures o in candidates && forall p :: p in candidates ==> o.at <= p.at
    {
      o :| o in candidates;
      var rest := candidates - {o};
      while rest != {}
        invariant o in candidates && rest <= candidates
        invariant forall p :: p in candidates - rest ==> o.at <= p.at
        decreases rest
      {
        var p :| p in rest;
        if p.at < o.at { o := p; }
        rest := rest - {p};
      }
    }

    /** Claims the claimable job scheduled first among those nobody holds a row lock on. */
    method ClaimEvaluationJob(lease: nat, locked: set<Occurrence>) returns (claimed: Option<ClaimedJob>)
      modifies this`jobs, this`nextToken
      ensures claimed.None? ==>
                && Snapshot() == old(Snapshot())
                && forall o :: o in jobs && JobTables.Claimable(jobs[o], clock) ==> o in locked
      ensures claimed.Some? ==>
                var o := claimed.value.o;
                && o !in locked
                && JobTables.ClaimJob(old(Snapshot()), o, lease, clock) == Ok(Snapshot())
                && o in old(jobs) && claimed.value.reclaimed == old(jobs)[o].status.Running?
                && o in jobs && claimed.value.job == jobs[o] && jobs[o].token == Some(old(nextToken))
                && forall p :: p in old(jobs) && JobTables.Claimable(old(jobs)[p], clock) && p !in locked ==> o.at <= p.at
      ensures claimed.None? ==> forall o :: o in jobs && IsClaimable(jobs[o], clock) ==> o in locked
      ensures claimed.Some? ==>
                var o := claimed.value.o;
                && o in old(jobs) && IsClaimable(old(jobs)[o], clock) && nextToken == old(nextToken) + 1
                && (forall p :: p in old(jobs) && IsClaimable(old(jobs)[p], clock) && p !in locked ==> o.at <= p.at)
                && jobs == old(jobs)[o := old(jobs)[o].(status := JobTables.Running, token := Some(old(nextToken)),
                                                         lease := Some(clock + lease), updatedAt := clock)]
    {
      var candidates := set o | o in jobs && JobTables.Claimable(jobs[o], clock) && o !in locked;
      if candidates == {} {
        assert forall o :: o in jobs && JobTables.Claimable(jobs[o], clock) && o !in locked ==> o in candidates;
        return None;
      }
      var o := EarliestOccurrence(candidates);
      var reclaimed := jobs[o].status.Running?;
      jobs := jobs[o := jobs[o].(status := JobTables.Running, token := Some(nextToken), lease := Some(clock + lease),
                                 updatedAt := clock)];
      nextToken := nextToken + 1;
      return Some(ClaimedJob(o, jobs[o], reclaimed));
    }

    method StartEvaluationJob(o: Occurrence, token: Token) returns (attempts: Result<nat, StoreError>)
      modifies this`jobs
      ensures match JobTables.StartJob(old(Snapshot()), o, token, clock)
              case Ok(t) => Snapshot() == t && o in jobs && attempts == Ok(jobs[o].attempts)
              case Err(e) => attempts == Err(e) && Snapshot() == old(Snapshot())
      ensures attempts.Ok? <==> HoldsLiveLease(old(jobs), o, token, clock)
      ensures attempts.Ok? ==>
                && attempts.value == old(jobs)[o].attempts + 1
                && jobs == old(jobs)[o := old(jobs)[o].(attempts := attempts.value, updatedAt := clock)]
    {
      if !JobTables.HoldsLease(Snapshot(), o, token, clock) { return Err(JobTables.StaleClaim); }
      jobs := jobs[o := jobs[o].(attempts := jobs[o].attempts + 1, updatedAt := clock)];
      return Ok(jobs[o].attempts);
    }

    method HeartbeatEvaluationJob(o: Occurrence, token: Token, lease: nat) returns (error: Option<StoreError>)
      modifies this`jobs
      ensures match JobTables.HeartbeatJob(old(Snapshot()), o, token, lease, clock)
              case Ok(t) => error.None? && Snapshot() == t
              case Err(e) => error == Some(e) && Snapshot() == old(Snapshot())
      ensures error.None? <==> HoldsLiveLease(old(jobs), o, token, clock)
      ensures error.None? ==> jobs == old(jobs)[o := old(jobs)[o].(lease := Some(clock + lease), updatedAt := clock)]
    {
      if !JobTables.HoldsLease(Snapshot(), o, token, clock) { return Some(JobTables.StaleClaim); }
      jobs := jobs[o := jobs[o].(lease := Some(clock + lease), updatedAt := clock)];
      return None;
    }

    method ReleaseEvaluationJob(o: Occurrence, token: Token, delay: nat) returns (error: Option<StoreError>)
      modifies this`jobs
      ensures match JobTables.ReleaseJob(old(Snapshot()), o, token, delay, clock)
              case Ok(t) => error.None? && Snapshot() == t
              case Err(e) => error == Some(e) && Snapshot() == old(Snapshot())
      ensures error.None? <==> Holds(old(jobs), o, token)
      ensures error.None? ==>
                var job := old(jobs)[o];
                jobs == old(jobs)[o := JobTables.Job(JobTables.Pending, job.attempts, clock + delay, None, None, job.lastError, clock)]
    {
      if !JobTables.HoldsToken(Snapshot(), o, token) { return Some(JobTables.StaleClaim); }
      jobs := jobs[o := jobs[o].(status := JobTables.Pending, availableAt := clock + delay, token := None,
                                 lease := None, updatedAt := clock)];
      return None;
    }

    method FailEvaluationJob(o: Occurrence, token: Token, attempts: nat, retryAfter: nat, cause: string)
      returns (error: Option<StoreError>)
      modifies this`jobs
      ensures match JobTables.FailJob(old(Snapshot()), o, token, attempts, retryAfter, cause, clock)
              case Ok(t) => error.None? && Snapshot() == t
              case Err(e) => error == Some(e) && Snapshot() == old(Snapshot())
      ensures error.None? <==> Holds(old(jobs), o, token)
      ensures error.None? ==>
                var job := old(jobs)[o];
                var charged := if job.attempts < attempts then attempts else job.attempts;
                jobs == old(jobs)[o :=
                  if attempts < JobTables.MAX_ATTEMPTS
                  then JobTables.Job(JobTables.Pending, charged, clock + retryAfter, None, None, Some(cause), clock)
                  else JobTables.Job(JobTables.Failed, charged, job.availableAt, None, None, Some(cause), clock)]
    {
      var status := JobTables.Pending;
      if JobTables.MAX_ATTEMPTS <= attempts { status := JobTables.Failed; }
      if !JobTables.HoldsToken(Snapshot(), o, token) { return Some(JobTables.StaleClaim); }
      var job := jobs[o].(status := status, attempts := Max(jobs[o].attempts, attempts), lastError := Some(cause),
                          token := None, lease := None, updatedAt := clock);
      if status.Pending? { job := job.(availableAt := clock + retryAfter); }
      jobs := jobs[o := job];
      return None;
    }

    method AssertEvaluationJobClaim(o: Occurrence, token: Token) returns (error: Option<StoreError>)
      ensures error == JobTables.CheckClaim(Snapshot(), o, token, clock)
      ensures error.None? <==>
                && HoldsLiveLease(jobs, o, token, clock)
                && o.rule in rules && rules[o.rule].enabled && rules[o.rule].revision == o.revision
      ensures error == Some(JobTables.ObsoleteJob) <==>
                && HoldsLiveLease(jobs, o, token, clock)
                && o.rule in rules && !(rules[o.rule].enabled && rules[o.rule].revision == o.revision)
    {
      if o !in jobs { return Some(JobTables.NotFound); }
      if !jobs[o].status.Running? || jobs[o].token != Some(token) { return Some(JobTables.StaleClaim); }
      if jobs[o].lease.None? || jobs[o].lease.value <= clock { return Some(JobTables.StaleClaim); }
      if o.rule !in rules { return Some(JobTables.NotFound); }
      if !rules[o.rule].enabled || rules[o.rule].revision != o.revision { return Some(JobTables.ObsoleteJob); }
      return None;
    }

    method CompleteEvaluationJob(o: Occurrence, token: Token) returns (error: Option<StoreError>)
      modifies this`jobs
      ensures match JobTables.CompleteJob(old(Snapshot()), o, token, clock)
              case Ok(t) => error.None? && Snapshot() == t
              case Err(e) => error == Some(e) && Snapshot() == old(Snapshot())
      ensures error.None? <==> Holds(old(jobs), o, token)
      ensures error.None? ==>
                var job := old(jobs)[o];
                jobs == old(jobs)[o := JobTables.Job(JobTables.Succeeded, job.attempts, job.availableAt, None, None, None, clock)]
    {
      if !JobTables.HoldsToken(Snapshot(), o, token) { return Some(JobTables.StaleClaim); }
      jobs := jobs[o := jobs[o].(status := JobTables.Succeeded, token := None, lease := None, lastError := None,
                                 updatedAt := clock)];
      return None;
    }

    method CancelEvaluationJob(o: Occurrence, token: Token, cause: string)
      modifies this`jobs
      ensures Snapshot() == JobTables.CancelJob(old(Snapshot()), o, token, cause, clock)
      ensures if o in old(jobs) && old(jobs)[o].token == Some(token)
              then var job := old(jobs)[o];
                   jobs == old(jobs)[o := JobTables.Job(JobTables.Cancelled, job.attempts, job.availableAt, None, None,
                                                        Some(cause), clock)]
              else jobs == old(jobs)
    {
      if o in jobs && jobs[o].token == Some(token) {
        jobs := jobs[o := jobs[o].(status := JobTables.Cancelled, lastError := Some(cause), token := None,
                                   lease := None, updatedAt := clock)];
      }
    }

    method DeleteTerminalEvaluationJobs(retention: nat) returns (deleted: nat)
      modifies this`jobs
      ensures Snapshot() == JobTables.DeleteTerminal(old(Snapshot()), retention, clock)
      ensures |old(jobs)| == |jobs| + deleted
      ensures jobs == map o | o in old(jobs) &&
                !(old(jobs)[o].status in {JobTables.Succeeded, JobTables.Failed, JobTables.Cancelled} &&
                  old(jobs)[o].updatedAt < clock - retention) :: old(jobs)[o]
    {
      var expired := set o | o in jobs && JobTables.CleanupDue(jobs[o], retention, clock);
      var kept := map o | o in jobs && !JobTables.CleanupDue(jobs[o], retention, clock) :: jobs[o];
      assert jobs.Keys == kept.Keys + expired && kept.Keys !! expired;
      assert |jobs.Keys| == |kept.Keys| + |expired|;
      jobs := kept;
      return |expired|;
    }
  }
}
