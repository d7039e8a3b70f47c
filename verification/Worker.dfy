/** The worker's planner pass and its retry delay. */
module Worker {
  import opened Wrappers
  import opened Schedules
  import JobTables
  import opened JobStore

  type RuleId = JobStore.RuleId
  type Tables = JobStore.Tables
  type Rule = JobStore.Rule

  // Draining the due rules under a frozen clock

  ghost predicate Planable(t: Tables) {
    forall r :: r in t.rules && t.rules[r].enabled ==> !t.rules[r].schedule.Malformed?
  }

  /** The row of a due rule after it was planned. */
  function RowAfter(rule: Rule, now: Time, window: Time): Rule {
    if !rule.schedule.CronSchedule? then rule
    else if rule.nextRunAt.None? then rule.(nextRunAt := rule.schedule.cron(now))
    else rule.(nextRunAt := NextCursor(rule.schedule.cron, rule.nextRunAt.value, now, window))
  }

  lemma {:induction false} BatchEffect(t: Tables, batch: seq<RuleId>, window: Time, maxOccurrences: nat)
    requires Planable(t)
    requires Distinct(batch)
    requires forall r :: r in batch ==> r in DueRules(t, {})
    ensures PlanBatch(t, batch, window, maxOccurrences).Ok?
    ensures var t' := PlanBatch(t, batch, window, maxOccurrences).value;
            && t'.clock == t.clock && t'.rules.Keys == t.rules.Keys
            && forall r :: r in t.rules ==>
                 t'.rules[r] == if r in batch then RowAfter(t.rules[r], t.clock, window) else t.rules[r]
    decreases |batch|
  {
    if batch != [] {
      assert batch[0] in DueRules(t, {});
      var t1 := JobTables.PlanRule(t, batch[0], window, maxOccurrences).value;
      assert batch[0] in batch;
      forall r | r in batch[1..] ensures r in DueRules(t1, {}) {
        assert r in batch && r != batch[0];
      }
      BatchEffect(t1, batch[1..], window, maxOccurrences);
      assert forall r :: r in batch <==> r == batch[0] || r in batch[1..];
    }
  }

  /** Due rules whose schedule names no occurrence after now: planning leaves their cursor NULL. */
  function NeverFiring(t: Tables): set<RuleId> {
    set r | r in DueRules(t, {}) && t.rules[r].schedule.CronSchedule? && t.rules[r].schedule.cron(t.clock).None?
  }

  function Firing(t: Tables): set<RuleId> {
    DueRules(t, {}) - NeverFiring(t)
  }

  function FiringWithCursor(t: Tables): set<RuleId> {
    set r | r in Firing(t) && CursorOf(t.rules, r).Some?
  }

  /** Passes the planner may still need: a rule that fires loses its cursor at worst once before it
      gets one past now. */
  function Remaining(t: Tables): nat {
    |Firing(t)| + |FiringWithCursor(t)|
  }

  lemma PlannedRow(rule: Rule, now: Time, window: Time)
    requires 0 < window && JobTables.RuleDue(rule, now) && rule.schedule.CronSchedule?
    ensures var after := RowAfter(rule, now, window);
            && after.(nextRunAt := None) == rule.(nextRunAt := None)
            && (after.nextRunAt.Some? ==> now < after.nextRunAt.value && after.nextRunAt == rule.schedule.cron(now))
            && (rule.nextRunAt.None? ==> after.nextRunAt == rule.schedule.cron(now))
  {
    if rule.nextRunAt.None? {
      SuccessorIsLeastOccurrence(rule.schedule.cron, now);
    } else {
      NextCursorIsPastNow(rule.schedule.cron, rule.nextRunAt.value, now, window);
    }
  }

  /** What a pass leaves due: the rules that never fire, those it did not reach, and those whose
      cursor became NULL. */
  lemma PassEffect(t: Tables, held: set<RuleId>, batch: seq<RuleId>, size: nat, window: Time, maxOccurrences: nat)
    requires Planable(t) && 0 < window && IsBatch(t, held, size, batch)
    ensures PlanBatch(t, batch, window, maxOccurrences).Ok?
    ensures var t' := PlanBatch(t, batch, window, maxOccurrences).value;
            && Planable(t') && t'.clock == t.clock
            && NeverFiring(t') == NeverFiring(t)
            && Firing(t') <= Firing(t) && FiringWithCursor(t') <= FiringWithCursor(t)
            && (forall r :: r in batch && r in Firing(t) ==>
                  if CursorOf(t.rules, r).Some? then r !in FiringWithCursor(t') else r !in Firing(t'))
            && (forall r :: r in batch ==> r in t'.rules && (r in DueRules(t', {}) ==> CursorOf(t'.rules, r).None?))
  {
    assert forall r :: r in batch ==> r in DueRules(t, held);
    BatchEffect(t, batch, window, maxOccurrences);
    forall r | r in batch ensures r in DueRules(t, {}) && t.rules[r].schedule.CronSchedule? {
      assert r in DueRules(t, {});
    }
    forall r | r in batch {
      PlannedRow(t.rules[r], t.clock, window);
    }
  }

  lemma Shrinks<T>(small: set<T>, large: set<T>)
    requires small <= large
    ensures |small| <= |large| && (small != large ==> |small| < |large|)
  {
    assert large == small + (large - small);
    assert |large| == |small| + |large - small|;
  }

  lemma SeqInSet<T>(s: seq<T>, within: set<T>)
    requires Distinct(s) && forall x :: x in s ==> x in within
    ensures |s| <= |within|
    ensures |s| == |within| ==> forall x :: x in within ==> x in s
  {
    if s != [] {
      var last := s[|s| - 1];
      SeqInSet(s[..|s| - 1], within - {last});
      assert s == s[..|s| - 1] + [last];
    }
  }

  /** A full pass plans at least one rule that fires, when fewer than a batch never do. */
  lemma FullPassProgresses(t: Tables, held: set<RuleId>, batch: seq<RuleId>, size: nat, window: Time, maxOccurrences: nat)
    requires Planable(t) && 0 < window && IsBatch(t, held, size, batch)
    requires |NeverFiring(t)| < size == |batch|
    ensures PlanBatch(t, batch, window, maxOccurrences).Ok?
    ensures Remaining(PlanBatch(t, batch, window, maxOccurrences).value) < Remaining(t)
  {
    PassEffect(t, held, batch, size, window, maxOccurrences);
    var t' := PlanBatch(t, batch, window, maxOccurrences).value;
    if forall r :: r in batch ==> r in NeverFiring(t) {
      SeqInSet(batch, NeverFiring(t));
    }
    var r :| r in batch && r !in NeverFiring(t);
    assert r in Firing(t);
    Shrinks(Firing(t'), Firing(t));
    Shrinks(FiringWithCursor(t'), FiringWithCursor(t));
  }

  /** An execution of the drain loop that has not ended: every pass so far was a full batch. */
  ghost predicate FullPasses(t: Tables, batches: seq<seq<RuleId>>, size: nat, window: Time, maxOccurrences: nat)
    decreases |batches|
  {
    batches == [] ||
    (&& IsBatch(t, {}, size, batches[0]) && |batches[0]| == size
     && PlanBatch(t, batches[0], window, maxOccurrences).Ok?
     && FullPasses(PlanBatch(t, batches[0], window, maxOccurrences).value, batches[1..], size, window, maxOccurrences))
  }

  function AfterPasses(t: Tables, batches: seq<seq<RuleId>>, window: Time, maxOccurrences: nat): Tables
    decreases |batches|
  {
    if batches == [] then t
    else
      match PlanBatch(t, batches[0], window, maxOccurrences)
      case Ok(t') => AfterPasses(t', batches[1..], window, maxOccurrences)
      case Err(_) => t
  }

  /** Under a frozen clock the drain loop ends if fewer rules than a batch never fire... */
  lemma {:induction false} DrainEnds(t: Tables, batches: seq<seq<RuleId>>, size: nat, window: Time, maxOccurrences: nat)
    requires Planable(t) && 0 < window && |NeverFiring(t)| < size
    requires FullPasses(t, batches, size, window, maxOccurrences)
    ensures |batches| <= Remaining(t)
    decreases |batches|
  {
    if batches != [] {
      FullPassProgresses(t, {}, batches[0], size, window, maxOccurrences);
      PassEffect(t, {}, batches[0], size, window, maxOccurrences);
      DrainEnds(PlanBatch(t, batches[0], window, maxOccurrences).value, batches[1..], size, window, maxOccurrences);
    }
  }

  /** ... and only then: otherwise every pass is full, however many went before. */
  lemma {:induction false} DrainNeverEnds(t: Tables, batches: seq<seq<RuleId>>, batch: seq<RuleId>, size: nat, window: Time,
                                          maxOccurrences: nat)
    requires Planable(t) && 0 < window && size <= |NeverFiring(t)|
    requires FullPasses(t, batches, size, window, maxOccurrences)
    requires IsBatch(AfterPasses(t, batches, window, maxOccurrences), {}, size, batch)
    ensures FullPasses(t, batches + [batch], size, window, maxOccurrences)
    decreases |batches|
  {
    if batches == [] {
      PassEffect(t, {}, batch, size, window, maxOccurrences);
      if |batch| < size {
        Shrinks(NeverFiring(t), set r | r in batch);
        SetOfSeq(batch);
      }
      assert [batch][1..] == [];
    } else {
      PassEffect(t, {}, batches[0], size, window, maxOccurrences);
      DrainNeverEnds(PlanBatch(t, batches[0], window, maxOccurrences).value, batches[1..], batch, size, window, maxOccurrences);
      assert (batches + [batch])[1..] == batches[1..] + [batch];
    }
  }

  lemma SetOfSeq<T>(s: seq<T>)
    ensures |set x | x in s| <= |s|
  {
    if s != [] {
      var last := s[|s| - 1];
      SetOfSeq(s[..|s| - 1]);
      var front := s[..|s| - 1];
      assert s == front + [last];
      assert (set x | x in s) == (set x | x in front) + {last};
    }
  }

  const PLANNER_BATCH: nat := 100
  const MAX_CATCH_UP: nat := 100

  ghost predicate Drainable(t: Tables) {
    Planable(t) && |NeverFiring(t)| < PLANNER_BATCH
  }

  lemma PassDrains(t: Tables, held: set<RuleId>, batch: seq<RuleId>)
    requires Drainable(t) && IsBatch(t, held, PLANNER_BATCH, batch)
    ensures PlanBatch(t, batch, DEFAULT_WINDOW, MAX_CATCH_UP).Ok?
    ensures var t' := PlanBatch(t, batch, DEFAULT_WINDOW, MAX_CATCH_UP).value;
            && Drainable(t')
            && Remaining(t') <= Remaining(t) && (|batch| == PLANNER_BATCH ==> Remaining(t') < Remaining(t))
            && (|batch| < PLANNER_BATCH ==> Drained(t', held))
  {
    PassEffect(t, held, batch, PLANNER_BATCH, DEFAULT_WINDOW, MAX_CATCH_UP);
    if |batch| == PLANNER_BATCH {
      FullPassProgresses(t, held, batch, PLANNER_BATCH, DEFAULT_WINDOW, MAX_CATCH_UP);
    } else {
      assert forall r :: r in batch ==> r in DueRules(t, held);
      BatchEffect(t, batch, DEFAULT_WINDOW, MAX_CATCH_UP);
      var t' := PlanBatch(t, batch, DEFAULT_WINDOW, MAX_CATCH_UP).value;
      forall r | r in DueRules(t', {}) && r !in held ensures CursorOf(t'.rules, r).None? {
        assert r in batch || r in DueRules(t, held);
      }
      Shrinks(Firing(t'), Firing(t));
      Shrinks(FiringWithCursor(t'), FiringWithCursor(t));
    }
  }

  /** No rule with a cursor is due, but those whose rows others hold. */
  ghost predicate Drained(t: Tables, held: set<RuleId>) {
    forall r :: r in DueRules(t, {}) && r !in held ==> CursorOf(t.rules, r).None?
  }

  datatype PlannerTotals = PlannerTotals(created: nat, skipped: int, initialized: int)

  /** One batch that was planned, what planning it reported, and the tables before and after. */
  datatype Pass = Pass(before: Tables, batch: seq<RuleId>, result: PlanResult, after: Tables)

  function Add(total: PlannerTotals, result: PlanResult): PlannerTotals {
    PlannerTotals(total.created + result.jobsCreated, total.skipped + result.skipped, total.initialized + result.initialized)
  }

  function Totals(passes: seq<Pass>): PlannerTotals
    decreases |passes|
  {
    if passes == [] then PlannerTotals(0, 0, 0) else Add(Totals(passes[..|passes| - 1]), passes[|passes| - 1].result)
  }

  /** The batch is one of the rules that are due and whose rows nobody holds. */
  ghost predicate IsPass(p: Pass, held: set<RuleId>) {
    && IsBatch(p.before, held, PLANNER_BATCH, p.batch) && p.result.rulesScanned == |p.batch|
    && PlanBatch(p.before, p.batch, DEFAULT_WINDOW, MAX_CATCH_UP) == Ok(p.after)
    && (p.result.skipped, p.result.initialized) == PlanCounts(p.before, p.batch, DEFAULT_WINDOW, MAX_CATCH_UP)
    && |p.after.jobs| == |p.before.jobs| + p.result.jobsCreated
  }

  /** Passes that follow one another, all of them over a full batch. */
  ghost predicate AllFull(start: Tables, passes: seq<Pass>, end: Tables, held: nat -> set<RuleId>)
    decreases |passes|
  {
    if passes == [] then end == start
    else
      var n := |passes| - 1;
      && IsPass(passes[n], held(n)) && |passes[n].batch| == PLANNER_BATCH && passes[n].after == end
      && AllFull(start, passes[..n], passes[n].before, held)
  }

  lemma OneMorePass(start: Tables, passes: seq<Pass>, held: nat -> set<RuleId>, p: Pass)
    requires AllFull(start, passes, p.before, held) && IsPass(p, held(|passes|)) && |p.batch| == PLANNER_BATCH
    ensures AllFull(start, passes + [p], p.after, held)
  {
    assert (passes + [p])[..|passes|] == passes;
  }

  lemma OneMoreTotal(passes: seq<Pass>, p: Pass)
    ensures Totals(passes + [p]) == Add(Totals(passes), p.result)
  {
    assert (passes + [p])[..|passes|] == passes;
  }

  method PlanPass(store: Storage, held: set<RuleId>) returns (result: PlanResult, ghost p: Pass)
    requires Drainable(store.Snapshot())
    modifies store`rules, store`jobs
    ensures IsPass(p, held) && p.before == old(store.Snapshot()) && p.result == result && p.after == store.Snapshot()
    ensures Drainable(p.after) && result.rulesScanned == |p.batch|
    ensures if |p.batch| == PLANNER_BATCH then Remaining(p.after) < Remaining(p.before)
            else |p.batch| < PLANNER_BATCH && Drained(p.after, held)
  {
    var planned, batch := store.PlanScheduledJobs(DEFAULT_WINDOW, MAX_CATCH_UP, PLANNER_BATCH, held);
    PassDrains(old(store.Snapshot()), held, batch);
    result := planned.value;
    p := Pass(old(store.Snapshot()), batch, result, store.Snapshot());
  }

  /** One planner pass of the worker: batches are planned until one is not full. `held` are the rule
      rows other planners hold while a batch is selected; they may differ from batch to batch. */
  method PlanAll(store: Storage, held: nat -> set<RuleId>)
    returns (total: PlannerTotals, ghost full: seq<Pass>, ghost last: Pass)
    requires Drainable(store.Snapshot())
    modifies store`rules, store`jobs
    ensures AllFull(old(store.Snapshot()), full, last.before, held)
    ensures IsPass(last, held(|full|)) && |last.batch| < PLANNER_BATCH && last.after == store.Snapshot()
    ensures total == Totals(full + [last])
    ensures Drained(store.Snapshot(), held(|full|))
  {
    total, full := PlannerTotals(0, 0, 0), [];
    ghost var start, t := store.Snapshot(), store.Snapshot();
    var pass := 0;
    while true
      invariant t == store.Snapshot() && Drainable(t)
      invariant AllFull(start, full, t, held) && total == Totals(full) && pass == |full|
      decreases Remaining(t)
    {
      var result;
      result, last := PlanPass(store, held(pass));
      total := Add(total, result);
      OneMoreTotal(full, last);
      if result.rulesScanned < PLANNER_BATCH {
        return;
      }
      OneMorePass(start, full, held, last);
      full, t, pass := full + [last], last.after, pass + 1;
    }
  }

  // Retries

  const BASE_DELAY: nat := 5
  const MAX_DELAY: nat := 300

  function Doubled(n: nat): nat {
    if n == 0 then 1 else 2 * Doubled(n - 1)
  }

  lemma {:induction false} DoubledGrows(n: nat, m: nat)
    requires n <= m
    ensures Doubled(n) <= Doubled(m)
    decreases m - n
  {
    if n < m { DoubledGrows(n, m - 1); }
  }

  /** The delay before retrying, in seconds: 5 * 2^(attempt-1), five minutes at most. */
  method RetryDelay(attempt: int) returns (delay: nat)
    ensures attempt <= 1 ==> delay == BASE_DELAY
    ensures 1 < attempt ==>
              var doubled := BASE_DELAY * Doubled(attempt - 1);
              delay == if MAX_DELAY < doubled then MAX_DELAY else doubled
  {
    delay := BASE_DELAY;
    var i: nat := 1;
    while i < attempt && delay < MAX_DELAY
      invariant 1 <= i && (i <= attempt || i == 1)
      invariant delay == BASE_DELAY * Doubled(i - 1)
    {
      delay := delay * 2;
      i := i + 1;
    }
    if i < attempt { DoubledGrows(i - 1, attempt - 1); }
    if MAX_DELAY < delay { delay := MAX_DELAY; }
  }
}
