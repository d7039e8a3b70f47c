/** When the planner's drain loop ends, over the tables the protocol can reach. */
module DrainTheorems {
  import opened Wrappers
  import opened Schedules
  import JobTables
  import opened JobStore
  import opened Worker
  import P = Protocol
  import PT = ProtocolTheorems

  type RuleId = JobStore.RuleId
  type Tables = JobStore.Tables
  type Rule = JobStore.Rule

  // Batches

  lemma {:induction false} EarliestExists(rules: map<RuleId, Rule>, candidates: set<RuleId>) returns (r: RuleId)
    requires candidates != {}
    ensures r in candidates
    ensures forall q :: q in candidates ==> NoLaterCursor(CursorOf(rules, r), CursorOf(rules, q))
    decreases candidates
  {
    r :| r in candidates;
    var rest := candidates - {r};
    if rest != {} {
      var q := EarliestExists(rules, rest);
      if !NoLaterCursor(CursorOf(rules, r), CursorOf(rules, q)) { r := q; }
    }
  }

  lemma {:induction false} FirstExist(rules: map<RuleId, Rule>, candidates: set<RuleId>, size: nat) returns (batch: seq<RuleId>)
    ensures IsFirst(rules, candidates, size, batch)
    decreases size
  {
    if size == 0 || candidates == {} {
      batch := [];
    } else {
      var r := EarliestExists(rules, candidates);
      var rest := FirstExist(rules, candidates - {r}, size - 1);
      batch := [r] + rest;
      assert forall q :: q in batch <==> q == r || q in rest;
    }
  }

  lemma BatchExists(t: Tables, held: set<RuleId>, size: nat) returns (batch: seq<RuleId>)
    ensures IsBatch(t, held, size, batch)
  {
    batch := FirstExist(t.rules, DueRules(t, held), size);
  }

  // The drain loop

  /** No execution of the loop makes more than `bound` full passes. */
  ghost predicate EndsWithin(t: Tables, size: nat, window: Time, maxOccurrences: nat, bound: nat) {
    forall batches :: FullPasses(t, batches, size, window, maxOccurrences) ==> |batches| <= bound
  }

  lemma {:induction false} FullPassesExist(t: Tables, size: nat, window: Time, maxOccurrences: nat, n: nat)
    returns (batches: seq<seq<RuleId>>)
    requires Planable(t) && 0 < window && size <= |NeverFiring(t)|
    ensures FullPasses(t, batches, size, window, maxOccurrences) && |batches| == n
    decreases n
  {
    if n == 0 {
      batches := [];
    } else {
      var before := FullPassesExist(t, size, window, maxOccurrences, n - 1);
      var batch := BatchExists(AfterPasses(t, before, window, maxOccurrences), {}, size);
      DrainNeverEnds(t, before, batch, size, window, maxOccurrences);
      batches := before + [batch];
    }
  }

  lemma ReachableIsPlanable(s: P.State)
    requires PT.Reachable(s)
    ensures Planable(s.db)
  {
    PT.TablesAreSound(s);
  }

  /** Under a frozen clock the drain loop ends exactly when fewer rules than a batch never fire. */
  lemma DrainEndsIff(s: P.State, size: nat, window: Time, maxOccurrences: nat)
    requires PT.Reachable(s) && 0 < window
    ensures (exists bound :: EndsWithin(s.db, size, window, maxOccurrences, bound)) <==> |NeverFiring(s.db)| < size
  {
    ReachableIsPlanable(s);
    if |NeverFiring(s.db)| < size {
      forall batches | FullPasses(s.db, batches, size, window, maxOccurrences) ensures |batches| <= Remaining(s.db) {
        DrainEnds(s.db, batches, size, window, maxOccurrences);
      }
      assert EndsWithin(s.db, size, window, maxOccurrences, Remaining(s.db));
    } else {
      forall bound: nat ensures !EndsWithin(s.db, size, window, maxOccurrences, bound) {
        var batches := FullPassesExist(s.db, size, window, maxOccurrences, bound + 1);
      }
    }
  }

  // The other case is reachable

  /** The thirtieth of February. */
  const NEVER: Cron := t => None

  const NEVER_RULE := JobTables.Rule(1, true, JobTables.CronSchedule(NEVER), None, 0)

  /** Any number of rules can be created whose schedule never fires. */
  lemma {:induction false} NeverFiringRules(n: nat) returns (s: P.State)
    ensures PT.Reachable(s)
    ensures |s.db.rules| == n && s.retired == {}
    ensures forall r :: r in s.db.rules ==> r < n && s.db.rules[r] == NEVER_RULE
    decreases n
  {
    if n == 0 {
      s := P.Initial(0, r => r);
      assert s == P.Run(P.Initial(0, r => r), []);
    } else {
      var before := NeverFiringRules(n - 1);
      var create := P.CreateRuleStep(n - 1, true, JobTables.CronSchedule(NEVER), 0);
      PT.OneStep(before, create);
      s := P.Apply(before, create);
    }
  }

  /** For every n a table can be reached with n due rules that never fire. */
  lemma NeverFiringIsReachable(n: nat)
    ensures exists s :: PT.Reachable(s) && |NeverFiring(s.db)| == n
  {
    var s := NeverFiringRules(n);
    assert NeverFiring(s.db) == s.db.rules.Keys;
    assert |s.db.rules.Keys| == |s.db.rules|;
  }

  /** So there is a reachable table on which the worker's planner pass never ends. */
  lemma DrainCanRunForever(window: Time, maxOccurrences: nat)
    requires 0 < window
    ensures exists s :: PT.Reachable(s) && forall bound :: !EndsWithin(s.db, PLANNER_BATCH, window, maxOccurrences, bound)
  {
    NeverFiringIsReachable(PLANNER_BATCH);
    var s :| PT.Reachable(s) && |NeverFiring(s.db)| == PLANNER_BATCH;
    DrainEndsIff(s, PLANNER_BATCH, window, maxOccurrences);
    assert forall bound :: !EndsWithin(s.db, PLANNER_BATCH, window, maxOccurrences, bound);
  }

  /** In a reachable state a planner pass is certain to end exactly when the count says so. */
  lemma ReachableIsDrainableIff(s: P.State)
    requires PT.Reachable(s)
    ensures Drainable(s.db) <==> |NeverFiring(s.db)| < PLANNER_BATCH
  {
    ReachableIsPlanable(s);
  }
}
