/** What the final transaction of an evaluation does to the alerts of its rule. */
module Sweep {
  import opened Wrappers
  import opened Alerts
  import opened AlertStore
  import AlertTheorems

  datatype Verdict = Verdict(fingerprint: string, passed: bool, evidence: Json)

  datatype EvaluationResult = Pass | Fail | Error

  /** One evaluation of a rule, as far as its alerts are concerned. */
  datatype Round = Round(rule: RuleId, severity: string, labels: map<string, string>, period: PeriodId,
                         evaluation: EvaluationId, ended: Time)

  const ENGINE_ERROR := "engine.error"

  const SEVERITY_HIGH := "high"

  // What a round does to each alert

  function OpFor(round: Round, verdict: Verdict, now: Time): Op {
    if verdict.passed then PassOp(round.evaluation, round.ended, now)
    else FailOp(Failure(round.severity, round.evaluation, verdict.evidence, round.labels, round.ended), now)
  }

  function OpsFor(round: Round, verdicts: seq<Verdict>, fingerprint: string, now: Time): seq<Op> {
    if verdicts == [] then []
    else
      var last := verdicts[|verdicts| - 1];
      OpsFor(round, verdicts[..|verdicts| - 1], fingerprint, now) +
      if last.fingerprint == fingerprint then [OpFor(round, last, now)] else []
  }

  function Seen(verdicts: seq<Verdict>): set<string> {
    set v | v in verdicts :: v.fingerprint
  }

  /** An alert of the round's own period: its verdicts in order, or a pass if it has none. */
  function Driven(t: Track, round: Round, verdicts: seq<Verdict>, fingerprint: string, now: Time): Track {
    var t' := Run(t, OpsFor(round, verdicts, fingerprint, now));
    if fingerprint in Seen(verdicts) then t' else Do(t', PassOp(round.evaluation, round.ended, now))
  }

  function EngineKey(rule: RuleId): Key {
    Key(rule, ENGINE_ERROR, CONTINUOUS)
  }

  /** Any alert after a successful round. */
  function Concluded(t: Track, k: Key, round: Round, verdicts: seq<Verdict>, now: Time): Track {
    var t' := if k.rule == round.rule && k.period == Period(round.period)
              then Driven(t, round, verdicts, k.fingerprint, now) else t;
    if k == EngineKey(round.rule) then Do(t', PassOp(round.evaluation, round.ended, now)) else t'
  }

  function EngineFailure(round: Round, error: Json): Failure {
    Failure(SEVERITY_HIGH, round.evaluation, error, round.labels["kind" := ENGINE_ERROR], round.ended)
  }

  lemma {:induction false} RunSnoc(t: Track, ops: seq<Op>, op: Op)
    ensures Run(t, ops + [op]) == Do(Run(t, ops), op)
    decreases |ops|
  {
    if ops == [] {
      assert Run(Do(t, op), []) == Do(t, op);
    } else {
      assert (ops + [op])[1..] == ops[1..] + [op];
      RunSnoc(Do(t, ops[0]), ops[1..], op);
    }
  }

  lemma OpsForSnoc(round: Round, verdicts: seq<Verdict>, last: Verdict, fingerprint: string, now: Time)
    ensures OpsFor(round, verdicts + [last], fingerprint, now) ==
              if last.fingerprint == fingerprint then OpsFor(round, verdicts, fingerprint, now) + [OpFor(round, last, now)]
              else OpsFor(round, verdicts, fingerprint, now)
  {
    assert (verdicts + [last])[..|verdicts|] == verdicts;
  }

  /** An alert after its share of some first verdicts. */
  function Judged(t: Track, k: Key, round: Round, verdicts: seq<Verdict>, now: Time): Track {
    if k.rule == round.rule && k.period == Period(round.period) then Run(t, OpsFor(round, verdicts, k.fingerprint, now)) else t
  }

  lemma OneMoreVerdict(t: Track, k: Key, round: Round, verdicts: seq<Verdict>, i: nat, now: Time)
    requires i < |verdicts|
    ensures Judged(t, k, round, verdicts[..i + 1], now) ==
              if k == KeyOf(round.rule, verdicts[i].fingerprint, round.period)
              then Do(Judged(t, k, round, verdicts[..i], now), OpFor(round, verdicts[i], now))
              else Judged(t, k, round, verdicts[..i], now)
  {
    assert verdicts[..i + 1] == verdicts[..i] + [verdicts[i]];
    OpsForSnoc(round, verdicts[..i], verdicts[i], k.fingerprint, now);
    RunSnoc(t, OpsFor(round, verdicts[..i], k.fingerprint, now), OpFor(round, verdicts[i], now));
  }

  /** The tables before the round, after some first verdicts, and after one more. */
  lemma VerdictsExtend(rows0: map<Key, Alert>, log0: seq<Logged>, rows1: map<Key, Alert>, log1: seq<Logged>,
                       rows2: map<Key, Alert>, log2: seq<Logged>, round: Round, verdicts: seq<Verdict>, i: nat, now: Time)
    requires i < |verdicts|
    requires forall k :: TrackIn(rows1, log1, k) == Judged(TrackIn(rows0, log0, k), k, round, verdicts[..i], now)
    requires forall k :: TrackIn(rows2, log2, k) ==
                         if k == KeyOf(round.rule, verdicts[i].fingerprint, round.period)
                         then Do(TrackIn(rows1, log1, k), OpFor(round, verdicts[i], now)) else TrackIn(rows1, log1, k)
    ensures forall k :: TrackIn(rows2, log2, k) == Judged(TrackIn(rows0, log0, k), k, round, verdicts[..i + 1], now)
  {
    forall k ensures TrackIn(rows2, log2, k) == Judged(TrackIn(rows0, log0, k), k, round, verdicts[..i + 1], now) {
      OneMoreVerdict(TrackIn(rows0, log0, k), k, round, verdicts, i, now);
    }
  }

  // The final transaction

  method ApplyVerdict(store: Storage, round: Round, verdict: Verdict, now: Time)
    requires store.Valid()
    modifies store
    ensures store.Valid()
    ensures forall k :: store.At(k) ==
                        if k == KeyOf(round.rule, verdict.fingerprint, round.period)
                        then Do(old(store.At(k)), OpFor(round, verdict, now)) else old(store.At(k))
  {
    if verdict.passed {
      var _ := store.AutoResolveAlert(round.rule, verdict.fingerprint, round.period, round.evaluation, round.ended, now);
    } else {
      var _, _ := store.OpenOrUpdateAlert(round.rule, verdict.fingerprint, round.period,
        Failure(round.severity, round.evaluation, verdict.evidence, round.labels, round.ended), now);
    }
  }

  /** Opens, updates or closes one alert for each verdict. */
  method ApplyVerdicts(store: Storage, round: Round, verdicts: seq<Verdict>, now: Time) returns (seen: set<string>)
    requires store.Valid()
    modifies store
    ensures store.Valid()
    ensures seen == Seen(verdicts)
    ensures forall k :: store.At(k) == Judged(old(store.At(k)), k, round, verdicts, now)
  {
    seen := {};
    for i := 0 to |verdicts|
      invariant store.Valid()
      invariant seen == Seen(verdicts[..i])
      invariant forall k :: store.At(k) == Judged(old(store.At(k)), k, round, verdicts[..i], now)
    {
      var verdict := verdicts[i];
      seen := seen + {verdict.fingerprint};
      assert verdicts[..i + 1] == verdicts[..i] + [verdict];
      ghost var rows, log := store.rows, store.log;
      forall k ensures TrackIn(rows, log, k) == Judged(TrackIn(old(store.rows), old(store.log), k), k, round, verdicts[..i], now) {
        assert store.At(k) == TrackIn(rows, log, k);
      }
      ApplyVerdict(store, round, verdict, now);
      forall k ensures TrackIn(store.rows, store.log, k) ==
                       if k == KeyOf(round.rule, verdicts[i].fingerprint, round.period)
                       then Do(TrackIn(rows, log, k), OpFor(round, verdicts[i], now)) else TrackIn(rows, log, k)
      {
        assert store.At(k) == TrackIn(store.rows, store.log, k);
      }
      VerdictsExtend(old(store.rows), old(store.log), rows, log, store.rows, store.log, round, verdicts, i, now);
    }
    assert verdicts[..|verdicts|] == verdicts;
  }

  method CloseUnseen(store: Storage, round: Round, fingerprint: string, now: Time)
    requires store.Valid()
    modifies store
    ensures store.Valid()
    ensures forall k: Key :: store.At(k) ==
                        if k.rule == round.rule && k.period == Period(round.period) && k.fingerprint == fingerprint
                        then Do(old(store.At(k)), PassOp(round.evaluation, round.ended, now)) else old(store.At(k))
  {
    var _ := store.AutoResolveAlert(round.rule, fingerprint, round.period, round.evaluation, round.ended, now);
  }

  /** Closes the active alerts of the period that no verdict mentioned. */
  method SweepUnseen(store: Storage, round: Round, seen: set<string>, now: Time)
    requires store.Valid()
    modifies store
    ensures store.Valid()
    ensures forall k :: store.At(k) ==
                        if k.rule == round.rule && k.period == Period(round.period) && k.fingerprint !in seen
                        then Do(old(store.At(k)), PassOp(round.evaluation, round.ended, now)) else old(store.At(k))
  {
    var active := store.ListActiveAlertFingerprints(round.rule, round.period);
    for i := 0 to |active|
      invariant store.Valid()
      invariant forall k :: store.At(k) ==
                            if k.rule == round.rule && k.period == Period(round.period) && k.fingerprint !in seen &&
                               k.fingerprint in active[..i]
                            then Do(old(store.At(k)), PassOp(round.evaluation, round.ended, now)) else old(store.At(k))
    {
      var fingerprint := active[i];
      assert active[..i + 1] == active[..i] + [fingerprint];
      if fingerprint in seen {
        continue;
      }
      CloseUnseen(store, round, fingerprint, now);
    }
    assert active[..|active|] == active;
  }

  method DriveAlerts(store: Storage, round: Round, verdicts: seq<Verdict>, now: Time)
    requires store.Valid()
    modifies store
    ensures store.Valid()
    ensures forall k :: store.At(k) ==
                        if k.rule == round.rule && k.period == Period(round.period)
                        then Driven(old(store.At(k)), round, verdicts, k.fingerprint, now) else old(store.At(k))
  {
    var seen := ApplyVerdicts(store, round, verdicts, now);
    SweepUnseen(store, round, seen, now);
  }

  method Conclude(store: Storage, round: Round, verdicts: seq<Verdict>, now: Time) returns (result: EvaluationResult)
    requires store.Valid()
    modifies store
    ensures store.Valid()
    ensures result == if exists v :: v in verdicts && !v.passed then Fail else Pass
    ensures forall k :: store.At(k) == Concluded(old(store.At(k)), k, round, verdicts, now)
  {
    result := Pass;
    for i := 0 to |verdicts|
      invariant result == Pass && forall v :: v in verdicts[..i] ==> v.passed
    {
      if !verdicts[i].passed {
        result := Fail;
        break;
      }
    }
    DriveAlerts(store, round, verdicts, now);
    var _ := store.AutoResolveAlert(round.rule, ENGINE_ERROR, CONTINUOUS, round.evaluation, round.ended, now);
  }

  /** A round whose template failed opens or refreshes the rule's one meta-alert. */
  method ConcludeError(store: Storage, round: Round, error: Json, now: Time) returns (result: EvaluationResult)
    requires store.Valid()
    modifies store
    ensures store.Valid()
    ensures result == Error
    ensures forall k :: store.At(k) ==
                        if k == EngineKey(round.rule) then Do(old(store.At(k)), FailOp(EngineFailure(round, error), now))
                        else old(store.At(k))
    ensures Failed(old(store.rows), old(store.log), store.rows, store.log, Key(round.rule, "engine.error", CONTINUOUS),
                   Failure("high", round.evaluation, error, round.labels["kind" := "engine.error"], round.ended),
                   if round.ended == UNSET then now else round.ended)
  {
    result := Error;
    var labels := round.labels;
    labels := labels["kind" := ENGINE_ERROR];
    var _, _ := store.OpenOrUpdateAlert(round.rule, ENGINE_ERROR, CONTINUOUS,
      Failure(SEVERITY_HIGH, round.evaluation, error, labels, round.ended), now);
  }

  // What a round leaves behind

  /** Whether the last verdict on a fingerprint is a failure. */
  predicate FailsLast(verdicts: seq<Verdict>, fingerprint: string) {
    verdicts != [] &&
    var last := verdicts[|verdicts| - 1];
    if last.fingerprint == fingerprint then !last.passed else FailsLast(verdicts[..|verdicts| - 1], fingerprint)
  }

  lemma {:induction false} RunFollowsVerdicts(t: Track, round: Round, verdicts: seq<Verdict>, fingerprint: string, now: Time)
    requires fingerprint in Seen(verdicts)
    ensures HasActive(Run(t, OpsFor(round, verdicts, fingerprint, now))) <==> FailsLast(verdicts, fingerprint)
  {
    var front, last := verdicts[..|verdicts| - 1], verdicts[|verdicts| - 1];
    assert verdicts == front + [last];
    OpsForSnoc(round, front, last, fingerprint, now);
    RunSnoc(t, OpsFor(round, front, fingerprint, now), OpFor(round, last, now));
    if last.fingerprint != fingerprint {
      RunFollowsVerdicts(t, round, front, fingerprint, now);
    }
  }

  lemma {:induction false} UnseenNeverFails(verdicts: seq<Verdict>, fingerprint: string)
    requires fingerprint !in Seen(verdicts)
    ensures !FailsLast(verdicts, fingerprint)
  {
    if verdicts != [] {
      var front, last := verdicts[..|verdicts| - 1], verdicts[|verdicts| - 1];
      assert last in verdicts;
      assert Seen(front) <= Seen(verdicts);
      UnseenNeverFails(front, fingerprint);
    }
  }

  /** Whatever an alert was before, a round leaves it active exactly when its last verdict failed. */
  lemma RoundDecidesActivity(t: Track, round: Round, verdicts: seq<Verdict>, fingerprint: string, now: Time)
    ensures HasActive(Driven(t, round, verdicts, fingerprint, now)) <==> FailsLast(verdicts, fingerprint)
  {
    if fingerprint in Seen(verdicts) {
      RunFollowsVerdicts(t, round, verdicts, fingerprint, now);
    } else {
      UnseenNeverFails(verdicts, fingerprint);
    }
  }

  predicate DistinctFingerprints(verdicts: seq<Verdict>) {
    forall i, j :: 0 <= i < j < |verdicts| ==> verdicts[i].fingerprint != verdicts[j].fingerprint
  }

  predicate Fails(verdicts: seq<Verdict>, fingerprint: string) {
    exists v :: v in verdicts && v.fingerprint == fingerprint && !v.passed
  }

  lemma {:induction false} DistinctFailsOnce(verdicts: seq<Verdict>, fingerprint: string)
    requires DistinctFingerprints(verdicts)
    ensures FailsLast(verdicts, fingerprint) <==> Fails(verdicts, fingerprint)
  {
    if verdicts != [] {
      var front, last := verdicts[..|verdicts| - 1], verdicts[|verdicts| - 1];
      assert verdicts == front + [last];
      DistinctFailsOnce(front, fingerprint);
      forall v | v in verdicts && v.fingerprint == fingerprint == last.fingerprint ensures v == last {
      }
    }
  }

  /** The alert is open with the evidence, the evaluation and the instant of its latest failure,
      which counts as one more; the first failure also gives it the severity and labels of the rule. */
  predicate Shows(t: Track, t': Track, round: Round, evidence: Json, at: Time) {
    && t'.row.Some?
    && var row := t'.row.value;
       && row.status == Open && row.evidence == evidence && row.lastEvaluation == round.evaluation && row.lastSeenAt == at
       && row.ack.None?
       && (t.row.None? ==> row.severity == round.severity && row.labels == round.labels && row.firstSeenAt == at)
       && row.occurrenceCount == 1 + if t.row.None? then 0 else t.row.value.occurrenceCount
  }

  /** An active alert is closed by the system, and its mute lifted; any other alert is as it was. */
  predicate ShowsNoMore(t: Track, t': Track, round: Round, at: Time) {
    if t.row.Some? && t.row.value.status != Resolved then
      t'.row == Some(t.row.value.(status := Resolved, resolution := Some(Resolution(Auto, "system", at, "", [], NO_JSON)),
                                  snooze := None, lastEvaluation := round.evaluation))
    else t' == t
  }

  lemma {:induction false} OnlyVerdict(round: Round, verdicts: seq<Verdict>, i: nat, now: Time)
    requires i < |verdicts| && DistinctFingerprints(verdicts)
    ensures OpsFor(round, verdicts, verdicts[i].fingerprint, now) == [OpFor(round, verdicts[i], now)]
  {
    var front, last := verdicts[..|verdicts| - 1], |verdicts| - 1;
    if i < last {
      OnlyVerdict(round, front, i, now);
    } else {
      assert verdicts[last].fingerprint !in Seen(front);
      NoVerdictNoOps(round, front, verdicts[i].fingerprint, now);
    }
  }

  lemma FailureShows(t: Track, round: Round, verdict: Verdict, now: Time)
    requires AlertTheorems.TrackOk(t) && !verdict.passed
    ensures Shows(t, Do(t, OpFor(round, verdict, now)), round, verdict.evidence, if round.ended == UNSET then now else round.ended)
  {
  }

  lemma PassShows(t: Track, round: Round, now: Time)
    ensures ShowsNoMore(t, Do(t, PassOp(round.evaluation, round.ended, now)), round, if round.ended == UNSET then now else round.ended)
  {
  }

  /** A failing verdict reaches the alert of its fingerprint, evidence included; a passing one, like
      a fingerprint without a verdict, closes it. */
  lemma VerdictsReachTheirAlerts(t: Track, round: Round, verdicts: seq<Verdict>, fingerprint: string, now: Time)
    requires AlertTheorems.TrackOk(t) && DistinctFingerprints(verdicts)
    ensures var t', at := Driven(t, round, verdicts, fingerprint, now), if round.ended == UNSET then now else round.ended;
            && (forall i :: 0 <= i < |verdicts| && verdicts[i].fingerprint == fingerprint ==>
                  if verdicts[i].passed then ShowsNoMore(t, t', round, at) else Shows(t, t', round, verdicts[i].evidence, at))
            && ((forall v :: v in verdicts ==> v.fingerprint != fingerprint) ==> ShowsNoMore(t, t', round, at))
  {
    if fingerprint in Seen(verdicts) {
      var i :| 0 <= i < |verdicts| && verdicts[i].fingerprint == fingerprint;
      OnlyVerdict(round, verdicts, i, now);
      assert Run(t, [OpFor(round, verdicts[i], now)]) == Do(t, OpFor(round, verdicts[i], now));
      if verdicts[i].passed { PassShows(t, round, now); } else { FailureShows(t, round, verdicts[i], now); }
    } else {
      NoVerdictNoOps(round, verdicts, fingerprint, now);
      PassShows(t, round, now);
    }
  }

  /** A successful round closes the engine error of its rule like any alert that no longer fails. */
  lemma SuccessClosesEngineError(t: Track, round: Round, verdicts: seq<Verdict>, now: Time)
    requires AlertTheorems.TrackOk(t) && ENGINE_ERROR !in Seen(verdicts)
    ensures ShowsNoMore(t, Concluded(t, Key(round.rule, "engine.error", "continuous"), round, verdicts, now), round,
                        if round.ended == UNSET then now else round.ended)
  {
    NoVerdictNoOps(round, verdicts, ENGINE_ERROR, now);
  }

  /** After a successful round with distinct fingerprints the active alerts of the rule in the
      round's period are exactly the failing ones, and the result is PASS exactly when there are
      none; no other alert changes, but that the rule's engine error is not active and gained at
      most one event, a pass. */
  lemma SweepIsExact(before: Key -> Track, round: Round, verdicts: seq<Verdict>, now: Time)
    requires DistinctFingerprints(verdicts) && ENGINE_ERROR !in Seen(verdicts)
    ensures var after := k => Concluded(before(k), k, round, verdicts, now);
            && (forall f :: HasActive(after(KeyOf(round.rule, f, round.period))) <==> Fails(verdicts, f))
            && ((forall v :: v in verdicts ==> v.passed) <==>
                forall f :: !HasActive(after(KeyOf(round.rule, f, round.period))))
            && (forall k: Key :: (k.rule != round.rule || k.period != Period(round.period)) && k != EngineKey(round.rule) ==>
                              after(k) == before(k))
            && !HasActive(after(EngineKey(round.rule)))
            && OnePassAtMost(before(EngineKey(round.rule)).log, after(EngineKey(round.rule)).log)
  {
    var after := k => Concluded(before(k), k, round, verdicts, now);
    forall f ensures HasActive(after(KeyOf(round.rule, f, round.period))) <==> Fails(verdicts, f) {
      RoundDecidesActivity(before(KeyOf(round.rule, f, round.period)), round, verdicts, f, now);
      DistinctFailsOnce(verdicts, f);
    }
    if v :| v in verdicts && !v.passed {
      assert Fails(verdicts, v.fingerprint);
    }
    NoVerdictNoOps(round, verdicts, ENGINE_ERROR, now);
    var meta := EngineKey(round.rule);
    var driven := if meta.period == Period(round.period) then Driven(before(meta), round, verdicts, ENGINE_ERROR, now) else before(meta);
    PassLeavesNoneActive(driven, round.evaluation, round.ended, now);
  }

  lemma PassLeavesNoneActive(t: Track, evaluation: EvaluationId, at: Time, now: Time)
    ensures !HasActive(Do(t, PassOp(evaluation, at, now)))
  {
  }

  predicate OnePassAtMost(before: seq<Entry>, after: seq<Entry>) {
    after == before ||
    (|after| == |before| + 1 && after[..|before|] == before && after[|before|].event.kind.PassEvent?)
  }

  lemma {:induction false} NoVerdictNoOps(round: Round, verdicts: seq<Verdict>, fingerprint: string, now: Time)
    requires fingerprint !in Seen(verdicts)
    ensures OpsFor(round, verdicts, fingerprint, now) == []
  {
    if verdicts != [] {
      var front, last := verdicts[..|verdicts| - 1], verdicts[|verdicts| - 1];
      assert last in verdicts;
      assert Seen(front) <= Seen(verdicts);
      NoVerdictNoOps(round, front, fingerprint, now);
    }
  }

  /** An engine error is one alert however often it repeats, and the next successful round, of
      whatever period, closes it. */
  lemma EngineErrorLastsUntilSuccess(t: Track, failed: seq<(Round, Json)>, next: Round, verdicts: seq<Verdict>, now: Time)
    requires failed != [] && forall r :: r in failed ==> r.0.rule == next.rule
    requires ENGINE_ERROR !in Seen(verdicts)
    ensures var stuck := Run(t, seq(|failed|, i requires 0 <= i < |failed| =>
                                              FailOp(EngineFailure(failed[i].0, failed[i].1), now)));
            && HasActive(stuck)
            && var after := Concluded(stuck, EngineKey(next.rule), next, verdicts, now);
               !HasActive(after) && after.row.Some? && OnePassAtMost(stuck.log, after.log)
  {
    var last := |failed| - 1;
    var ops := seq(|failed|, i requires 0 <= i < |failed| => FailOp(EngineFailure(failed[i].0, failed[i].1), now));
    assert ops == ops[..last] + [ops[last]];
    RunSnoc(t, ops[..last], ops[last]);
    NoVerdictNoOps(next, verdicts, ENGINE_ERROR, now);
  }
}
