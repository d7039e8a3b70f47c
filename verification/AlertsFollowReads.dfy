/** The alerts of a rule, as the evaluations that commit leave them one after the other. */
module AlertsFollowReads {
  import opened Wrappers
  import opened Alerts
  import opened AlertStore
  import opened Sweep
  import P = Protocol
  import PT = ProtocolTheorems

  /** What the final transaction of an evaluation concluded. */
  datatype Conclusion =
    | Judged(round: Round, verdicts: seq<Verdict>, now: Time)
    | Broke(round: Round, error: Json, now: Time)

  /** What a conclusion does to any alert. */
  function After(t: Track, k: Key, c: Conclusion): Track {
    match c
    case Judged(round, verdicts, now) => Concluded(t, k, round, verdicts, now)
    case Broke(round, error, now) =>
      if k == EngineKey(round.rule) then Do(t, FailOp(EngineFailure(round, error), now)) else t
  }

  /** An alert after all conclusions in the order of their commits, and no operator's actions. */
  function AfterAll(k: Key, conclusions: seq<Conclusion>): Track {
    if conclusions == [] then NEW_TRACK
    else After(AfterAll(k, conclusions[..|conclusions| - 1]), k, conclusions[|conclusions| - 1])
  }

  predicate Judges(c: Conclusion, rule: RuleId, period: PeriodId) {
    c.Judged? && c.round.rule == rule && Period(c.round.period) == period
  }

  /** The last conclusion about a rule in a period. */
  function LastJudgement(conclusions: seq<Conclusion>, rule: RuleId, period: PeriodId): (last: Option<nat>)
    ensures last.Some? ==>
              && last.value < |conclusions| && Judges(conclusions[last.value], rule, period)
              && forall i :: last.value < i < |conclusions| ==> !Judges(conclusions[i], rule, period)
    ensures last.None? ==> forall i :: 0 <= i < |conclusions| ==> !Judges(conclusions[i], rule, period)
  {
    if conclusions == [] then None
    else if Judges(conclusions[|conclusions| - 1], rule, period) then Some(|conclusions| - 1)
    else LastJudgement(conclusions[..|conclusions| - 1], rule, period)
  }

  lemma {:induction false} LastJudgementDecides(k: Key, conclusions: seq<Conclusion>)
    requires k != EngineKey(k.rule)
    ensures var last := LastJudgement(conclusions, k.rule, k.period);
            HasActive(AfterAll(k, conclusions)) <==>
              last.Some? && FailsLast(conclusions[last.value].verdicts, k.fingerprint)
  {
    if conclusions != [] {
      var front, last := conclusions[..|conclusions| - 1], conclusions[|conclusions| - 1];
      if Judges(last, k.rule, k.period) {
        RoundDecidesActivity(AfterAll(k, front), last.round, last.verdicts, k.fingerprint, last.now);
      } else {
        LastJudgementDecides(k, front);
      }
    }
  }

  /** The last conclusion about a rule, in whatever period. */
  predicate EndsBroken(conclusions: seq<Conclusion>, rule: RuleId) {
    conclusions != [] &&
    var last := conclusions[|conclusions| - 1];
    if last.round.rule == rule then last.Broke? else EndsBroken(conclusions[..|conclusions| - 1], rule)
  }

  lemma {:induction false} EngineErrorFollowsLastConclusion(rule: RuleId, conclusions: seq<Conclusion>)
    requires forall c :: c in conclusions && c.Judged? ==> ENGINE_ERROR !in Seen(c.verdicts)
    ensures HasActive(AfterAll(EngineKey(rule), conclusions)) <==> EndsBroken(conclusions, rule)
  {
    if conclusions != [] {
      EngineErrorFollowsLastConclusion(rule, conclusions[..|conclusions| - 1]);
    }
  }

  /** One conclusion for each committed evaluation. */
  ghost predicate ConclusionsOf(conclusions: seq<Conclusion>, commits: seq<P.Commit>) {
    && |conclusions| == |commits|
    && (forall i :: 0 <= i < |commits| ==> conclusions[i].round.rule == commits[i].rule)
    && (forall c :: c in conclusions && c.Judged? ==> DistinctFingerprints(c.verdicts) && ENGINE_ERROR !in Seen(c.verdicts))
  }

  /** In every reachable state the active alerts of a rule in a period, left to the evaluations alone,
      are the failing ones of the last evaluation that committed for them; and that evaluation read
      its sources after every other one of the rule had committed. */
  lemma AlertsShowTheLastRead(s: P.State, conclusions: seq<Conclusion>, rule: RuleId, period: PeriodId)
    requires PT.Reachable(s) && ConclusionsOf(conclusions, s.commits)
    ensures var last := LastJudgement(conclusions, rule, period);
            && (forall f :: Key(rule, f, period) != EngineKey(rule) ==>
                  (HasActive(AfterAll(Key(rule, f, period), conclusions)) <==>
                   last.Some? && Fails(conclusions[last.value].verdicts, f)))
            && (last.Some? ==>
                  forall i :: 0 <= i < |s.commits| && i != last.value && Judges(conclusions[i], rule, period) ==>
                    s.commits[i].committedAt < s.commits[last.value].readFrom)
    ensures HasActive(AfterAll(EngineKey(rule), conclusions)) <==> EndsBroken(conclusions, rule)
  {
    var last := LastJudgement(conclusions, rule, period);
    forall f | Key(rule, f, period) != EngineKey(rule)
      ensures HasActive(AfterAll(Key(rule, f, period), conclusions)) <==>
              last.Some? && Fails(conclusions[last.value].verdicts, f)
    {
      LastJudgementDecides(Key(rule, f, period), conclusions);
      if last.Some? { DistinctFailsOnce(conclusions[last.value].verdicts, f); }
    }
    if last.Some? {
      forall i | 0 <= i < |s.commits| && i != last.value && Judges(conclusions[i], rule, period)
        ensures s.commits[i].committedAt < s.commits[last.value].readFrom
      {
        PT.ReadsAreSerial(s, i, last.value);
      }
    }
    EngineErrorFollowsLastConclusion(rule, conclusions);
  }
}
