/** One evaluation from end to end: sources, template, kernel, alerts. */
module Runner {
  import opened Wrappers
  import A = Alerts
  import AT = AlertTheorems
  import opened AlertStore
  import K = Kernel
  import opened Sources
  import opened Sweep
  import T = Templates

  type Asset = T.Asset
  type Balances = T.Balances
  type Tolerance = map<Asset, int>

  /** A template with its spec. */
  datatype Template =
    | LedgerInvariant(terms: seq<SourceSpec>, signs: seq<int>, tolerance: Tolerance)
    | LedgerVsPoolDrift(ledger: SourceSpec, pool: SourceSpec, sign: int, tolerance: Tolerance)
    | SourceParity(left: SourceSpec, right: SourceSpec, tolerance: Tolerance)
    | AccountThreshold(source: SourceSpec, bounds: map<Asset, T.Bounds>)
  {
    /** What the validation of a spec asks of its numbers, which are 64-bit integers. */
    predicate Valid() {
      match this
      case LedgerInvariant(terms, signs, tolerance) =>
        |terms| == |signs| > 0 && tolerance != map[] && (forall s :: s in signs ==> s in {-1, 1}) && NonNegative(tolerance)
      case LedgerVsPoolDrift(_, _, sign, tolerance) => sign in {-1, 0, 1} && NonNegative(tolerance)
      case SourceParity(_, _, tolerance) => NonNegative(tolerance)
      case AccountThreshold(_, bounds) =>
        && bounds != map[]
        && forall a :: a in bounds ==>
             var b := bounds[a];
             b.Fit() && (b.min.Some? || b.max.Some?) && (b.min.Some? && b.max.Some? ==> b.min.value <= b.max.value)
    }

    function Spec(): Sources.Spec {
      match this
      case LedgerInvariant(terms, _, _) => Invariant(terms)
      case LedgerVsPoolDrift(ledger, pool, _, _) => Drift(ledger, pool)
      case SourceParity(left, right, _) => Parity(left, right)
      case AccountThreshold(source, _) => Threshold(source)
    }

    /** The assets it checks: those its spec names, or those a side knows. */
    function Universe(balances: seq<Balances>): set<Asset>
      requires |balances| == |Spec().Sources()|
    {
      match this
      case LedgerInvariant(_, _, tolerance) => tolerance.Keys
      case LedgerVsPoolDrift(_, _, _, _) => balances[0].Keys + balances[1].Keys
      case SourceParity(_, _, _) => balances[0].Keys + balances[1].Keys
      case AccountThreshold(_, bounds) => bounds.Keys
    }

    /** The property the rule is about, over unbounded integers. */
    predicate Holds(balances: seq<Balances>, asset: Asset)
      requires |balances| == |Spec().Sources()| && Valid()
    {
      match this
      case LedgerInvariant(_, signs, tolerance) =>
        asset in tolerance && T.Within(K.Sum(T.Signed(signs, balances, asset)), tolerance, asset)
      case LedgerVsPoolDrift(_, _, sign, tolerance) =>
        T.Within(T.SignedDrift(sign, balances[0], balances[1], asset), tolerance, asset)
      case SourceParity(_, _, tolerance) =>
        T.Within(T.ZeroIfNil(balances[0], asset) - T.ZeroIfNil(balances[1], asset), tolerance, asset)
      case AccountThreshold(_, bounds) => asset in bounds && bounds[asset].Admit(T.ZeroIfNil(balances[0], asset))
    }
  }

  predicate NonNegative(tolerance: Tolerance) {
    forall a :: a in tolerance ==> 0 <= tolerance[a] <= K.MAX_INT64
  }

  /** The outcomes are one for each of the assets, with the verdict of the property. */
  ghost predicate ReportsOn(outcomes: seq<T.Outcome>, assets: seq<Asset>, template: Template, balances: seq<Balances>)
    requires |balances| == |template.Spec().Sources()| && template.Valid()
  {
    && T.Enumerates(assets, template.Universe(balances)) && |assets| == |outcomes|
    && forall i :: 0 <= i < |assets| ==>
         && outcomes[i].fingerprint == T.FingerprintFor(assets[i])
         && (outcomes[i].passed <==> template.Holds(balances, assets[i]))
  }

  /** The outcomes are one for each asset the template checks. */
  ghost predicate Reports(outcomes: seq<T.Outcome>, template: Template, balances: seq<Balances>)
    requires |balances| == |template.Spec().Sources()| && template.Valid()
  {
    exists assets :: ReportsOn(outcomes, assets, template, balances)
  }

  method Evaluate(template: Template, balances: seq<Balances>, cost: K.CostModel, limit: nat)
    returns (r: Result<T.Evaluation, K.EngineError>, ghost assets: seq<Asset>)
    requires template.Valid() && |balances| == |template.Spec().Sources()|
    ensures r.Ok? ==> ReportsOn(r.value.outcomes, assets, template, balances)
    ensures r.Ok? ==> Reports(r.value.outcomes, template, balances) && r.value.costUnits <= limit
    ensures r.Err? ==> r.error == K.BudgetExceeded
  {
    match template {
      case LedgerInvariant(terms, signs, tolerance) =>
        r, assets := EvaluateInvariant(terms, signs, tolerance, balances, cost, limit);
      case LedgerVsPoolDrift(ledger, pool, sign, tolerance) =>
        r, assets := EvaluateDrift(ledger, pool, sign, tolerance, balances, cost, limit);
      case SourceParity(left, right, tolerance) =>
        r, assets := EvaluateParity(left, right, tolerance, balances, cost, limit);
      case AccountThreshold(source, bounds) =>
        r, assets := EvaluateThreshold(source, bounds, balances, cost, limit);
    }
  }

  method EvaluateInvariant(terms: seq<SourceSpec>, signs: seq<int>, tolerance: Tolerance, balances: seq<Balances>,
                           cost: K.CostModel, limit: nat)
    returns (r: Result<T.Evaluation, K.EngineError>, ghost assets: seq<Asset>)
    requires var t := LedgerInvariant(terms, signs, tolerance); t.Valid() && |balances| == |t.Spec().Sources()|
    ensures if r.Ok?
            then ReportsOn(r.value.outcomes, assets, LedgerInvariant(terms, signs, tolerance), balances) && r.value.costUnits <= limit
            else r.error == K.BudgetExceeded
  {
    r, assets := T.EvaluateInvariant(signs, balances, tolerance, cost, limit);
  }

  method EvaluateDrift(ledger: SourceSpec, pool: SourceSpec, sign: int, tolerance: Tolerance, balances: seq<Balances>,
                       cost: K.CostModel, limit: nat)
    returns (r: Result<T.Evaluation, K.EngineError>, ghost assets: seq<Asset>)
    requires var t := LedgerVsPoolDrift(ledger, pool, sign, tolerance); t.Valid() && |balances| == |t.Spec().Sources()|
    ensures if r.Ok?
            then ReportsOn(r.value.outcomes, assets, LedgerVsPoolDrift(ledger, pool, sign, tolerance), balances) && r.value.costUnits <= limit
            else r.error == K.BudgetExceeded
  {
    r, assets := T.EvaluateDrift(sign, balances[0], balances[1], tolerance, cost, limit);
  }

  method EvaluateParity(left: SourceSpec, right: SourceSpec, tolerance: Tolerance, balances: seq<Balances>,
                        cost: K.CostModel, limit: nat)
    returns (r: Result<T.Evaluation, K.EngineError>, ghost assets: seq<Asset>)
    requires var t := SourceParity(left, right, tolerance); t.Valid() && |balances| == |t.Spec().Sources()|
    ensures if r.Ok? then ReportsOn(r.value.outcomes, assets, SourceParity(left, right, tolerance), balances) && r.value.costUnits <= limit
            else r.error == K.BudgetExceeded
  {
    r, assets := T.EvaluateParity(balances[0], balances[1], tolerance, cost, limit);
  }

  method EvaluateThreshold(source: SourceSpec, bounds: map<Asset, T.Bounds>, balances: seq<Balances>,
                           cost: K.CostModel, limit: nat)
    returns (r: Result<T.Evaluation, K.EngineError>, ghost assets: seq<Asset>)
    requires var t := AccountThreshold(source, bounds); t.Valid() && |balances| == |t.Spec().Sources()|
    ensures if r.Ok? then ReportsOn(r.value.outcomes, assets, AccountThreshold(source, bounds), balances) && r.value.costUnits <= limit
            else r.error == K.BudgetExceeded
  {
    r, assets := T.EvaluateThreshold(balances[0], bounds, cost, limit);
  }

  function VerdictsOf(outcomes: seq<T.Outcome>, marshal: T.Outcome -> A.Json): (verdicts: seq<Verdict>)
    ensures |verdicts| == |outcomes|
    ensures forall i :: 0 <= i < |outcomes| ==>
              verdicts[i] == Verdict(outcomes[i].fingerprint, outcomes[i].passed, marshal(outcomes[i]))
  {
    if outcomes == [] then []
    else
      var last := outcomes[|outcomes| - 1];
      VerdictsOf(outcomes[..|outcomes| - 1], marshal) + [Verdict(last.fingerprint, last.passed, marshal(last))]
  }

  /** A template's fingerprints are distinct, and none of them is that of the meta-alert. */
  lemma {:induction false} TemplatesAreSweepable(outcomes: seq<T.Outcome>, assets: seq<Asset>, marshal: T.Outcome -> A.Json)
    requires |assets| == |outcomes| && forall i :: 0 <= i < |assets| ==> outcomes[i].fingerprint == T.FingerprintFor(assets[i])
    requires Distinct(assets)
    ensures Sweep.DistinctFingerprints(VerdictsOf(outcomes, marshal)) && ENGINE_ERROR !in Seen(VerdictsOf(outcomes, marshal))
  {
    var verdicts := VerdictsOf(outcomes, marshal);
    forall i, j | 0 <= i < j < |verdicts| ensures verdicts[i].fingerprint != verdicts[j].fingerprint {
      SameFingerprintSameAsset(assets[i], assets[j]);
    }
    forall v | v in verdicts ensures v.fingerprint != ENGINE_ERROR {
      var i :| 0 <= i < |verdicts| && verdicts[i] == v;
      assert T.FingerprintFor(assets[i])[0] == 'a' && ENGINE_ERROR[0] == 'e';
    }
  }

  lemma VerdictsAreTheProperty(outcomes: seq<T.Outcome>, assets: seq<Asset>, template: Template, balances: seq<Balances>,
                               marshal: T.Outcome -> A.Json, f: string)
    requires template.Valid() && |balances| == |template.Spec().Sources()| && ReportsOn(outcomes, assets, template, balances)
    ensures Fails(VerdictsOf(outcomes, marshal), f) <==> FailsAs(template, balances, f)
  {
    var verdicts := VerdictsOf(outcomes, marshal);
    if Fails(verdicts, f) {
      var v :| v in verdicts && v.fingerprint == f && !v.passed;
      var i :| 0 <= i < |verdicts| && verdicts[i] == v;
      assert assets[i] in template.Universe(balances);
    }
    if FailsAs(template, balances, f) {
      var a :| a in template.Universe(balances) && f == T.FingerprintFor(a) && !template.Holds(balances, a);
      var i :| 0 <= i < |assets| && assets[i] == a;
      assert verdicts[i] in verdicts;
    }
  }

  lemma SameFingerprintSameAsset(a: Asset, b: Asset)
    ensures T.FingerprintFor(a) == T.FingerprintFor(b) <==> a == b
  {
    assert T.FingerprintFor(a)[6..] == a && T.FingerprintFor(b)[6..] == b;
  }

  /** The fingerprint belongs to an asset for which the property does not hold. */
  ghost predicate FailsAs(template: Template, balances: seq<Balances>, fingerprint: string)
    requires template.Valid() && |balances| == |template.Spec().Sources()|
  {
    exists a :: a in template.Universe(balances) && fingerprint == T.FingerprintFor(a) && !template.Holds(balances, a)
  }

  datatype Rule = Rule(id: RuleId, severity: string, labels: map<string, string>, periodOf: Time -> PeriodId, template: Template)

  function RoundOf(rule: Rule, input: Input, evaluation: A.EvaluationId, ended: Time): Round {
    Round(rule.id, rule.severity, rule.labels, rule.periodOf(PeriodInstant(input)), evaluation, ended)
  }

  /** Evaluates a rule and brings its alerts up to date. After a round that read all its sources
      within the budget, the active alerts of the rule in the period are those of the assets for
      which the property does not hold of the balances read, and PASS means there are none;
      otherwise the rule's engine error is active and nothing else moved. */
  method Run(store: Storage, rule: Rule, input: Input, world: World, cost: K.CostModel, limit: nat,
             marshal: T.Outcome -> A.Json, describe: A.Json, evaluation: A.EvaluationId, ended: Time)
    returns (result: EvaluationResult, reading: Reading)
    requires store.Valid() && rule.template.Valid()
    modifies store
    ensures store.Valid()
    ensures var sources, n := rule.template.Spec().Sources(), |reading.balances|;
            n <= |sources| && IsReading(reading, sources, KeysOf(sources), input, world, n)
    ensures result != Error ==> |reading.balances| == |rule.template.Spec().Sources()|
    ensures result != Error ==>
              var period := rule.periodOf(PeriodInstant(input));
              && (forall f :: A.HasActive(store.At(KeyOf(rule.id, f, period))) <==> FailsAs(rule.template, reading.balances, f))
              && (result == Pass <==> forall f :: !A.HasActive(store.At(KeyOf(rule.id, f, period))))
              && (forall k: Key :: (k.rule != rule.id || k.period != Period(period)) && k != EngineKey(rule.id) ==>
                                     store.At(k) == old(store.At(k)))
              && !A.HasActive(store.At(EngineKey(rule.id)))
    ensures result != Error ==>
              AllShown(store.rows, store.log, rule, reading.balances, rule.periodOf(PeriodInstant(input)), evaluation, ended)
    ensures result == Error ==>
              && A.HasActive(store.At(EngineKey(rule.id)))
              && (forall k :: k != EngineKey(rule.id) ==> store.At(k) == old(store.At(k)))
  {
    var complete;
    reading, complete := ReadSources(rule.template.Spec(), input, world);
    var round := RoundOf(rule, input, evaluation, ended);
    if !complete {
      result := ConcludeError(store, round, describe, ended);
      return;
    }
    ghost var assets;
    var evaluated;
    evaluated, assets := Evaluate(rule.template, reading.balances, cost, limit);
    if evaluated.Err? {
      result := ConcludeError(store, round, describe, ended);
      return;
    }
    result := Settle(store, rule, round, reading.balances, evaluated.value.outcomes, assets, marshal);
  }

  /** The alert is open and its latest failure is the one this evaluation found. */
  predicate ShownBy(t: A.Track, evaluation: A.EvaluationId, ended: Time) {
    && t.row.Some? && t.row.value.status == A.Open && t.row.value.lastEvaluation == evaluation
    && (ended != A.UNSET ==> t.row.value.lastSeenAt == ended)
  }

  /** So are the alerts of all assets for which the property does not hold. */
  ghost predicate AllShown(rows: map<Key, A.Alert>, log: seq<Logged>, rule: Rule, balances: seq<Balances>, period: PeriodId,
                           evaluation: A.EvaluationId, ended: Time)
    requires rule.template.Valid() && |balances| == |rule.template.Spec().Sources()|
  {
    forall f :: FailsAs(rule.template, balances, f) ==> ShownBy(TrackIn(rows, log, KeyOf(rule.id, f, period)), evaluation, ended)
  }

  lemma RoundShowsFailures(rows: map<Key, A.Alert>, log: seq<Logged>, rows': map<Key, A.Alert>, log': seq<Logged>,
                           rule: Rule, round: Round, balances: seq<Balances>, verdicts: seq<Verdict>)
    requires rule.template.Valid() && |balances| == |rule.template.Spec().Sources()| && round.rule == rule.id
    requires forall k :: AT.TrackOk(TrackIn(rows, log, k))
    requires forall k :: TrackIn(rows', log', k) == Concluded(TrackIn(rows, log, k), k, round, verdicts, round.ended)
    requires DistinctFingerprints(verdicts) && ENGINE_ERROR !in Seen(verdicts)
    requires forall f :: Fails(verdicts, f) <==> FailsAs(rule.template, balances, f)
    ensures AllShown(rows', log', rule, balances, round.period, round.evaluation, round.ended)
  {
    forall f | FailsAs(rule.template, balances, f)
      ensures ShownBy(TrackIn(rows', log', KeyOf(rule.id, f, round.period)), round.evaluation, round.ended)
    {
      var k := KeyOf(rule.id, f, round.period);
      assert f != ENGINE_ERROR;
      assert TrackIn(rows', log', k) == Driven(TrackIn(rows, log, k), round, verdicts, f, round.ended);
      FailuresAreShown(TrackIn(rows, log, k), round, verdicts, f);
    }
  }

  lemma FailuresAreShown(t: A.Track, round: Round, verdicts: seq<Verdict>, f: string)
    requires AT.TrackOk(t) && DistinctFingerprints(verdicts) && Fails(verdicts, f)
    ensures ShownBy(Driven(t, round, verdicts, f, round.ended), round.evaluation, round.ended)
  {
    var i :| 0 <= i < |verdicts| && verdicts[i].fingerprint == f && !verdicts[i].passed;
    VerdictsReachTheirAlerts(t, round, verdicts, f, round.ended);
  }

  /** Drives the alerts of a rule with the outcomes of its template. */
  method Settle(store: Storage, rule: Rule, round: Round, balances: seq<Balances>, outcomes: seq<T.Outcome>,
                ghost assets: seq<Asset>, marshal: T.Outcome -> A.Json)
    returns (result: EvaluationResult)
    requires store.Valid() && rule.template.Valid() && |balances| == |rule.template.Spec().Sources()|
    requires round.rule == rule.id && ReportsOn(outcomes, assets, rule.template, balances)
    modifies store
    ensures store.Valid() && result != Error
    ensures forall f :: A.HasActive(store.At(KeyOf(rule.id, f, round.period))) <==> FailsAs(rule.template, balances, f)
    ensures result == Pass <==> forall f :: !A.HasActive(store.At(KeyOf(rule.id, f, round.period)))
    ensures forall k: Key :: (k.rule != rule.id || k.period != Period(round.period)) && k != EngineKey(rule.id) ==>
                               store.At(k) == old(store.At(k))
    ensures !A.HasActive(store.At(EngineKey(rule.id)))
    ensures AllShown(store.rows, store.log, rule, balances, round.period, round.evaluation, round.ended)
  {
    var verdicts := VerdictsOf(outcomes, marshal);
    TemplatesAreSweepable(outcomes, assets, marshal);
    forall f {
      VerdictsAreTheProperty(outcomes, assets, rule.template, balances, marshal, f);
    }
    ghost var rows, log := store.rows, store.log;
    forall k ensures AT.TrackOk(TrackIn(rows, log, k)) {
      assert AT.TrackOk(store.At(k));
    }
    ghost var before := k => TrackIn(rows, log, k);
    result := Conclude(store, round, verdicts, round.ended);
    SweepIsExact(before, round, verdicts, round.ended);
    ghost var after := k => Concluded(before(k), k, round, verdicts, round.ended);
    forall k: Key ensures store.At(k) == after(k) {
    }
    forall k ensures TrackIn(store.rows, store.log, k) == Concluded(TrackIn(rows, log, k), k, round, verdicts, round.ended) {
      assert store.At(k) == after(k);
    }
    RoundShowsFailures(rows, log, store.rows, store.log, rule, round, balances, verdicts);
  }
}
