/** The verdicts of the four templates. Balances are unbounded; the kernel that has the last word
    computes in checked 64-bit arithmetic. */
module Templates {
  import opened Wrappers
  import opened Kernel

  type Asset = string

  /** What a source returned; an entry may lack its amount. */
  type Balances = map<Asset, Option<int>>

  function ZeroIfNil(balances: Balances, asset: Asset): (amount: int)
    ensures asset in balances && balances[asset].Some? ==> balances[asset] == Some(amount)
    ensures asset !in balances || balances[asset].None? ==> amount == 0
  {
    if asset in balances && balances[asset].Some? then balances[asset].value else 0
  }

  type Figures = map<string, int>

  datatype Outcome = Outcome(fingerprint: string, passed: bool, proof: Figures)

  datatype Evaluation = Evaluation(outcomes: seq<Outcome>, costUnits: nat)

  function FingerprintFor(asset: Asset): string {
    "asset:" + asset
  }

  ghost predicate Enumerates(assets: seq<Asset>, keys: set<Asset>) {
    && (forall a :: a in assets <==> a in keys)
    && Distinct(assets)
  }

  /** The keys of a map, each once. */
  method SortedKeys(keys: set<Asset>) returns (assets: seq<Asset>)
    ensures Enumerates(assets, keys)
  {
    assets := [];
    var rest := keys;
    while rest != {}
      invariant rest <= keys
      invariant Enumerates(assets, keys - rest)
    {
      var a :| a in rest;
      rest := rest - {a};
      assets := assets + [a];
    }
  }

  /** No further from zero than the tolerance allows; an asset without one has to be at zero. */
  predicate Within(difference: int, tolerance: map<Asset, int>, asset: Asset): (within: bool)
    ensures asset in tolerance ==> (within <==> Magnitude(difference) <= tolerance[asset])
    ensures asset !in tolerance ==> (within <==> difference == 0)
  {
    if asset in tolerance then -tolerance[asset] <= difference <= tolerance[asset] else difference == 0
  }

  // The kernel's last word

  /** The expression, or the verdict already reached when some number in it would not fit. */
  function SnapshotVerdictExpression(expression: Source, passed: bool, values: seq<int>): (source: Source) {
    if AllFit(values) then expression else Some(Truth(passed))
  }

  /** The kernel accepts the expression and comes to the given verdict. */
  predicate Agrees(source: Source, passed: bool) {
    Compiles(source) && Eval(source.value) == Ok(Bool(passed))
  }

  function Programs(sources: seq<Source>): (programs: seq<Expr>)
    requires forall s :: s in sources ==> s.Some?
    ensures |programs| == |sources| && forall i :: 0 <= i < |sources| ==> programs[i] == sources[i].value
  {
    if sources == [] then [] else Programs(sources[..|sources| - 1]) + [sources[|sources| - 1].value]
  }

  method CompileAll(sources: seq<Source>) returns (r: Result<seq<Expr>, EngineError>)
    ensures r.Ok? ==> (forall s :: s in sources ==> s.Some? && Compiles(s)) && r.value == Programs(sources)
    ensures r.Err? ==> r.error == CompileFailed && exists s :: s in sources && !Compiles(s)
  {
    var compiled: seq<Expr> := [];
    for i := 0 to |sources|
      invariant |compiled| == i
      invariant forall j :: 0 <= j < i ==> Compiles(sources[j]) && compiled[j] == sources[j].value
    {
      if sources[i].None? || TypeOf(sources[i].value) != Some(BoolType) {
        assert !Compiles(sources[i]) && sources[i] in sources;
        return Err(CompileFailed);
      }
      compiled := compiled + [sources[i].value];
    }
    assert compiled == Programs(sources);
    r := Ok(compiled);
  }

  /** Overwrites the verdicts and adds up the costs. */
  method TakeVerdicts(outcomes: seq<Outcome>, outputs: seq<Output>, ghost programs: seq<Expr>, ghost cost: CostModel)
    returns (r: Evaluation)
    requires |outcomes| == |outputs| == |programs|
    requires forall i :: 0 <= i < |programs| ==> outputs[i].cost == cost(programs[i])
    ensures |r.outcomes| == |outcomes| && r.costUnits == TotalCost(programs, cost)
    ensures forall i :: 0 <= i < |outcomes| ==> r.outcomes[i] == outcomes[i].(passed := outputs[i].passed)
  {
    var decided, costUnits := [], 0;
    for i := 0 to |outputs|
      invariant |decided| == i
      invariant forall j :: 0 <= j < i ==> decided[j] == outcomes[j].(passed := outputs[j].passed)
      invariant costUnits == TotalCost(programs[..i], cost)
    {
      CostOfPrefix(programs, i, cost);
      decided := decided + [outcomes[i].(passed := outputs[i].passed)];
      costUnits := costUnits + outputs[i].cost;
    }
    assert programs[..|programs|] == programs;
    r := Evaluation(decided, costUnits);
  }

  method ApplyKernelVerdicts(outcomes: seq<Outcome>, sources: seq<Source>, cost: CostModel, limit: nat)
    returns (r: Result<Evaluation, EngineError>)
    ensures r.Ok? <==> && |outcomes| == |sources|
                       && (forall s :: s in sources ==> Compiles(s) && Eval(s.value).Ok?)
                       && WithinBudget(Programs(sources), cost, limit)
    ensures r.Ok? ==> && |r.value.outcomes| == |outcomes|
                      && r.value.costUnits == TotalCost(Programs(sources), cost) <= limit
    ensures r.Ok? ==> forall i :: 0 <= i < |outcomes| ==>
              r.value.outcomes[i] == outcomes[i].(passed := Unbounded(sources[i].value).b)
    ensures |outcomes| == |sources| && (exists s :: s in sources && !Compiles(s)) ==> r == Err(CompileFailed)
    ensures r.Err? && |outcomes| == |sources| && (forall s :: s in sources ==> Compiles(s) && Eval(s.value).Ok?) ==>
              r.error == BudgetExceeded
  {
    if |outcomes| != |sources| {
      return Err(CountMismatch);
    }
    var compiled := CompileAll(sources);
    if compiled.Err? {
      return Err(compiled.error);
    }
    ProgramsAreTheSources(sources);
    var outputs := EvaluateBatch(compiled.value, cost, limit);
    if outputs.Err? {
      return Err(outputs.error);
    }
    var evaluation := TakeVerdicts(outcomes, outputs.value, compiled.value, cost);
    r := Ok(evaluation);
  }

  lemma ProgramsAreTheSources(sources: seq<Source>)
    requires forall s :: s in sources ==> s.Some?
    ensures forall p :: p in Programs(sources) <==> Some(p) in sources
  {
    forall p ensures p in Programs(sources) <==> Some(p) in sources {
      if p in Programs(sources) {
        var i :| 0 <= i < |sources| && Programs(sources)[i] == p;
        assert sources[i] in sources && sources[i] == Some(p);
      }
      if Some(p) in sources {
        var i :| 0 <= i < |sources| && sources[i] == Some(p);
        assert Programs(sources)[i] == p;
      }
    }
  }

  /** One outcome per asset, each with the verdict of the unbounded predicate; an evaluation whose
      expressions are well formed fails only for its cost. */
  predicate Decides(r: Result<Evaluation, EngineError>, assets: seq<Asset>, passes: Asset -> bool, sources: seq<Source>,
                    cost: CostModel, limit: nat) {
    && |sources| == |assets|
    && (if (exists s :: s in sources && s.None?) then r == Err(CompileFailed)
        else if !WithinBudget(Programs(sources), cost, limit) then r == Err(BudgetExceeded)
        else
          && r.Ok?
          && r.value.costUnits == TotalCost(Programs(sources), cost) <= limit
          && |r.value.outcomes| == |assets|
          && forall i :: 0 <= i < |assets| ==>
               && r.value.outcomes[i].fingerprint == FingerprintFor(assets[i])
               && (r.value.outcomes[i].passed <==> passes(assets[i])))
  }

  /** If each expression that is well formed agrees with the verdict it goes with, none is flipped. */
  method Conclude(assets: seq<Asset>, passes: Asset -> bool, outcomes: seq<Outcome>, sources: seq<Source>,
                  cost: CostModel, limit: nat)
    returns (r: Result<Evaluation, EngineError>)
    requires |outcomes| == |sources| == |assets|
    requires forall i :: 0 <= i < |assets| ==>
               && outcomes[i].fingerprint == FingerprintFor(assets[i])
               && (sources[i].Some? ==> Agrees(sources[i], passes(assets[i])))
    ensures Decides(r, assets, passes, sources, cost, limit)
    ensures r.Ok? ==> forall i :: 0 <= i < |assets| ==> r.value.outcomes[i].proof == outcomes[i].proof
  {
    r := ApplyKernelVerdicts(outcomes, sources, cost, limit);
    forall i | 0 <= i < |assets| && sources[i].Some? ensures Unbounded(sources[i].value) == Bool(passes(assets[i])) {
      CheckedArithmeticIsExact(sources[i].value);
    }
  }

  // ledger_invariant

  /** The contributions of the terms to one asset. */
  function Signed(signs: seq<int>, balances: seq<Balances>, asset: Asset): (terms: seq<int>)
    requires |signs| == |balances|
    ensures |terms| == |signs|
    ensures forall i :: 0 <= i < |terms| && signs[i] == 1 ==> terms[i] == ZeroIfNil(balances[i], asset)
    ensures forall i :: 0 <= i < |terms| && signs[i] == -1 ==> terms[i] == -ZeroIfNil(balances[i], asset)
  {
    seq(|signs|, i requires 0 <= i < |signs| => signs[i] * ZeroIfNil(balances[i], asset))
  }

  /** What the terms amount to without regard to their signs. */
  function Gross(terms: seq<int>): nat {
    if terms == [] then 0 else Gross(terms[..|terms| - 1]) + Magnitude(terms[|terms| - 1])
  }

  /** The two sides that should net: together the sum of the terms, apart their gross amount. */
  predicate ProvesNet(proof: Figures, terms: seq<int>, tolerance: int) {
    && {"positive", "negative", "tolerance"} == proof.Keys
    && proof["positive"] + proof["negative"] == Sum(terms)
    && proof["positive"] - proof["negative"] == Gross(terms)
    && proof["tolerance"] == tolerance
  }

  predicate Nets(terms: seq<int>, tolerance: int) {
    Magnitude(Sum(terms)) <= tolerance
  }

  function InvariantExpression(terms: seq<int>, tolerance: int): Source {
    if terms == [] then None else Some(Le(Abs(Chain(terms)), Lit(tolerance)))
  }

  /** Each contribution followed by the running total it makes. */
  function Interleaved(terms: seq<int>): seq<int> {
    if terms == [] then [] else Interleaved(terms[..|terms| - 1]) + [terms[|terms| - 1], Sum(terms)]
  }

  function InvariantValues(terms: seq<int>): seq<int> {
    Interleaved(terms) + [Sum(terms), Magnitude(Sum(terms))]
  }

  function InvariantSnapshot(terms: seq<int>, tolerance: int): Source {
    SnapshotVerdictExpression(InvariantExpression(terms, tolerance), Nets(terms, tolerance), InvariantValues(terms))
  }

  lemma AllFitAppends(a: seq<int>, b: seq<int>)
    ensures AllFit(a + b) <==> AllFit(a) && AllFit(b)
  {
    assert forall t :: t in a + b <==> t in a || t in b;
  }

  lemma {:induction false} InterleavedFits(terms: seq<int>)
    ensures AllFit(Interleaved(terms)) <==> AllFit(terms) && TotalsFit(terms)
  {
    if terms == [] {
      assert TotalsFit(terms);
    } else {
      var front, last := terms[..|terms| - 1], terms[|terms| - 1];
      assert terms == front + [last];
      InterleavedFits(front);
      TotalsFitSnoc(front, last);
      AllFitAppends(Interleaved(front), [last, Sum(terms)]);
    }
  }

  /** The values under watch all fit exactly when the expression compiles and does not overflow. */
  lemma InvariantGuardIsExact(terms: seq<int>, tolerance: int)
    requires terms != [] && Fits(tolerance)
    ensures var e := InvariantExpression(terms, tolerance).value;
            AllFit(InvariantValues(terms)) <==> TypeOf(e) == Some(BoolType) && Eval(e).Ok?
  {
    InterleavedFits(terms);
    ChainEvaluates(terms);
    ComparesMagnitude(Chain(terms), tolerance);
    AllFitAppends(Interleaved(terms), [Sum(terms), Magnitude(Sum(terms))]);
    if TotalsFit(terms) {
      assert terms[..|terms|] == terms;
    }
    assert Sum(terms) in [Sum(terms), Magnitude(Sum(terms))];
    assert Magnitude(Sum(terms)) in [Sum(terms), Magnitude(Sum(terms))];
  }

  lemma InvariantSnapshotAgrees(terms: seq<int>, tolerance: int)
    requires terms != [] && Fits(tolerance)
    ensures Agrees(InvariantSnapshot(terms, tolerance), Nets(terms, tolerance))
  {
    InvariantGuardIsExact(terms, tolerance);
    ChainEvaluates(terms);
    ComparesMagnitude(Chain(terms), tolerance);
    if AllFit(InvariantValues(terms)) { CheckedArithmeticIsExact(Chain(terms)); }
  }

  /** The direct computation for one asset: the verdict, the two sides that should net, and the
      expression for the kernel. */
  method InvariantOutcome(signs: seq<int>, balances: seq<Balances>, asset: Asset, tolerance: int)
    returns (outcome: Outcome, source: Source)
    requires |signs| == |balances|
    ensures var terms := Signed(signs, balances, asset);
            && outcome.fingerprint == FingerprintFor(asset)
            && (outcome.passed <==> Nets(terms, tolerance))
            && source == InvariantSnapshot(terms, tolerance)
            && ProvesNet(outcome.proof, terms, tolerance)
  {
    var signedSum, grossPos, grossNeg, runningSum := 0, 0, 0, 0;
    var termValues: seq<int>, celValues: seq<int> := [], [];
    ghost var terms := Signed(signs, balances, asset);
    for i := 0 to |signs|
      invariant termValues == terms[..i]
      invariant celValues == Interleaved(terms[..i])
      invariant signedSum == runningSum == Sum(terms[..i])
      invariant grossPos + grossNeg == signedSum && grossPos - grossNeg == Gross(terms[..i])
    {
      var v := ZeroIfNil(balances[i], asset);
      var signed := signs[i] * v;
      assert terms[..i + 1][..i] == terms[..i] && terms[..i + 1] == terms[..i] + [signed];
      signedSum := signedSum + signed;
      if signed < 0 {
        grossNeg := grossNeg + signed;
      } else {
        grossPos := grossPos + signed;
      }
      termValues := termValues + [signed];
      runningSum := runningSum + signed;
      celValues := celValues + [signed, runningSum];
    }
    assert terms[..|signs|] == terms;
    var driftAbs := if signedSum < 0 then -signedSum else signedSum;
    var passed := driftAbs <= tolerance;
    outcome := Outcome(FingerprintFor(asset), passed,
                       map["positive" := grossPos, "negative" := grossNeg, "tolerance" := tolerance]);
    celValues := celValues + [signedSum, driftAbs];
    source := SnapshotVerdictExpression(if termValues == [] then None else Some(Le(Abs(Chain(termValues)), Lit(tolerance))),
                                        passed, celValues);
  }

  function InvariantSources(signs: seq<int>, balances: seq<Balances>, tolerance: map<Asset, int>, assets: seq<Asset>): seq<Source>
    requires |signs| == |balances| && forall a :: a in assets ==> a in tolerance
  {
    seq(|assets|, i requires 0 <= i < |assets| => InvariantSnapshot(Signed(signs, balances, assets[i]), tolerance[assets[i]]))
  }

  method InvariantOutcomes(signs: seq<int>, balances: seq<Balances>, tolerance: map<Asset, int>, keys: seq<Asset>)
    returns (outcomes: seq<Outcome>, sources: seq<Source>)
    requires |signs| == |balances| && forall a :: a in keys ==> a in tolerance
    ensures |outcomes| == |keys| && forall i :: 0 <= i < |keys| ==> outcomes[i].fingerprint == FingerprintFor(keys[i])
    ensures forall i :: 0 <= i < |keys| ==> ProvesNet(outcomes[i].proof, Signed(signs, balances, keys[i]), tolerance[keys[i]])
    ensures sources == InvariantSources(signs, balances, tolerance, keys)
  {
    outcomes, sources := [], [];
    for i := 0 to |keys|
      invariant |outcomes| == |sources| == i
      invariant forall j :: 0 <= j < i ==>
                  && outcomes[j].fingerprint == FingerprintFor(keys[j])
                  && ProvesNet(outcomes[j].proof, Signed(signs, balances, keys[j]), tolerance[keys[j]])
                  && sources[j] == InvariantSnapshot(Signed(signs, balances, keys[j]), tolerance[keys[j]])
    {
      var outcome, source := InvariantOutcome(signs, balances, keys[i], tolerance[keys[i]]);
      outcomes, sources := outcomes + [outcome], sources + [source];
    }
  }

  lemma InvariantSourcesAgree(signs: seq<int>, balances: seq<Balances>, tolerance: map<Asset, int>, keys: seq<Asset>)
    requires |signs| == |balances| && forall a :: a in keys ==> a in tolerance
    requires forall a :: a in tolerance ==> Fits(tolerance[a])
    ensures var sources := InvariantSources(signs, balances, tolerance, keys);
            forall i :: 0 <= i < |keys| ==>
              if signs == [] then sources[i].None?
              else Agrees(sources[i], Nets(Signed(signs, balances, keys[i]), tolerance[keys[i]]))
  {
    forall i | 0 <= i < |keys|
      ensures var source := InvariantSources(signs, balances, tolerance, keys)[i];
              if signs == [] then source.None?
              else Agrees(source, Nets(Signed(signs, balances, keys[i]), tolerance[keys[i]]))
    {
      if signs == [] {
        EmptyInvariantIsMalformed(tolerance[keys[i]]);
        assert Signed(signs, balances, keys[i]) == [];
      } else {
        InvariantSnapshotAgrees(Signed(signs, balances, keys[i]), tolerance[keys[i]]);
      }
    }
  }

  /** Checks the assets the tolerance names, and no others. */
  method EvaluateInvariant(signs: seq<int>, balances: seq<Balances>, tolerance: map<Asset, int>, cost: CostModel, limit: nat)
    returns (r: Result<Evaluation, EngineError>, ghost assets: seq<Asset>)
    requires |signs| == |balances|
    requires forall a :: a in tolerance ==> Fits(tolerance[a])
    ensures Enumerates(assets, tolerance.Keys)
    ensures Decides(r, assets, a => a in tolerance && Nets(Signed(signs, balances, a), tolerance[a]),
                    InvariantSources(signs, balances, tolerance, assets), cost, limit)
    ensures signs != [] ==> r.Ok? || r.error == BudgetExceeded
    ensures r.Ok? ==> forall i :: 0 <= i < |assets| ==>
              && assets[i] in tolerance
              && (r.value.outcomes[i].passed <==> Within(Sum(Signed(signs, balances, assets[i])), tolerance, assets[i]))
    ensures r.Ok? ==> forall i :: 0 <= i < |assets| ==>
              && assets[i] in tolerance
              && ProvesNet(r.value.outcomes[i].proof, Signed(signs, balances, assets[i]), tolerance[assets[i]])
  {
    var keys := SortedKeys(tolerance.Keys);
    assets := keys;
    var outcomes, sources := InvariantOutcomes(signs, balances, tolerance, keys);
    InvariantSourcesAgree(signs, balances, tolerance, keys);
    r := Conclude(keys, a => a in tolerance && Nets(Signed(signs, balances, a), tolerance[a]), outcomes, sources, cost, limit);
    forall i | 0 <= i < |keys|
      ensures Nets(Signed(signs, balances, keys[i]), tolerance[keys[i]]) <==>
                Within(Sum(Signed(signs, balances, keys[i])), tolerance, keys[i])
    {
    }
  }

  lemma EmptyInvariantIsMalformed(tolerance: int)
    ensures InvariantSnapshot([], tolerance).None?
  {
    assert InvariantValues([]) == [0, 0];
  }

  // ledger_vs_pool_drift

  function EffectiveLedgerSign(sign: int): int {
    if sign == 0 then 1 else sign
  }

  predicate DriftWithin(sign: int, ledger: int, pool: int, tolerance: int) {
    Magnitude(EffectiveLedgerSign(sign) * ledger + pool) <= tolerance
  }

  function DriftExpression(ledger: int, pool: int, tolerance: int): Expr {
    Le(Abs(Add(Lit(ledger), Lit(pool))), Lit(tolerance))
  }

  function DriftValues(sign: int, ledger: int, pool: int): seq<int> {
    var signed := EffectiveLedgerSign(sign) * ledger;
    [ledger, signed, pool, signed + pool, Magnitude(signed + pool)]
  }

  function DriftSnapshot(sign: int, ledger: int, pool: int, tolerance: int): Source {
    SnapshotVerdictExpression(Some(DriftExpression(EffectiveLedgerSign(sign) * ledger, pool, tolerance)),
                              DriftWithin(sign, ledger, pool, tolerance), DriftValues(sign, ledger, pool))
  }

  /** The watch on the drift is exact but for one ledger balance: 2^63 with a negative sign, whose
      negation fits though it does not. The expression would have evaluated; the verdict is the same. */
  lemma DriftGuardIsExactButForOneBalance(sign: int, ledger: int, pool: int, tolerance: int)
    requires sign in {-1, 0, 1} && Fits(tolerance)
    ensures var e := DriftExpression(EffectiveLedgerSign(sign) * ledger, pool, tolerance);
            AllFit(DriftValues(sign, ledger, pool)) <==>
              TypeOf(e) == Some(BoolType) && Eval(e).Ok? && !(sign == -1 && ledger == MAX_INT64 + 1)
  {
    FiveFit(DriftValues(sign, ledger, pool));
    ComparesMagnitude(Add(Lit(EffectiveLedgerSign(sign) * ledger), Lit(pool)), tolerance);
  }

  lemma FiveFit(values: seq<int>)
    requires |values| == 5
    ensures AllFit(values) <==> Fits(values[0]) && Fits(values[1]) && Fits(values[2]) && Fits(values[3]) && Fits(values[4])
  {
  }

  lemma DriftSnapshotAgrees(sign: int, ledger: int, pool: int, tolerance: int)
    requires Fits(tolerance)
    ensures Agrees(DriftSnapshot(sign, ledger, pool, tolerance), DriftWithin(sign, ledger, pool, tolerance))
  {
    FiveFit(DriftValues(sign, ledger, pool));
    ComparesMagnitude(Add(Lit(EffectiveLedgerSign(sign) * ledger), Lit(pool)), tolerance);
  }

  /** What ledger and pool amount to together. A ledger counts as it is unless its sign is negative. */
  function SignedDrift(sign: int, ledger: Balances, pool: Balances, asset: Asset): (drift: int)
    ensures sign == 0 || sign == 1 ==> drift == ZeroIfNil(pool, asset) + ZeroIfNil(ledger, asset)
    ensures sign == -1 ==> drift == ZeroIfNil(pool, asset) - ZeroIfNil(ledger, asset)
  {
    (if sign == 0 then 1 else sign) * ZeroIfNil(ledger, asset) + ZeroIfNil(pool, asset)
  }

  function ToleranceOf(tolerance: map<Asset, int>, asset: Asset): int {
    if asset in tolerance then tolerance[asset] else 0
  }

  function DriftSource(sign: int, ledger: Balances, pool: Balances, tolerance: map<Asset, int>, asset: Asset): Source {
    DriftSnapshot(sign, ZeroIfNil(ledger, asset), ZeroIfNil(pool, asset), ToleranceOf(tolerance, asset))
  }

  lemma DriftSourceAgrees(sign: int, ledger: Balances, pool: Balances, tolerance: map<Asset, int>, asset: Asset)
    requires forall a :: a in tolerance ==> Fits(tolerance[a])
    ensures Agrees(DriftSource(sign, ledger, pool, tolerance, asset), DriftPasses(sign, ledger, pool, tolerance, asset))
  {
    DriftSnapshotAgrees(sign, ZeroIfNil(ledger, asset), ZeroIfNil(pool, asset), ToleranceOf(tolerance, asset));
  }

  function DriftSources(sign: int, ledger: Balances, pool: Balances, tolerance: map<Asset, int>, assets: seq<Asset>): seq<Source> {
    seq(|assets|, i requires 0 <= i < |assets| => DriftSource(sign, ledger, pool, tolerance, assets[i]))
  }

  predicate DriftPasses(sign: int, ledger: Balances, pool: Balances, tolerance: map<Asset, int>, asset: Asset) {
    DriftWithin(sign, ZeroIfNil(ledger, asset), ZeroIfNil(pool, asset), ToleranceOf(tolerance, asset))
  }

  lemma DriftPassesWithin(sign: int, ledger: Balances, pool: Balances, tolerance: map<Asset, int>, asset: Asset)
    ensures DriftPasses(sign, ledger, pool, tolerance, asset) <==>
              Within(SignedDrift(sign, ledger, pool, asset), tolerance, asset)
  {
  }

  function DriftProof(sign: int, ledger: Balances, pool: Balances, tolerance: map<Asset, int>, asset: Asset): Figures {
    map["ledger" := ZeroIfNil(ledger, asset), "ledgerSign" := EffectiveLedgerSign(sign), "pool" := ZeroIfNil(pool, asset),
        "tolerance" := ToleranceOf(tolerance, asset)]
  }

  method DriftOutcome(sign: int, ledger: Balances, pool: Balances, tolerance: map<Asset, int>, asset: Asset)
    returns (outcome: Outcome, source: Source)
    ensures outcome == Outcome(FingerprintFor(asset), DriftPasses(sign, ledger, pool, tolerance, asset),
                               DriftProof(sign, ledger, pool, tolerance, asset))
    ensures source == DriftSource(sign, ledger, pool, tolerance, asset)
  {
    var allowed, effective := ToleranceOf(tolerance, asset), EffectiveLedgerSign(sign);
    var rawLedger := ZeroIfNil(ledger, asset);
    var ledgerVal := effective * rawLedger;
    var poolVal := ZeroIfNil(pool, asset);
    var drift := ledgerVal + poolVal;
    var driftAbs := if drift < 0 then -drift else drift;
    var passed := driftAbs <= allowed;
    outcome := Outcome(FingerprintFor(asset), passed,
                       map["ledger" := rawLedger, "ledgerSign" := effective, "pool" := poolVal, "tolerance" := allowed]);
    source := SnapshotVerdictExpression(Some(DriftExpression(ledgerVal, poolVal, allowed)), passed,
                                        [rawLedger, ledgerVal, poolVal, drift, driftAbs]);
  }

  method DriftOutcomes(sign: int, ledger: Balances, pool: Balances, tolerance: map<Asset, int>, keys: seq<Asset>)
    returns (outcomes: seq<Outcome>, sources: seq<Source>)
    ensures |outcomes| == |keys|
    ensures forall i :: 0 <= i < |keys| ==>
              && outcomes[i].fingerprint == FingerprintFor(keys[i])
              && outcomes[i].proof == DriftProof(sign, ledger, pool, tolerance, keys[i])
    ensures sources == DriftSources(sign, ledger, pool, tolerance, keys)
  {
    outcomes, sources := [], [];
    for i := 0 to |keys|
      invariant |outcomes| == |sources| == i
      invariant forall j :: 0 <= j < i ==>
                  && outcomes[j].fingerprint == FingerprintFor(keys[j])
                  && outcomes[j].proof == DriftProof(sign, ledger, pool, tolerance, keys[j])
                  && sources[j] == DriftSource(sign, ledger, pool, tolerance, keys[j])
    {
      var outcome, source := DriftOutcome(sign, ledger, pool, tolerance, keys[i]);
      outcomes, sources := outcomes + [outcome], sources + [source];
    }
  }

  /** Checks every asset either side knows. */
  method EvaluateDrift(sign: int, ledger: Balances, pool: Balances, tolerance: map<Asset, int>, cost: CostModel, limit: nat)
    returns (r: Result<Evaluation, EngineError>, ghost assets: seq<Asset>)
    requires forall a :: a in tolerance ==> Fits(tolerance[a])
    ensures Enumerates(assets, ledger.Keys + pool.Keys)
    ensures Decides(r, assets, a => DriftPasses(sign, ledger, pool, tolerance, a),
                    DriftSources(sign, ledger, pool, tolerance, assets), cost, limit)
    ensures r.Ok? || r.error == BudgetExceeded
    ensures r.Ok? ==> forall i :: 0 <= i < |assets| ==>
              (r.value.outcomes[i].passed <==> Within(SignedDrift(sign, ledger, pool, assets[i]), tolerance, assets[i]))
    ensures r.Ok? ==> forall i :: 0 <= i < |assets| ==>
              var a := assets[i];
              r.value.outcomes[i].proof ==
              map["ledger" := ZeroIfNil(ledger, a), "ledgerSign" := if sign == 0 then 1 else sign, "pool" := ZeroIfNil(pool, a),
                  "tolerance" := if a in tolerance then tolerance[a] else 0]
  {
    var keys := SortedKeys(ledger.Keys + pool.Keys);
    assets := keys;
    var outcomes, sources := DriftOutcomes(sign, ledger, pool, tolerance, keys);
    forall i | 0 <= i < |keys| ensures Agrees(sources[i], DriftPasses(sign, ledger, pool, tolerance, keys[i])) {
      DriftSourceAgrees(sign, ledger, pool, tolerance, keys[i]);
    }
    r := Conclude(keys, a => DriftPasses(sign, ledger, pool, tolerance, a), outcomes, sources, cost, limit);
    forall i | 0 <= i < |keys|
      ensures DriftPasses(sign, ledger, pool, tolerance, keys[i]) <==>
                Within(SignedDrift(sign, ledger, pool, keys[i]), tolerance, keys[i])
    {
      DriftPassesWithin(sign, ledger, pool, tolerance, keys[i]);
    }
  }

  // source_parity

  predicate DiffersWithin(left: int, right: int, tolerance: int) {
    Magnitude(left - right) <= tolerance
  }

  function ParityExpression(left: int, right: int, tolerance: int): Expr {
    Le(Abs(Sub(Lit(left), Lit(right))), Lit(tolerance))
  }

  function ParityValues(left: int, right: int): seq<int> {
    [left, right, left - right, Magnitude(left - right)]
  }

  function ParitySnapshot(left: int, right: int, tolerance: int): Source {
    SnapshotVerdictExpression(Some(ParityExpression(left, right, tolerance)), DiffersWithin(left, right, tolerance),
                              ParityValues(left, right))
  }

  lemma FourFit(values: seq<int>)
    requires |values| == 4
    ensures AllFit(values) <==> Fits(values[0]) && Fits(values[1]) && Fits(values[2]) && Fits(values[3])
  {
  }

  lemma ParityGuardIsExact(left: int, right: int, tolerance: int)
    requires Fits(tolerance)
    ensures var e := ParityExpression(left, right, tolerance);
            AllFit(ParityValues(left, right)) <==> TypeOf(e) == Some(BoolType) && Eval(e).Ok?
  {
    FourFit(ParityValues(left, right));
    ComparesMagnitude(Sub(Lit(left), Lit(right)), tolerance);
  }

  lemma ParitySnapshotAgrees(left: int, right: int, tolerance: int)
    requires Fits(tolerance)
    ensures Agrees(ParitySnapshot(left, right, tolerance), DiffersWithin(left, right, tolerance))
  {
    FourFit(ParityValues(left, right));
    ComparesMagnitude(Sub(Lit(left), Lit(right)), tolerance);
  }

  predicate ParityPasses(left: Balances, right: Balances, tolerance: map<Asset, int>, asset: Asset) {
    DiffersWithin(ZeroIfNil(left, asset), ZeroIfNil(right, asset), ToleranceOf(tolerance, asset))
  }

  function ParitySource(left: Balances, right: Balances, tolerance: map<Asset, int>, asset: Asset): Source {
    ParitySnapshot(ZeroIfNil(left, asset), ZeroIfNil(right, asset), ToleranceOf(tolerance, asset))
  }

  lemma ParitySourceAgrees(left: Balances, right: Balances, tolerance: map<Asset, int>, asset: Asset)
    requires forall a :: a in tolerance ==> Fits(tolerance[a])
    ensures Agrees(ParitySource(left, right, tolerance, asset), ParityPasses(left, right, tolerance, asset))
  {
    ParitySnapshotAgrees(ZeroIfNil(left, asset), ZeroIfNil(right, asset), ToleranceOf(tolerance, asset));
  }

  function ParitySources(left: Balances, right: Balances, tolerance: map<Asset, int>, assets: seq<Asset>): seq<Source> {
    seq(|assets|, i requires 0 <= i < |assets| => ParitySource(left, right, tolerance, assets[i]))
  }

  lemma ParityPassesWithin(left: Balances, right: Balances, tolerance: map<Asset, int>, asset: Asset)
    ensures ParityPasses(left, right, tolerance, asset) <==>
              Within(ZeroIfNil(left, asset) - ZeroIfNil(right, asset), tolerance, asset)
  {
  }

  function ParityProof(left: Balances, right: Balances, tolerance: map<Asset, int>, asset: Asset): Figures {
    map["left" := ZeroIfNil(left, asset), "right" := ZeroIfNil(right, asset), "tolerance" := ToleranceOf(tolerance, asset)]
  }

  method ParityOutcome(left: Balances, right: Balances, tolerance: map<Asset, int>, asset: Asset)
    returns (outcome: Outcome, source: Source)
    ensures outcome == Outcome(FingerprintFor(asset), ParityPasses(left, right, tolerance, asset),
                               ParityProof(left, right, tolerance, asset))
    ensures source == ParitySource(left, right, tolerance, asset)
  {
    var allowed := ToleranceOf(tolerance, asset);
    var leftVal, rightVal := ZeroIfNil(left, asset), ZeroIfNil(right, asset);
    var diff := leftVal - rightVal;
    var diffAbs := if diff < 0 then -diff else diff;
    var passed := diffAbs <= allowed;
    outcome := Outcome(FingerprintFor(asset), passed, map["left" := leftVal, "right" := rightVal, "tolerance" := allowed]);
    source := SnapshotVerdictExpression(Some(ParityExpression(leftVal, rightVal, allowed)), passed,
                                        [leftVal, rightVal, diff, diffAbs]);
  }

  method ParityOutcomes(left: Balances, right: Balances, tolerance: map<Asset, int>, keys: seq<Asset>)
    returns (outcomes: seq<Outcome>, sources: seq<Source>)
    ensures |outcomes| == |keys|
    ensures forall i :: 0 <= i < |keys| ==>
              && outcomes[i].fingerprint == FingerprintFor(keys[i])
              && outcomes[i].proof == ParityProof(left, right, tolerance, keys[i])
    ensures sources == ParitySources(left, right, tolerance, keys)
  {
    outcomes, sources := [], [];
    for i := 0 to |keys|
      invariant |outcomes| == |sources| == i
      invariant forall j :: 0 <= j < i ==>
                  && outcomes[j].fingerprint == FingerprintFor(keys[j])
                  && outcomes[j].proof == ParityProof(left, right, tolerance, keys[j])
                  && sources[j] == ParitySource(left, right, tolerance, keys[j])
    {
      var outcome, source := ParityOutcome(left, right, tolerance, keys[i]);
      outcomes, sources := outcomes + [outcome], sources + [source];
    }
  }

  method EvaluateParity(left: Balances, right: Balances, tolerance: map<Asset, int>, cost: CostModel, limit: nat)
    returns (r: Result<Evaluation, EngineError>, ghost assets: seq<Asset>)
    requires forall a :: a in tolerance ==> Fits(tolerance[a])
    ensures Enumerates(assets, left.Keys + right.Keys)
    ensures Decides(r, assets, a => ParityPasses(left, right, tolerance, a),
                    ParitySources(left, right, tolerance, assets), cost, limit)
    ensures r.Ok? || r.error == BudgetExceeded
    ensures r.Ok? ==> forall i :: 0 <= i < |assets| ==>
              (r.value.outcomes[i].passed <==> Within(ZeroIfNil(left, assets[i]) - ZeroIfNil(right, assets[i]), tolerance, assets[i]))
    ensures r.Ok? ==> forall i :: 0 <= i < |assets| ==>
              var a := assets[i];
              r.value.outcomes[i].proof ==
              map["left" := ZeroIfNil(left, a), "right" := ZeroIfNil(right, a),
                  "tolerance" := if a in tolerance then tolerance[a] else 0]
  {
    var keys := SortedKeys(left.Keys + right.Keys);
    assets := keys;
    var outcomes, sources := ParityOutcomes(left, right, tolerance, keys);
    forall i | 0 <= i < |keys| ensures Agrees(sources[i], ParityPasses(left, right, tolerance, keys[i])) {
      ParitySourceAgrees(left, right, tolerance, keys[i]);
    }
    r := Conclude(keys, a => ParityPasses(left, right, tolerance, a), outcomes, sources, cost, limit);
    forall i | 0 <= i < |keys|
      ensures ParityPasses(left, right, tolerance, keys[i]) <==>
                Within(ZeroIfNil(left, keys[i]) - ZeroIfNil(right, keys[i]), tolerance, keys[i])
    {
      ParityPassesWithin(left, right, tolerance, keys[i]);
    }
  }

  // account_threshold

  datatype Bounds = Bounds(min: Option<int>, max: Option<int>)
  {
    predicate Fit() { (min.Some? ==> Fits(min.value)) && (max.Some? ==> Fits(max.value)) }

    predicate Admit(value: int) { (min.Some? ==> min.value <= value) && (max.Some? ==> value <= max.value) }
  }

  function ThresholdPassed(value: int, bounds: Bounds): (passed: bool)
    ensures passed <==> bounds.Admit(value)
  {
    if bounds.min.Some? && value < bounds.min.value then false
    else if bounds.max.Some? && value > bounds.max.value then false
    else true
  }

  /** The bounds joined with &&; an expression without any is empty text. */
  function ThresholdExpression(value: int, bounds: Bounds): Source {
    match (bounds.min, bounds.max)
    case (Some(min), Some(max)) => Some(And(Ge(Lit(value), Lit(min)), Le(Lit(value), Lit(max))))
    case (Some(min), None) => Some(Ge(Lit(value), Lit(min)))
    case (None, Some(max)) => Some(Le(Lit(value), Lit(max)))
    case (None, None) => None
  }

  function ThresholdSnapshot(value: int, bounds: Bounds): Source {
    SnapshotVerdictExpression(ThresholdExpression(value, bounds), ThresholdPassed(value, bounds), [value])
  }

  lemma ComparesLiterals(value: int, bound: int)
    requires Fits(bound)
    ensures Fits(value) ==>
              && TypeOf(Ge(Lit(value), Lit(bound))) == TypeOf(Le(Lit(value), Lit(bound))) == Some(BoolType)
              && Eval(Ge(Lit(value), Lit(bound))) == Ok(Bool(value >= bound))
              && Eval(Le(Lit(value), Lit(bound))) == Ok(Bool(value <= bound))
  {
  }

  /** Bounds that bound nothing make an expression that does not compile, unless the value is too
      large for the kernel anyway. */
  lemma ThresholdSnapshotAgrees(value: int, bounds: Bounds)
    requires bounds.Fit()
    ensures var source := ThresholdSnapshot(value, bounds);
            && (source.Some? ==> Agrees(source, bounds.Admit(value)))
            && (source.None? <==> bounds == Bounds(None, None) && Fits(value))
  {
    assert [value][0] == value;
    assert AllFit([value]) <==> Fits(value);
    match (bounds.min, bounds.max) {
      case (Some(min), Some(max)) =>
        ComparesLiterals(value, min);
        ComparesLiterals(value, max);
      case (Some(min), None) => ComparesLiterals(value, min);
      case (None, Some(max)) => ComparesLiterals(value, max);
      case (None, None) =>
    }
  }

  /** The balance with the bounds there are. */
  function ThresholdProof(value: int, bounds: Bounds): (proof: Figures)
    ensures proof.Keys == {"balance"} + (if bounds.min.Some? then {"min"} else {}) + (if bounds.max.Some? then {"max"} else {})
    ensures proof["balance"] == value
    ensures bounds.Admit(value) <==>
              ("min" in proof ==> proof["min"] <= proof["balance"]) && ("max" in proof ==> proof["balance"] <= proof["max"])
  {
    var proof := map["balance" := value];
    var proof := if bounds.min.Some? then proof["min" := bounds.min.value] else proof;
    if bounds.max.Some? then proof["max" := bounds.max.value] else proof
  }

  function ThresholdSources(balances: Balances, bounds: map<Asset, Bounds>, assets: seq<Asset>): seq<Source>
    requires forall a :: a in assets ==> a in bounds
  {
    seq(|assets|, i requires 0 <= i < |assets| => ThresholdSnapshot(ZeroIfNil(balances, assets[i]), bounds[assets[i]]))
  }

  method ThresholdOutcomes(balances: Balances, bounds: map<Asset, Bounds>, keys: seq<Asset>)
    returns (outcomes: seq<Outcome>, sources: seq<Source>)
    requires forall a :: a in keys ==> a in bounds
    ensures |outcomes| == |keys|
    ensures forall i :: 0 <= i < |keys| ==>
              && outcomes[i].fingerprint == FingerprintFor(keys[i])
              && outcomes[i].proof == ThresholdProof(ZeroIfNil(balances, keys[i]), bounds[keys[i]])
    ensures sources == ThresholdSources(balances, bounds, keys)
  {
    outcomes, sources := [], [];
    for i := 0 to |keys|
      invariant |outcomes| == |sources| == i
      invariant forall j :: 0 <= j < i ==>
                  && outcomes[j].fingerprint == FingerprintFor(keys[j])
                  && outcomes[j].proof == ThresholdProof(ZeroIfNil(balances, keys[j]), bounds[keys[j]])
                  && sources[j] == ThresholdSnapshot(ZeroIfNil(balances, keys[j]), bounds[keys[j]])
    {
      var value := ZeroIfNil(balances, keys[i]);
      var passed := ThresholdPassed(value, bounds[keys[i]]);
      outcomes := outcomes + [Outcome(FingerprintFor(keys[i]), passed, ThresholdProof(value, bounds[keys[i]]))];
      sources := sources + [SnapshotVerdictExpression(ThresholdExpression(value, bounds[keys[i]]), passed, [value])];
    }
  }

  method EvaluateThreshold(balances: Balances, bounds: map<Asset, Bounds>, cost: CostModel, limit: nat)
    returns (r: Result<Evaluation, EngineError>, ghost assets: seq<Asset>)
    requires forall a :: a in bounds ==> bounds[a].Fit()
    ensures Enumerates(assets, bounds.Keys)
    ensures Decides(r, assets, a => a in bounds && bounds[a].Admit(ZeroIfNil(balances, a)),
                    ThresholdSources(balances, bounds, assets), cost, limit)
    ensures (forall a :: a in bounds ==> bounds[a] != Bounds(None, None)) ==> r.Ok? || r.error == BudgetExceeded
    ensures r.Ok? ==> forall i :: 0 <= i < |assets| && assets[i] in bounds ==>
              var b, value := bounds[assets[i]], ZeroIfNil(balances, assets[i]);
              && (r.value.outcomes[i].passed <==> !(b.min.Some? && value < b.min.value) && !(b.max.Some? && value > b.max.value))
              && r.value.outcomes[i].proof == ThresholdProof(value, b)
  {
    var keys := SortedKeys(bounds.Keys);
    assets := keys;
    var outcomes, sources := ThresholdOutcomes(balances, bounds, keys);
    forall i | 0 <= i < |keys|
      ensures sources[i].Some? ==> Agrees(sources[i], bounds[keys[i]].Admit(ZeroIfNil(balances, keys[i])))
      ensures sources[i].None? ==> bounds[keys[i]] == Bounds(None, None)
    {
      ThresholdSnapshotAgrees(ZeroIfNil(balances, keys[i]), bounds[keys[i]]);
    }
    r := Conclude(keys, a => a in bounds && bounds[a].Admit(ZeroIfNil(balances, a)), outcomes, sources, cost, limit);
  }

  // Across templates

  /** A negative ledger sign turns the drift check into parity of ledger against pool. */
  lemma NegatedDriftIsParity(ledger: Balances, pool: Balances, tolerance: map<Asset, int>, asset: Asset)
    ensures DriftPasses(-1, ledger, pool, tolerance, asset) <==> ParityPasses(ledger, pool, tolerance, asset)
    ensures DriftPasses(-1, ledger, pool, tolerance, asset) <==> ParityPasses(pool, ledger, tolerance, asset)
  {
  }

  function Negated(signs: seq<int>): (negated: seq<int>)
    ensures |negated| == |signs|
  {
    seq(|signs|, i requires 0 <= i < |signs| => -signs[i])
  }

  /** Only the relative signs of an invariant matter: turning all of them around changes no verdict. */
  lemma {:induction false} SignsAreRelative(signs: seq<int>, balances: seq<Balances>, asset: Asset, tolerance: int)
    requires |signs| == |balances|
    ensures var opposite := Negated(signs);
            && Sum(Signed(opposite, balances, asset)) == -Sum(Signed(signs, balances, asset))
            && (Nets(Signed(opposite, balances, asset), tolerance) <==> Nets(Signed(signs, balances, asset), tolerance))
    decreases |signs|
  {
    if signs != [] {
      var n := |signs| - 1;
      SignsAreRelative(signs[..n], balances[..n], asset, tolerance);
      SignedSnoc(signs, balances, asset);
      var opposite := Negated(signs);
      SignedSnoc(opposite, balances, asset);
      assert opposite[..n] == Negated(signs[..n]);
      Opposite(signs[n], ZeroIfNil(balances[n], asset));
    }
  }

  lemma SignedSnoc(signs: seq<int>, balances: seq<Balances>, asset: Asset)
    requires |signs| == |balances| > 0
    ensures var n := |signs| - 1;
            Sum(Signed(signs, balances, asset)) ==
            Sum(Signed(signs[..n], balances[..n], asset)) + signs[n] * ZeroIfNil(balances[n], asset)
  {
    var n := |signs| - 1;
    assert Signed(signs, balances, asset)[..n] == Signed(signs[..n], balances[..n], asset);
  }

  lemma Opposite(sign: int, v: int)
    ensures -sign * v == -(sign * v)
  {
  }
}
