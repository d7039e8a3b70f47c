/** The older policy check, and how far it is the drift template. */
module Legacy {
  import opened Wrappers
  import opened Kernel
  import opened Templates

  datatype Status = OK | NotOK

  datatype DriftError = MissingInLedger(asset: Asset) | MissingInPayments(asset: Asset) | Drifted(asset: Asset)

  datatype Reconciliation = Reconciliation(status: Status, errors: seq<DriftError>, ledger: Balances, payments: Balances,
                                           drift: map<Asset, nat>)

  // What a reconciliation amounts to

  /** One side of an asset; a side that does not know the asset counts as zero. */
  function Side(balances: Balances, asset: Asset): Option<int> {
    if asset in balances then balances[asset] else Some(0)
  }

  function Universe(ledger: Balances, payments: Balances): set<Asset> {
    ledger.Keys + payments.Keys
  }

  function Complaint(asset: Asset, ledger: Option<int>, payments: Option<int>): Option<DriftError> {
    match (ledger, payments)
    case (None, None) => None
    case (None, Some(_)) => Some(MissingInLedger(asset))
    case (Some(_), None) => Some(MissingInPayments(asset))
    case (Some(l), Some(p)) => if l + p == 0 then None else Some(Drifted(asset))
  }

  function DriftOf(ledger: Option<int>, payments: Option<int>): Option<nat> {
    match (ledger, payments)
    case (None, None) => None
    case (None, Some(p)) => Some(Magnitude(p))
    case (Some(l), None) => Some(Magnitude(l))
    case (Some(l), Some(p)) => Some(Magnitude(l + p))
  }

  function ComplaintFor(ledger: Balances, payments: Balances, asset: Asset): Option<DriftError> {
    Complaint(asset, Side(ledger, asset), Side(payments, asset))
  }

  function DriftFor(ledger: Balances, payments: Balances, asset: Asset): Option<nat> {
    DriftOf(Side(ledger, asset), Side(payments, asset))
  }

  predicate Balanced(ledger: Balances, payments: Balances) {
    forall a :: a in Universe(ledger, payments) ==> ComplaintFor(ledger, payments, a).None?
  }

  function DriftMap(ledger: Balances, payments: Balances): map<Asset, nat> {
    map a | a in Universe(ledger, payments) && DriftFor(ledger, payments, a).Some? ::
      DriftFor(ledger, payments, a).value
  }

  // The service

  /** Gives both maps the same keys. */
  method HarmonizeBalances(ledger: Balances, payments: Balances) returns (ledger': Balances, payments': Balances)
    ensures ledger'.Keys == payments'.Keys == Universe(ledger, payments)
    ensures forall a :: a in ledger' ==> ledger'[a] == Side(ledger, a) && payments'[a] == Side(payments, a)
  {
    ledger', payments' := ledger, payments;
    var rest := ledger.Keys + payments.Keys;
    while rest != {}
      invariant rest <= Universe(ledger, payments)
      invariant ledger.Keys <= ledger'.Keys && payments.Keys <= payments'.Keys
      invariant ledger'.Keys == ledger.Keys + (Universe(ledger, payments) - rest)
      invariant payments'.Keys == payments.Keys + (Universe(ledger, payments) - rest)
      invariant forall a :: a in ledger' ==> ledger'[a] == Side(ledger, a)
      invariant forall a :: a in payments' ==> payments'[a] == Side(payments, a)
    {
      var asset :| asset in rest;
      rest := rest - {asset};
      if asset !in ledger' {
        ledger' := ledger'[asset := Some(0)];
      }
      if asset !in payments' {
        payments' := payments'[asset := Some(0)];
      }
    }
  }

  method ComputeDrift(drift: map<Asset, nat>, asset: Asset, ledger: Option<int>, payments: Option<int>)
    returns (drift': map<Asset, nat>, error: Option<DriftError>)
    ensures error == Complaint(asset, ledger, payments)
    ensures ledger.None? && payments.Some? ==> error == Some(MissingInLedger(asset))
    ensures ledger.Some? && payments.None? ==> error == Some(MissingInPayments(asset))
    ensures ledger.Some? && payments.Some? ==> error == if ledger.value == -payments.value then None else Some(Drifted(asset))
    ensures drift' == if DriftOf(ledger, payments).Some? then drift[asset := DriftOf(ledger, payments).value] else drift
  {
    drift', error := drift, None;
    if ledger.None? && payments.None? {
      return;
    }
    if ledger.None? {
      var balance := if payments.value < 0 then -payments.value else payments.value;
      drift' := drift'[asset := balance];
      error := Some(MissingInLedger(asset));
    } else if payments.None? {
      var balance := if ledger.value < 0 then -ledger.value else ledger.value;
      drift' := drift'[asset := balance];
      error := Some(MissingInPayments(asset));
    } else {
      var difference := payments.value + ledger.value;
      if difference != 0 {
        error := Some(Drifted(asset));
      }
      drift' := drift'[asset := if difference < 0 then -difference else difference];
    }
  }

  /** The errors list each asset of a set that is out of balance, once. */
  ghost predicate Reports(errors: seq<DriftError>, done: set<Asset>, ledger: Balances, payments: Balances) {
    && (forall e :: e in errors <==> e.asset in done && ComplaintFor(ledger, payments, e.asset) == Some(e))
    && Distinct(errors)
  }

  ghost predicate Drifts(drift: map<Asset, nat>, done: set<Asset>, ledger: Balances, payments: Balances) {
    && (forall a :: a in drift <==> a in done && DriftFor(ledger, payments, a).Some?)
    && (forall a :: a in drift ==> drift[a] == DriftFor(ledger, payments, a).value)
  }

  lemma ReportsOneMore(errors: seq<DriftError>, done: set<Asset>, asset: Asset, ledger: Balances, payments: Balances)
    requires Reports(errors, done, ledger, payments) && asset !in done
    ensures var error := ComplaintFor(ledger, payments, asset);
            Reports(if error.Some? then errors + [error.value] else errors, done + {asset}, ledger, payments)
  {
    var error := ComplaintFor(ledger, payments, asset);
    if error.Some? {
      assert error.value.asset == asset;
      assert forall e :: e in errors + [error.value] <==> e in errors || e == error.value;
    }
  }

  lemma DriftsOneMore(drift: map<Asset, nat>, done: set<Asset>, asset: Asset, ledger: Balances, payments: Balances)
    requires Drifts(drift, done, ledger, payments) && asset !in done
    ensures var d := DriftFor(ledger, payments, asset);
            Drifts(if d.Some? then drift[asset := d.value] else drift, done + {asset}, ledger, payments)
  {
    var d := DriftFor(ledger, payments, asset);
    var drift' := if d.Some? then drift[asset := d.value] else drift;
    forall a
      ensures a in drift' <==> a in done + {asset} && DriftFor(ledger, payments, a).Some?
      ensures a in drift' ==> drift'[a] == DriftFor(ledger, payments, a).value
    {
      assert a != asset ==> (a in drift' <==> a in drift);
    }
  }

  lemma ReportsNothingIffBalanced(errors: seq<DriftError>, ledger: Balances, payments: Balances)
    requires Reports(errors, Universe(ledger, payments), ledger, payments)
    ensures errors == [] <==> Balanced(ledger, payments)
  {
    if errors != [] {
      assert errors[0] in errors;
    }
    if a :| a in Universe(ledger, payments) && ComplaintFor(ledger, payments, a).Some? {
      assert ComplaintFor(ledger, payments, a).value.asset == a;
      assert ComplaintFor(ledger, payments, a).value in errors;
    }
  }

  /** In whatever order the assets come, the status and the drifts are the same, and every asset
      that is out of balance is reported once. */
  method Reconcile(ledger: Balances, payments: Balances) returns (r: Reconciliation)
    ensures r.status == OK <==> Balanced(ledger, payments)
    ensures r.drift == DriftMap(ledger, payments)
    ensures Reports(r.errors, Universe(ledger, payments), ledger, payments)
    ensures r.ledger.Keys == r.payments.Keys == Universe(ledger, payments)
  {
    var ledger', payments' := HarmonizeBalances(ledger, payments);
    var status, errors, drift := CompareAll(ledger', payments', ledger, payments);
    ReportsNothingIffBalanced(errors, ledger, payments);
    r := Reconciliation(status, errors, ledger', payments', drift);
  }

  /** The loop over the assets of the harmonised maps. */
  method CompareAll(ledger': Balances, payments': Balances, ghost ledger: Balances, ghost payments: Balances)
    returns (status: Status, errors: seq<DriftError>, drift: map<Asset, nat>)
    requires ledger'.Keys == payments'.Keys
    requires forall a :: a in ledger' ==> ledger'[a] == Side(ledger, a) && payments'[a] == Side(payments, a)
    ensures status == OK <==> errors == []
    ensures Reports(errors, ledger'.Keys, ledger, payments) && Drifts(drift, ledger'.Keys, ledger, payments)
  {
    status, errors, drift := OK, [], map[];
    var rest := ledger'.Keys;
    ghost var done: set<Asset> := {};
    while rest != {}
      invariant done !! rest && done + rest == ledger'.Keys
      invariant status == OK <==> errors == []
      invariant Reports(errors, done, ledger, payments)
      invariant Drifts(drift, done, ledger, payments)
    {
      var asset :| asset in rest;
      ReportsOneMore(errors, done, asset, ledger, payments);
      DriftsOneMore(drift, done, asset, ledger, payments);
      rest, done := rest - {asset}, done + {asset};
      var error;
      drift, error := ComputeDrift(drift, asset, ledger'[asset], payments'[asset]);
      if error.Some? {
        status, errors := NotOK, errors + [error.value];
      }
    }
    assert done == ledger'.Keys;
  }

  // Against the template

  /** One side reports the asset without an amount, and the other does not. */
  predicate OneSided(ledger: Balances, payments: Balances, asset: Asset) {
    Side(ledger, asset).None? != Side(payments, asset).None?
  }

  /** The policy check is the drift template with sign +1 and zero tolerance over all assets, but
      that the policy check also rejects an amount that is missing on one side only. */
  lemma LegacyIsDriftCheck(ledger: Balances, payments: Balances)
    ensures Balanced(ledger, payments) <==>
            && (forall a :: a in Universe(ledger, payments) ==> DriftPasses(1, ledger, payments, map[], a))
            && (forall a :: a in Universe(ledger, payments) ==> !OneSided(ledger, payments, a))
  {
    forall a | a in Universe(ledger, payments)
      ensures ComplaintFor(ledger, payments, a).None? <==>
              DriftPasses(1, ledger, payments, map[], a) && !OneSided(ledger, payments, a)
    {
    }
  }

  /** The drift it reports is the template's absolute drift, for every asset with an amount. */
  lemma LegacyDriftIsTemplateDrift(ledger: Balances, payments: Balances, asset: Asset)
    requires asset in Universe(ledger, payments)
    ensures asset !in DriftMap(ledger, payments) <==> Side(ledger, asset).None? && Side(payments, asset).None?
    ensures asset in DriftMap(ledger, payments) ==>
              DriftMap(ledger, payments)[asset] == Magnitude(ZeroIfNil(ledger, asset) + ZeroIfNil(payments, asset))
    ensures asset in DriftMap(ledger, payments) ==>
              forall tolerance: map<Asset, int> ::
                DriftPasses(1, ledger, payments, tolerance, asset) <==>
                DriftMap(ledger, payments)[asset] <= if asset in tolerance then tolerance[asset] else 0
  {
  }

  /** A ledger that books a nil amount for an asset payments never saw: the template passes it, the
      policy check does not. */
  lemma OneSidedNilDisagrees(asset: Asset)
    ensures var ledger: Balances := map[asset := None];
            DriftPasses(1, ledger, map[], map[], asset) && !Balanced(ledger, map[])
  {
    var ledger: Balances := map[asset := None];
    assert asset in Universe(ledger, map[]);
    assert ComplaintFor(ledger, map[], asset) == Some(MissingInLedger(asset));
  }
}
