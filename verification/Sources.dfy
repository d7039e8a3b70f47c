/** Where a template reads, at which instants, under which keys it records them, and what makes
    the recorded instants good for a replay. */
module Sources {
  import opened Wrappers
  import opened Templates

  datatype SourceSpec = LedgerSource(ledger: string, query: string) | PoolSource(poolID: string)
  {
    function Label(): string {
      match this
      case LedgerSource(ledger, _) => "ledger:" + ledger
      case PoolSource(poolID) => "pool:" + poolID
    }
  }

  // Keys

  function Decimal(n: nat): string {
    if n < 10 then [DIGITS[n]] else Decimal(n / 10) + [DIGITS[n % 10]]
  }

  const DIGITS: string := "0123456789"

  function Count(labels: seq<string>, name: string): nat {
    if labels == [] then 0
    else Count(labels[..|labels| - 1], name) + if labels[|labels| - 1] == name then 1 else 0
  }

  function KeyFor(name: string, index: nat): string {
    name + "#" + Decimal(index)
  }

  /** One key per label, numbered among the equal labels before it. */
  function Keys(labels: seq<string>): (keys: seq<string>)
    ensures |keys| == |labels|
  {
    if labels == [] then []
    else
      var front, last := labels[..|labels| - 1], labels[|labels| - 1];
      Keys(front) + [KeyFor(last, Count(front, last))]
  }

  class SourceKeyer {
    var seen: map<string, nat>
    ghost var handedOut: seq<string>

    ghost predicate Valid()
      reads this
    {
      forall l :: Count(handedOut, l) == if l in seen then seen[l] else 0
    }

    constructor ()
      ensures Valid() && handedOut == []
    {
      seen, handedOut := map[], [];
    }

    method Key(name: string) returns (key: string)
      requires Valid()
      modifies this
      ensures Valid() && handedOut == old(handedOut) + [name]
      ensures Keys(handedOut) == Keys(old(handedOut)) + [key]
    {
      var i := if name in seen then seen[name] else 0;
      seen := seen[name := i + 1];
      key := name + "#" + Decimal(i);
      assert (handedOut + [name])[..|handedOut|] == handedOut;
      handedOut := handedOut + [name];
    }
  }

  lemma {:induction false} DecimalIsDigits(n: nat)
    ensures '#' !in Decimal(n) && Decimal(n) != []
  {
    assert '#' !in DIGITS;
    if n >= 10 { DecimalIsDigits(n / 10); }
  }

  lemma {:induction false} DecimalIsInjective(m: nat, n: nat)
    requires Decimal(m) == Decimal(n)
    ensures m == n
  {
    DecimalIsDigits(m / 10);
    DecimalIsDigits(n / 10);
    var s := Decimal(m);
    assert forall i, j :: 0 <= i < j < 10 ==> DIGITS[i] != DIGITS[j];
    assert s[|s| - 1] == DIGITS[m % 10] == DIGITS[n % 10];
    if m >= 10 && n >= 10 {
      assert s[..|s| - 1] == Decimal(m / 10) == Decimal(n / 10);
      DecimalIsInjective(m / 10, n / 10);
    }
  }

  lemma SeparatorIsLast(a: string, x: string, b: string, y: string)
    requires a + "#" + x == b + "#" + y && '#' !in x
    ensures |b| <= |a|
  {
    var key := a + "#" + x;
    assert forall k :: |a| < k < |key| ==> key[k] == x[k - |a| - 1];
    assert key[|b|] == '#' by { assert key == b + "#" + y; }
  }

  /** A key can be taken apart in one way only, even when labels contain the separator. */
  lemma KeysAreReadable(a: string, i: nat, b: string, j: nat)
    requires KeyFor(a, i) == KeyFor(b, j)
    ensures a == b && i == j
  {
    DecimalIsDigits(i);
    DecimalIsDigits(j);
    SeparatorIsLast(a, Decimal(i), b, Decimal(j));
    SeparatorIsLast(b, Decimal(j), a, Decimal(i));
    var key := KeyFor(a, i);
    assert key[..|a|] == a && key[..|b|] == b;
    assert key[|a| + 1..] == Decimal(i) && key[|b| + 1..] == Decimal(j);
    DecimalIsInjective(i, j);
  }

  lemma {:induction false} CountGrows(labels: seq<string>, i: nat, name: string)
    requires i < |labels| && labels[i] == name
    ensures Count(labels[..i], name) < Count(labels, name)
  {
    var front := labels[..|labels| - 1];
    if i == |front| {
    } else {
      CountGrows(front, i, name);
      assert front[..i] == labels[..i];
    }
  }

  lemma {:induction false} KeyAt(labels: seq<string>, i: nat)
    requires i < |labels|
    ensures Keys(labels)[i] == KeyFor(labels[i], Count(labels[..i], labels[i]))
  {
    var front := labels[..|labels| - 1];
    if i < |front| {
      KeyAt(front, i);
      assert front[..i] == labels[..i];
    }
  }

  /** What a decimal numeral stands for. */
  function Numeral(s: string): int {
    if s == [] then 0 else 10 * Numeral(s[..|s| - 1]) + (s[|s| - 1] as int - '0' as int)
  }

  lemma {:induction false} DecimalDenotes(n: nat)
    ensures Numeral(Decimal(n)) == n
  {
    assert forall d :: 0 <= d < 10 ==> DIGITS[d] as int - '0' as int == d;
    if n < 10 {
      assert Decimal(n)[..0] == [];
    } else {
      DecimalDenotes(n / 10);
      assert Decimal(n)[..|Decimal(n)| - 1] == Decimal(n / 10);
    }
  }

  lemma {:induction false} CountIsOccurrences(labels: seq<string>, name: string)
    ensures Count(labels, name) == |set j: nat | j < |labels| && labels[j] == name|
  {
    if labels != [] {
      var n := |labels| - 1;
      CountIsOccurrences(labels[..n], name);
      var earlier := set j: nat | j < n && labels[..n][j] == name;
      var all := set j: nat | j < |labels| && labels[j] == name;
      assert all == if labels[n] == name then earlier + {n} else earlier;
    }
  }

  /** A key is its label, the separator, and the number of sources before it with the same label. */
  lemma KeysAreNumbered(labels: seq<string>, i: nat)
    requires i < |labels|
    ensures exists numeral ::
              && Keys(labels)[i] == labels[i] + "#" + numeral
              && Numeral(numeral) == |set j: nat | j < i && labels[j] == labels[i]|
  {
    KeyAt(labels, i);
    var before := labels[..i];
    CountIsOccurrences(before, labels[i]);
    DecimalDenotes(Count(before, labels[i]));
    assert (set j: nat | j < |before| && before[j] == labels[i]) == (set j: nat | j < i && labels[j] == labels[i]);
    assert Keys(labels)[i] == labels[i] + "#" + Decimal(Count(before, labels[i]));
  }

  /** The keys of one template never collide, whatever its labels. */
  lemma KeysAreDistinct(labels: seq<string>)
    ensures Distinct(Keys(labels))
  {
    forall i, j | 0 <= i < j < |labels| ensures Keys(labels)[i] != Keys(labels)[j] {
      KeyAt(labels, i);
      KeyAt(labels, j);
      if labels[i] == labels[j] {
        assert labels[..j][..i] == labels[..i];
        CountGrows(labels[..j], i, labels[i]);
      }
      if Keys(labels)[i] == Keys(labels)[j] {
        KeysAreReadable(labels[i], Count(labels[..i], labels[i]), labels[j], Count(labels[..j], labels[j]));
      }
    }
  }

  // Templates

  datatype Spec =
    | Invariant(terms: seq<SourceSpec>)
    | Drift(ledger: SourceSpec, pool: SourceSpec)
    | Parity(left: SourceSpec, right: SourceSpec)
    | Threshold(source: SourceSpec)
  {
    /** The sources in the order in which the template presents them. */
    function Sources(): seq<SourceSpec> {
      match this
      case Invariant(terms) => terms
      case Drift(ledger, pool) => [ledger, pool]
      case Parity(left, right) => [left, right]
      case Threshold(source) => [source]
    }
  }

  function KeysOf(sources: seq<SourceSpec>): (keys: seq<string>)
    ensures |keys| == |sources|
  {
    Keys(Labels(sources))
  }

  function Labels(sources: seq<SourceSpec>): (labels: seq<string>)
    ensures |labels| == |sources|
  {
    seq(|sources|, i requires 0 <= i < |sources| => sources[i].Label())
  }

  method NextKey(keyer: SourceKeyer, source: SourceSpec, ghost labels: seq<string>, ghost i: nat) returns (key: string)
    requires i < |labels| && labels[i] == source.Label()
    requires keyer.Valid() && keyer.handedOut == labels[..i]
    modifies keyer
    ensures keyer.Valid() && keyer.handedOut == labels[..i + 1]
    ensures key == Keys(labels)[i]
  {
    key := keyer.Key(source.Label());
    assert labels[..i + 1] == labels[..i] + [labels[i]];
    KeysOfPrefix(labels, i + 1);
  }

  lemma {:induction false} KeysOfPrefix(labels: seq<string>, n: nat)
    requires n <= |labels|
    ensures Keys(labels[..n]) == Keys(labels)[..n]
  {
    forall i | 0 <= i < n ensures Keys(labels[..n])[i] == Keys(labels)[i] {
      KeyAt(labels[..n], i);
      KeyAt(labels, i);
      assert labels[..n][..i] == labels[..i];
    }
  }

  method SourceKeys(spec: Spec) returns (keys: seq<string>)
    ensures keys == KeysOf(spec.Sources())
  {
    var sources := spec.Sources();
    var keyer := new SourceKeyer();
    ghost var labels := Labels(sources);
    keys := [];
    for i := 0 to |sources|
      invariant keyer.Valid()
      invariant keyer.handedOut == labels[..i] && keys == Keys(labels)[..i]
    {
      var key := NextKey(keyer, sources[i], labels, i);
      keys := keys + [key];
    }
  }

  // Instants

  datatype Input = Input(pit: Time, explicit: bool, overrides: map<string, Time>, margin: int)

  function EffectiveSourcePIT(input: Input, key: string): (Time, bool) {
    if key in input.overrides then (input.overrides[key], true)
    else (if input.margin > 0 then input.pit - input.margin else input.pit, input.explicit)
  }

  /** Ledger and payments as they answer during one evaluation. What happened up to an instant is
      the same in all evaluations; the latest state of a pool is not, nor is the time of asking. */
  datatype World = World(at: (SourceSpec, Time) -> Option<Balances>, latest: SourceSpec -> Option<(Balances, Time)>)

  /** The balances and the instant recorded for them. */
  function Resolve(world: World, source: SourceSpec, pit: Time, explicit: bool): Option<(Balances, Time)> {
    if source.PoolSource? && !explicit then world.latest(source)
    else
      var balances := world.at(source, pit);
      if balances.Some? then Some((balances.value, pit)) else None
  }

  /** A pool that nobody gave an instant is read at its latest state; everything else is read at the
      instant of its key, or else at that of the input less the margin, which is never negative. */
  function ReadAt(source: SourceSpec, key: string, input: Input, world: World): (read: Option<(Balances, Time)>)
    ensures source.PoolSource? && key !in input.overrides && !input.explicit ==> read == world.latest(source)
    ensures source.LedgerSource? || key in input.overrides || input.explicit ==>
              var margin := if input.margin < 0 then 0 else input.margin;
              var instant := if key in input.overrides then input.overrides[key] else input.pit - margin;
              match world.at(source, instant)
              case Some(balances) => read == Some((balances, instant))
              case None => read == None
  {
    var (pit, explicit) := EffectiveSourcePIT(input, key);
    Resolve(world, source, pit, explicit)
  }

  predicate ReadsLatest(source: SourceSpec, key: string, input: Input) {
    source.PoolSource? && !EffectiveSourcePIT(input, key).1
  }

  datatype Reading = Reading(balances: seq<Balances>, pitPerSource: map<string, Time>)

  /** What the first n sources answered, under the first n keys. */
  ghost predicate IsReading(r: Reading, sources: seq<SourceSpec>, keys: seq<string>, input: Input, world: World, n: nat)
    requires n <= |sources| == |keys|
  {
    && |r.balances| == n
    && (forall k :: k in r.pitPerSource <==> k in keys[..n])
    && forall i :: 0 <= i < n ==>
         var read := ReadAt(sources[i], keys[i], input, world);
         read.Some? && keys[i] in r.pitPerSource && read.value == (r.balances[i], r.pitPerSource[keys[i]])
  }

  lemma ReadingExtends(r: Reading, sources: seq<SourceSpec>, keys: seq<string>, input: Input, world: World, n: nat)
    requires n < |sources| == |keys| && Distinct(keys)
    requires IsReading(r, sources, keys, input, world, n) && ReadAt(sources[n], keys[n], input, world).Some?
    ensures var (balances, pit) := ReadAt(sources[n], keys[n], input, world).value;
            IsReading(Reading(r.balances + [balances], r.pitPerSource[keys[n] := pit]), sources, keys, input, world, n + 1)
  {
    assert keys[..n + 1] == keys[..n] + [keys[n]];
  }

  /** Reads the sources in order, and gives up at the first that does not answer. */
  method ReadSources(spec: Spec, input: Input, world: World) returns (r: Reading, complete: bool)
    ensures var sources, n := spec.Sources(), |r.balances|;
            && n <= |sources|
            && IsReading(r, sources, KeysOf(sources), input, world, n)
            && (if complete then n == |sources|
                else n < |sources| && ReadAt(sources[n], KeysOf(sources)[n], input, world).None?)
  {
    var sources := spec.Sources();
    var keyer := new SourceKeyer();
    ghost var labels, keys := Labels(sources), KeysOf(sources);
    KeysAreDistinct(labels);
    r := Reading([], map[]);
    for i := 0 to |sources|
      invariant keyer.Valid() && keyer.handedOut == labels[..i]
      invariant IsReading(r, sources, keys, input, world, i)
    {
      var key := NextKey(keyer, sources[i], labels, i);
      var (pit, explicit) := EffectiveSourcePIT(input, key);
      var read := Resolve(world, sources[i], pit, explicit);
      if read.None? {
        complete := false;
        return;
      }
      ReadingExtends(r, sources, keys, input, world, i);
      r := Reading(r.balances + [read.value.0], r.pitPerSource[key := read.value.1]);
    }
    complete := true;
  }

  method SetOf(keys: seq<string>) returns (known: set<string>)
    ensures forall k :: k in known <==> k in keys
  {
    known := {};
    for i := 0 to |keys|
      invariant forall k :: k in known <==> k in keys[..i]
    {
      known := known + {keys[i]};
      assert keys[..i + 1] == keys[..i] + [keys[i]];
    }
    assert keys[..|keys|] == keys;
  }

  /** Overrides may name only sources of the template. */
  method ValidateSourcePITs(spec: Spec, overrides: map<string, Time>) returns (valid: bool)
    ensures valid <==> forall k :: k in overrides ==> k in KeysOf(spec.Sources())
  {
    if overrides == map[] {
      return true;
    }
    var keys := SourceKeys(spec);
    var known := SetOf(keys);
    valid := true;
    var rest := overrides.Keys;
    while rest != {}
      invariant rest <= overrides.Keys
      invariant forall k :: k in overrides && k !in rest ==> k in known
    {
      var key :| key in rest;
      rest := rest - {key};
      if key !in known {
        return false;
      }
    }
  }

  // Replay

  lemma {:induction false} DistinctSize(keys: seq<string>)
    requires Distinct(keys)
    ensures |set k | k in keys| == |keys|
  {
    if keys != [] {
      var front, last := keys[..|keys| - 1], keys[|keys| - 1];
      DistinctSize(front);
      assert keys == front + [last];
      assert (set k | k in keys) == (set k | k in front) + {last};
    }
  }

  /** The keys a complete evaluation records are the source keys, one for each source. */
  lemma RecordedKeysAreSourceKeys(r: Reading, sources: seq<SourceSpec>, input: Input, world: World)
    requires IsReading(r, sources, KeysOf(sources), input, world, |sources|)
    ensures forall k :: k in r.pitPerSource <==> k in KeysOf(sources)
    ensures |r.pitPerSource| == |sources|
  {
    var keys := KeysOf(sources);
    assert keys[..|keys|] == keys;
    KeysAreDistinct(Labels(sources));
    DistinctSize(keys);
    assert r.pitPerSource.Keys == set k | k in keys;
  }

  /** The input of a replay: the recorded instants as overrides, with the same instant and margin. */
  function ReplayOf(input: Input, r: Reading): Input {
    input.(overrides := r.pitPerSource)
  }

  /** The instant whose period an evaluation falls into. */
  function PeriodInstant(input: Input): (instant: Time)
    ensures instant + input.margin == input.pit
  {
    input.pit - input.margin
  }

  predicate Historical(sources: seq<SourceSpec>, input: Input) {
    forall i :: 0 <= i < |sources| ==> !ReadsLatest(sources[i], KeysOf(sources)[i], input)
  }

  lemma ReplayReadsAgain(sources: seq<SourceSpec>, input: Input, world: World, r: Reading, later: World, i: nat)
    requires IsReading(r, sources, KeysOf(sources), input, world, |sources|) && i < |sources|
    requires !ReadsLatest(sources[i], KeysOf(sources)[i], input) && later.at == world.at
    ensures var key := KeysOf(sources)[i];
            ReadAt(sources[i], key, ReplayOf(input, r), later) == ReadAt(sources[i], key, input, world)
  {
  }

  /** Re-running a purely historical evaluation from what it recorded reads the same instants,
      hence the same balances, and records the same map again, whatever the latest state is by then.
      Its overrides are admissible, and it falls into the same period. */
  lemma ReplayReproduces(sources: seq<SourceSpec>, input: Input, world: World, r: Reading, later: World, r': Reading, n: nat)
    requires IsReading(r, sources, KeysOf(sources), input, world, |sources|)
    requires Historical(sources, input) && later.at == world.at
    requires n <= |sources| && IsReading(r', sources, KeysOf(sources), ReplayOf(input, r), later, n)
    requires n == |sources| || ReadAt(sources[n], KeysOf(sources)[n], ReplayOf(input, r), later).None?
    ensures r' == r
    ensures forall k :: k in ReplayOf(input, r).overrides ==> k in KeysOf(sources)
    ensures PeriodInstant(ReplayOf(input, r)) == PeriodInstant(input)
  {
    ReplayReadsAlike(sources, KeysOf(sources), input, world, r, later);
    ReadingsAgree(sources, KeysOf(sources), input, world, r, ReplayOf(input, r), later, r', n);
    RecordedKeysAreSourceKeys(r, sources, input, world);
  }

  lemma ReplayReadsAlike(sources: seq<SourceSpec>, keys: seq<string>, input: Input, world: World, r: Reading, later: World)
    requires keys == KeysOf(sources) && IsReading(r, sources, keys, input, world, |sources|)
    requires Historical(sources, input) && later.at == world.at
    ensures forall i :: 0 <= i < |sources| ==>
              ReadAt(sources[i], keys[i], ReplayOf(input, r), later) == ReadAt(sources[i], keys[i], input, world)
  {
    forall i | 0 <= i < |sources|
      ensures ReadAt(sources[i], keys[i], ReplayOf(input, r), later) == ReadAt(sources[i], keys[i], input, world)
    {
      ReplayReadsAgain(sources, input, world, r, later, i);
    }
  }

  lemma ReadingsAgree(sources: seq<SourceSpec>, keys: seq<string>, input: Input, world: World, r: Reading,
                      input': Input, world': World, r': Reading, n: nat)
    requires |keys| == |sources| && n <= |sources|
    requires IsReading(r, sources, keys, input, world, |sources|) && IsReading(r', sources, keys, input', world', n)
    requires n == |sources| || ReadAt(sources[n], keys[n], input', world').None?
    requires forall i :: 0 <= i < |sources| ==> ReadAt(sources[i], keys[i], input', world') == ReadAt(sources[i], keys[i], input, world)
    ensures r' == r
  {
    assert keys[..|sources|] == keys;
    forall k | k in r.pitPerSource ensures r'.pitPerSource[k] == r.pitPerSource[k] {
      var i :| 0 <= i < |keys| && keys[i] == k;
    }
    assert r'.pitPerSource == r.pitPerSource;
    assert r'.balances == r.balances;
  }

  /** A pool that moved since its latest state was read. */
  const MOVING := World((s, t) => Some(map[]), s => Some((map["USD" := Some(1)], 0)))

  lemma LatestReadsCannotBeReplayed(sources: seq<SourceSpec>, input: Input, r: Reading, i: nat)
    requires IsReading(r, sources, KeysOf(sources), input, MOVING, |sources|) && i < |sources|
    requires ReadsLatest(sources[i], KeysOf(sources)[i], input)
    ensures ReadAt(sources[i], KeysOf(sources)[i], ReplayOf(input, r), MOVING) != ReadAt(sources[i], KeysOf(sources)[i], input, MOVING)
  {
    assert ReadAt(sources[i], KeysOf(sources)[i], input, MOVING) == Some((map["USD" := Some(1)], 0));
    assert "USD" in map["USD" := Some(1)];
  }

  lemma {:induction false} MovingReads(sources: seq<SourceSpec>, input: Input, n: nat) returns (r: Reading)
    requires n <= |sources|
    ensures IsReading(r, sources, KeysOf(sources), input, MOVING, n)
  {
    if n == 0 {
      r := Reading([], map[]);
    } else {
      var front := MovingReads(sources, input, n - 1);
      KeysAreDistinct(Labels(sources));
      var read := ReadAt(sources[n - 1], KeysOf(sources)[n - 1], input, MOVING);
      ReadingExtends(front, sources, KeysOf(sources), input, MOVING, n - 1);
      r := Reading(front.balances + [read.value.0], front.pitPerSource[KeysOf(sources)[n - 1] := read.value.1]);
    }
  }

  /** Replays can be relied on exactly when no pool is read at its latest state. */
  lemma ReplayIsFaithfulIffHistorical(sources: seq<SourceSpec>, input: Input)
    ensures Historical(sources, input) <==>
            forall world: World, r: Reading, i: nat ::
              i < |sources| && IsReading(r, sources, KeysOf(sources), input, world, |sources|) ==>
                ReadAt(sources[i], KeysOf(sources)[i], ReplayOf(input, r), world) == ReadAt(sources[i], KeysOf(sources)[i], input, world)
  {
    if Historical(sources, input) {
      forall world: World, r: Reading, i: nat |
        i < |sources| && IsReading(r, sources, KeysOf(sources), input, world, |sources|)
        ensures ReadAt(sources[i], KeysOf(sources)[i], ReplayOf(input, r), world) == ReadAt(sources[i], KeysOf(sources)[i], input, world)
      {
        ReplayReadsAgain(sources, input, world, r, world, i);
      }
    } else {
      var i: nat :| i < |sources| && ReadsLatest(sources[i], KeysOf(sources)[i], input);
      var r := MovingReads(sources, input, |sources|);
      LatestReadsCannotBeReplayed(sources, input, r, i);
    }
  }
}
