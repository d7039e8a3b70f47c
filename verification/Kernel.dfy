/** The expression kernel: checked signed 64-bit arithmetic, and one cost budget for a batch. */
module Kernel {
  import opened Wrappers

  const MIN_INT64 := -0x8000_0000_0000_0000
  const MAX_INT64 := 0x7fff_ffff_ffff_ffff

  predicate Fits(n: int) {
    MIN_INT64 <= n <= MAX_INT64
  }

  datatype Expr =
    | Lit(n: int)
    | Truth(b: bool)
    | Add(left: Expr, right: Expr)
    | Sub(left: Expr, right: Expr)
    | Abs(operand: Expr)
    | Le(left: Expr, right: Expr)
    | Ge(left: Expr, right: Expr)
    | And(left: Expr, right: Expr)

  datatype Value = Num(n: int) | Bool(b: bool)

  datatype Fault = Overflow | NoSuchOverload

  type Evaluated = Result<Value, Fault>

  // Compilation

  datatype Type = IntType | BoolType

  function TypeOf(e: Expr): Option<Type> {
    match e
    case Lit(n) => if Fits(n) then Some(IntType) else None
    case Truth(_) => Some(BoolType)
    case Add(l, r) => if TypeOf(l) == TypeOf(r) == Some(IntType) then Some(IntType) else None
    case Sub(l, r) => if TypeOf(l) == TypeOf(r) == Some(IntType) then Some(IntType) else None
    case Abs(x) => if TypeOf(x) == Some(IntType) then Some(IntType) else None
    case Le(l, r) => if TypeOf(l) == TypeOf(r) == Some(IntType) then Some(BoolType) else None
    case Ge(l, r) => if TypeOf(l) == TypeOf(r) == Some(IntType) then Some(BoolType) else None
    case And(l, r) => if TypeOf(l) == TypeOf(r) == Some(BoolType) then Some(BoolType) else None
  }

  /** Source text; None is text that is empty or does not parse. */
  type Source = Option<Expr>

  predicate Compiles(source: Source) {
    source.Some? && TypeOf(source.value) == Some(BoolType)
  }

  // Evaluation

  function Checked(n: int): Evaluated {
    if Fits(n) then Ok(Num(n)) else Err(Overflow)
  }

  function Both(l: Evaluated, r: Evaluated): Result<(int, int), Fault> {
    if l.Err? then Err(l.error)
    else if r.Err? then Err(r.error)
    else if l.value.Num? && r.value.Num? then Ok((l.value.n, r.value.n))
    else Err(NoSuchOverload)
  }

  /** The abs builtin refuses the one integer whose negation does not fit. */
  function AbsOf(v: Evaluated): Evaluated {
    if v.Err? then v
    else if v.value.Bool? then Err(NoSuchOverload)
    else if v.value.n == MIN_INT64 then Err(Overflow)
    else Ok(Num(if v.value.n < 0 then -v.value.n else v.value.n))
  }

  /** A conjunct that is false decides, whatever the other one comes to. */
  function AndOf(l: Evaluated, r: Evaluated): Evaluated {
    if l == Ok(Bool(false)) || r == Ok(Bool(false)) then Ok(Bool(false))
    else if l.Err? then l
    else if r.Err? then r
    else if l.value.Bool? && r.value.Bool? then Ok(Bool(true))
    else Err(NoSuchOverload)
  }

  function Eval(e: Expr): Evaluated {
    match e
    case Lit(n) => Ok(Num(n))
    case Truth(b) => Ok(Bool(b))
    case Add(l, r) => var p := Both(Eval(l), Eval(r)); if p.Err? then Err(p.error) else Checked(p.value.0 + p.value.1)
    case Sub(l, r) => var p := Both(Eval(l), Eval(r)); if p.Err? then Err(p.error) else Checked(p.value.0 - p.value.1)
    case Abs(x) => AbsOf(Eval(x))
    case Le(l, r) => var p := Both(Eval(l), Eval(r)); if p.Err? then Err(p.error) else Ok(Bool(p.value.0 <= p.value.1))
    case Ge(l, r) => var p := Both(Eval(l), Eval(r)); if p.Err? then Err(p.error) else Ok(Bool(p.value.0 >= p.value.1))
    case And(l, r) => AndOf(Eval(l), Eval(r))
  }

  // The same expressions over unbounded integers

  function Magnitude(n: int): nat {
    if n < 0 then -n else n
  }

  function Unbounded(e: Expr): Value
    requires TypeOf(e).Some?
    ensures Unbounded(e).Num? <==> TypeOf(e) == Some(IntType)
  {
    match e
    case Lit(n) => Num(n)
    case Truth(b) => Bool(b)
    case Add(l, r) => Num(Unbounded(l).n + Unbounded(r).n)
    case Sub(l, r) => Num(Unbounded(l).n - Unbounded(r).n)
    case Abs(x) => Num(Magnitude(Unbounded(x).n))
    case Le(l, r) => Bool(Unbounded(l).n <= Unbounded(r).n)
    case Ge(l, r) => Bool(Unbounded(l).n >= Unbounded(r).n)
    case And(l, r) => Bool(Unbounded(l).b && Unbounded(r).b)
  }

  /** Every number the evaluation comes across fits. */
  predicate Contained(e: Expr)
    requires TypeOf(e).Some?
  {
    (TypeOf(e) == Some(IntType) ==> Fits(Unbounded(e).n)) &&
    match e
    case Lit(_) => true
    case Truth(_) => true
    case Add(l, r) => Contained(l) && Contained(r)
    case Sub(l, r) => Contained(l) && Contained(r)
    case Abs(x) => Contained(x)
    case Le(l, r) => Contained(l) && Contained(r)
    case Ge(l, r) => Contained(l) && Contained(r)
    case And(l, r) => Contained(l) && Contained(r)
  }

  /** A compiled expression either overflows or means what it means over unbounded integers; it
      does the latter whenever all its numbers fit. */
  lemma {:induction false} CheckedArithmeticIsExact(e: Expr)
    requires TypeOf(e).Some?
    ensures Eval(e) == Ok(Unbounded(e)) || Eval(e) == Err(Overflow)
    ensures Contained(e) ==> Eval(e) == Ok(Unbounded(e))
    ensures TypeOf(e) == Some(IntType) && Eval(e).Ok? ==> Contained(e)
  {
    match e
    case Lit(_) =>
    case Truth(_) =>
    case Abs(x) => CheckedArithmeticIsExact(x);
    case Add(l, r) => CheckedArithmeticIsExact(l); CheckedArithmeticIsExact(r);
    case Sub(l, r) => CheckedArithmeticIsExact(l); CheckedArithmeticIsExact(r);
    case Le(l, r) => CheckedArithmeticIsExact(l); CheckedArithmeticIsExact(r);
    case Ge(l, r) => CheckedArithmeticIsExact(l); CheckedArithmeticIsExact(r);
    case And(l, r) => CheckedArithmeticIsExact(l); CheckedArithmeticIsExact(r);
  }

  lemma ComparesMagnitude(x: Expr, bound: int)
    requires Fits(bound)
    ensures TypeOf(Le(Abs(x), Lit(bound))) == if TypeOf(x) == Some(IntType) then Some(BoolType) else None
    ensures TypeOf(x) == Some(IntType) ==>
              Eval(Le(Abs(x), Lit(bound))) ==
              if Eval(x).Err? || Eval(x) == Ok(Num(MIN_INT64)) then Err(Overflow)
              else Ok(Bool(Magnitude(Unbounded(x).n) <= bound))
  {
    assert TypeOf(Lit(bound)) == Some(IntType) && Eval(Lit(bound)) == Ok(Num(bound));
    assert TypeOf(Abs(x)) == if TypeOf(x) == Some(IntType) then Some(IntType) else None;
    if TypeOf(x) == Some(IntType) {
      CheckedArithmeticIsExact(x);
      assert Eval(Abs(x)) == AbsOf(Eval(x));
    }
  }

  /** The left-nested sum t0 + t1 + ... of literals. */
  function Chain(terms: seq<int>): Expr
    requires terms != []
  {
    if |terms| == 1 then Lit(terms[0]) else Add(Chain(terms[..|terms| - 1]), Lit(terms[|terms| - 1]))
  }

  function Sum(terms: seq<int>): int {
    if terms == [] then 0 else Sum(terms[..|terms| - 1]) + terms[|terms| - 1]
  }

  predicate AllFit(terms: seq<int>) {
    forall t :: t in terms ==> Fits(t)
  }

  /** Every running total fits. */
  predicate TotalsFit(terms: seq<int>) {
    forall i :: 0 <= i <= |terms| ==> Fits(Sum(terms[..i]))
  }

  lemma TotalsFitSnoc(front: seq<int>, last: int)
    ensures Sum(front + [last]) == Sum(front) + last
    ensures TotalsFit(front + [last]) <==> TotalsFit(front) && Fits(Sum(front) + last)
    ensures AllFit(front + [last]) <==> AllFit(front) && Fits(last)
  {
    var terms := front + [last];
    assert terms[..|front|] == front && terms[..|terms|] == terms && front[..|front|] == front;
    assert forall i :: 0 <= i <= |front| ==> terms[..i] == front[..i];
    assert last in terms && forall t :: t in front ==> t in terms;
    if TotalsFit(terms) {
      assert Fits(Sum(terms[..|terms|]));
      forall i | 0 <= i <= |front| ensures Fits(Sum(front[..i])) {
        assert Fits(Sum(terms[..i]));
      }
    }
  }

  lemma AddsLiteral(x: Expr, n: int)
    ensures TypeOf(Add(x, Lit(n))) == if TypeOf(x) == Some(IntType) && Fits(n) then Some(IntType) else None
    ensures forall m :: Eval(x) == Ok(Num(m)) ==> Eval(Add(x, Lit(n))) == Checked(m + n)
    ensures Eval(x) == Err(Overflow) ==> Eval(Add(x, Lit(n))) == Err(Overflow)
  {
    assert Eval(Lit(n)) == Ok(Num(n));
  }

  lemma {:induction false} ChainEvaluates(terms: seq<int>)
    requires terms != []
    ensures TypeOf(Chain(terms)) == if AllFit(terms) then Some(IntType) else None
    ensures AllFit(terms) ==> Eval(Chain(terms)) == if TotalsFit(terms) then Ok(Num(Sum(terms))) else Err(Overflow)
  {
    if |terms| == 1 {
      LoneTerm(terms);
    } else {
      var front, last := terms[..|terms| - 1], terms[|terms| - 1];
      ChainEvaluates(front);
      AddsLiteral(Chain(front), last);
      assert terms == front + [last];
      TotalsFitSnoc(front, last);
      assert Chain(terms) == Add(Chain(front), Lit(last));
    }
  }

  lemma LoneTerm(terms: seq<int>)
    requires |terms| == 1
    ensures Chain(terms) == Lit(terms[0]) && Sum(terms) == terms[0]
    ensures AllFit(terms) <==> Fits(terms[0])
    ensures TotalsFit(terms) <==> Fits(terms[0])
  {
    assert terms == [] + [terms[0]];
    TotalsFitSnoc([], terms[0]);
  }

  /** The sum builtin: an error exactly when some running total leaves the 64 bits. */
  method SumList(items: seq<int>) returns (r: Evaluated)
    requires AllFit(items)
    ensures r == if TotalsFit(items) then Ok(Num(Sum(items))) else Err(Overflow)
  {
    var total := 0;
    for i := 0 to |items|
      invariant total == Sum(items[..i]) && Fits(total)
      invariant forall j :: 0 <= j <= i ==> Fits(Sum(items[..j]))
    {
      var v := items[i];
      assert items[..i + 1][..i] == items[..i];
      assert Sum(items[..i + 1]) == total + v;
      if (v > 0 && total > MAX_INT64 - v) || (v < 0 && total < MIN_INT64 - v) {
        return Err(Overflow);
      }
      total := total + v;
    }
    assert items[..|items|] == items;
    r := Ok(Num(total));
  }

  // Batches

  datatype EngineError = CompileFailed | RuntimeFailed(fault: Fault) | BudgetExceeded | CountMismatch

  datatype Output = Output(passed: bool, cost: nat)

  /** The cost the interpreter reports; it depends on the expression alone. */
  type CostModel = Expr -> nat

  function TotalCost(programs: seq<Expr>, cost: CostModel): nat {
    if programs == [] then 0 else TotalCost(programs[..|programs| - 1], cost) + cost(programs[|programs| - 1])
  }

  /** The batch as a whole stays within the limit, and something is left when the last one starts. */
  predicate WithinBudget(programs: seq<Expr>, cost: CostModel, limit: nat) {
    programs == [] ||
    (TotalCost(programs[..|programs| - 1], cost) < limit && TotalCost(programs, cost) <= limit)
  }

  lemma {:induction false} CostGrows(programs: seq<Expr>, i: nat, cost: CostModel)
    requires i <= |programs|
    ensures TotalCost(programs[..i], cost) <= TotalCost(programs, cost)
  {
    if i == |programs| {
      assert programs[..i] == programs;
    } else {
      CostGrows(programs[..|programs| - 1], i, cost);
      assert programs[..|programs| - 1][..i] == programs[..i];
    }
  }

  lemma CostOfPrefix(programs: seq<Expr>, i: nat, cost: CostModel)
    requires i < |programs|
    ensures TotalCost(programs[..i + 1], cost) == TotalCost(programs[..i], cost) + cost(programs[i])
    ensures TotalCost(programs[..i + 1], cost) <= TotalCost(programs, cost)
    ensures TotalCost(programs[..i], cost) <= TotalCost(programs[..|programs| - 1], cost)
  {
    assert programs[..i + 1][..i] == programs[..i];
    CostGrows(programs, i + 1, cost);
    CostGrows(programs[..|programs| - 1], i, cost);
    assert programs[..|programs| - 1][..i] == programs[..i];
  }

  /** Every program finds some of the budget left, and the last one leaves it at zero or above. */
  lemma BudgetLeft(programs: seq<Expr>, cost: CostModel, limit: nat)
    ensures WithinBudget(programs, cost, limit) <==>
              && (forall i :: 0 <= i < |programs| ==> TotalCost(programs[..i], cost) < limit)
              && TotalCost(programs, cost) <= limit
  {
    forall i | 0 <= i < |programs| ensures TotalCost(programs[..i], cost) <= TotalCost(programs[..|programs| - 1], cost) {
      CostOfPrefix(programs, i, cost);
    }
  }

  /** A batch is within the budget as long as each program can start and be paid for. */
  lemma OneMoreProgram(programs: seq<Expr>, i: nat, cost: CostModel, limit: nat)
    requires i < |programs|
    ensures TotalCost(programs[..i + 1], cost) == TotalCost(programs[..i], cost) + cost(programs[i])
    ensures WithinBudget(programs[..i + 1], cost, limit) <==>
              TotalCost(programs[..i], cost) < limit && TotalCost(programs[..i + 1], cost) <= limit
    ensures !WithinBudget(programs[..i + 1], cost, limit) ==> !WithinBudget(programs, cost, limit)
  {
    CostOfPrefix(programs, i, cost);
    assert programs[..i + 1][..i] == programs[..i];
  }

  /** One program against what is left of the budget; one that exceeds it is stopped. */
  method EvaluateOne(program: Expr, cost: CostModel, remaining: nat) returns (r: Result<Output, EngineError>)
    requires TypeOf(program) == Some(BoolType) && 0 < remaining
    ensures r == if remaining < cost(program) then Err(BudgetExceeded)
                 else if Eval(program).Err? then Err(RuntimeFailed(Overflow))
                 else Ok(Output(Unbounded(program).b, cost(program)))
  {
    CheckedArithmeticIsExact(program);
    var value, spent := Eval(program), cost(program);
    if spent > remaining {
      return Err(BudgetExceeded);
    }
    if value.Err? {
      return Err(RuntimeFailed(value.error));
    }
    r := Ok(Output(value.value.b, spent));
  }

  /** Runs the programs in turn against what is left of the budget. */
  method EvaluateBatch(programs: seq<Expr>, cost: CostModel, limit: nat) returns (r: Result<seq<Output>, EngineError>)
    requires forall p :: p in programs ==> TypeOf(p) == Some(BoolType)
    ensures r.Ok? <==> (forall p :: p in programs ==> Eval(p).Ok?) && WithinBudget(programs, cost, limit)
    ensures r.Ok? ==>
              && |r.value| == |programs|
              && (forall i :: 0 <= i < |programs| ==> r.value[i] == Output(Unbounded(programs[i]).b, cost(programs[i])))
              && TotalCost(programs, cost) <= limit
    ensures r.Err? ==> r.error == BudgetExceeded ||
                       (r.error == RuntimeFailed(Overflow) && exists p :: p in programs && Eval(p).Err?)
  {
    var outputs: seq<Output> := [];
    if |programs| == 0 {
      return Ok(outputs);
    }
    var remaining: nat := limit;
    for i := 0 to |programs|
      invariant |outputs| == i
      invariant forall j :: 0 <= j < i ==> Eval(programs[j]).Ok? && outputs[j] == Output(Unbounded(programs[j]).b, cost(programs[j]))
      invariant remaining == limit - TotalCost(programs[..i], cost)
      invariant WithinBudget(programs[..i], cost, limit)
    {
      OneMoreProgram(programs, i, cost, limit);
      if remaining == 0 {
        return Err(BudgetExceeded);
      }
      var output := EvaluateOne(programs[i], cost, remaining);
      if output.Err? {
        assert programs[i] in programs;
        return Err(output.error);
      }
      remaining := remaining - output.value.cost;
      outputs := outputs + [output.value];
    }
    assert programs[..|programs|] == programs;
    r := Ok(outputs);
  }
}
