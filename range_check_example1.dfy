/** Range check by a product polynomial: a value v lies in [0, R) exactly when
    v * (1 - v) * ... * (R - 1 - v) vanishes. One advice column holds v, and the gate
    "range check" multiplies that polynomial by the selector q_range_check. */
module RangeCheckExample1 {
  import opened Plonk

  const Value := Advice(0)
  /** The selector q_range_check. */
  const QRangeCheck: nat := 0

  /** The expression the gate builds for range `range` over `v`: a left fold over 1 .. range - 1
      starting from `v` and multiplying by (i - v) at step i. */
  function RangeCheckExpr(range: nat, v: Expr): Expr
  {
    if range <= 1 then v else Product(RangeCheckExpr(range - 1, v), Sub(Constant(range - 1), v))
  }

  /** The same fold on values. */
  function RangeProduct(range: nat, v: int): int
  {
    if range <= 1 then v else RangeProduct(range - 1, v) * (range - 1 - v)
  }

  /** The factors of the range-check product, as the formula writes them: v, then i - v for
      every i in 1 .. range - 1. Factor i has the single root i, so the factors' roots are
      exactly the integers of the range. */
  function Factors(range: nat, v: int): (fs: seq<int>)
    ensures |fs| == Max(range, 1)
    ensures forall i :: 0 <= i < |fs| ==> (fs[i] == 0 <==> v == i)
  {
    seq(Max(range, 1), i => if i == 0 then v else i - v)
  }

  /** The product of a sequence of integers. */
  function ProductOf(xs: seq<int>): int
  {
    if |xs| == 0 then 1 else ProductOf(xs[..|xs| - 1]) * xs[|xs| - 1]
  }

  /** The fold computes v * (1 - v) * ... * (range - 1 - v), a product of max(range, 1)
      factors. */
  lemma {:induction false} FoldIsProduct(range: nat, v: int)
    ensures RangeProduct(range, v) == ProductOf(Factors(range, v))
  {
    if range <= 1 {
      assert Factors(range, v)[..0] == [];
    } else {
      FoldIsProduct(range - 1, v);
      assert Factors(range, v)[..range - 1] == Factors(range - 1, v);
    }
  }

  /** The product vanishes exactly on the integers 0 .. max(range, 1) - 1. */
  lemma {:induction false} RangeProductZeroIff(range: nat, v: int)
    ensures RangeProduct(range, v) == 0 <==> 0 <= v < Max(range, 1)
  {
    if range > 1 {
      RangeProductZeroIff(range - 1, v);
      ZeroProduct(RangeProduct(range - 1, v), range - 1 - v);
    }
  }

  lemma ZeroProduct(a: int, b: int)
    ensures a * b == 0 <==> a == 0 || b == 0
  {
  }

  /** Evaluating the expression evaluates the fold on the value of `v`. */
  lemma {:induction false} EvalRangeCheck(range: nat, v: Expr, w: Witness, instance: seq<int>, n: nat, row: nat)
    requires n > 0
    ensures Eval(RangeCheckExpr(range, v), w, instance, n, row) == RangeProduct(range, Eval(v, w, instance, n, row))
  {
    if range > 1 {
      EvalRangeCheck(range - 1, v, w, instance, n, row);
      assert Eval(Sub(Constant(range - 1), v), w, instance, n, row) == range - 1 - Eval(v, w, instance, n, row);
    }
  }

  /** The expression reads exactly the cells `v` reads. */
  lemma {:induction false} QueriesRangeCheck(range: nat, v: Expr, w: Witness, n: nat, row: nat, region: nat)
    requires n > 0
    ensures QueriesIn(RangeCheckExpr(range, v), w, n, row, region) == QueriesIn(v, w, n, row, region)
  {
    if range > 1 {
      QueriesRangeCheck(range - 1, v, w, n, row, region);
      assert QueriesIn(Sub(Constant(range - 1), v), w, n, row, region) == QueriesIn(v, w, n, row, region);
    }
  }

  /** The expression queries at the rotations `v` does, and its degree is max(range, 1) times
      that of `v`. */
  lemma {:induction false} RangeCheckShape(range: nat, v: Expr)
    ensures Rotations(RangeCheckExpr(range, v)) == Rotations(v)
    ensures Degree(RangeCheckExpr(range, v)) == Max(range, 1) * Degree(v)
  {
    if range > 1 {
      RangeCheckShape(range - 1, v);
      assert Rotations(Sub(Constant(range - 1), v)) == Rotations(v);
      var d, m := Degree(v), Max(range - 1, 1);
      assert Degree(Sub(Constant(range - 1), v)) == d;
      assert Max(range, 1) == m + 1;
      MulSucc(m, d);
    }
  }

  /** One more factor of degree d adds d to the degree. */
  lemma MulSucc(m: nat, d: nat)
    ensures (m + 1) * d == m * d + d
  {
  }

  /** The gate: the range-check product of the current value, times q_range_check. */
  function RangePoly(range: nat): Expr
  {
    Product(Selected(QRangeCheck), RangeCheckExpr(range, Query(Value, 0)))
  }

  /** The chip's configuration for range `range`: one gate, no lookup, no equality. The gate
      reads the current row only and has degree max(range, 1) + 1, the selector included. */
  function Configure(range: nat): (cs: ConstraintSystem)
    ensures |cs.gates| == 1 && cs.lookups == [] && cs.gates[0].selector == QRangeCheck
    ensures cs.gates[0].polys == [RangePoly(range)]
    ensures Rotations(RangePoly(range)) == {0} && Degree(RangePoly(range)) == Max(range, 1) + 1
  {
    RangeCheckShape(range, Query(Value, 0));
    ConstraintSystem([Gate("range check", QRangeCheck, [RangePoly(range)])], [], {})
  }

  /** The gate at a row of the domain: the fold on the value in that row when the selector is on,
      zero (whatever the cell holds) when it is off. */
  lemma EvalGate(range: nat, w: Witness, n: nat, r: nat)
    requires r < n
    ensures Eval(RangePoly(range), w, [], n, r) ==
      if SelectorRow(QRangeCheck, r) in w.enabled then RangeProduct(range, CellValue(w, [], Cell(Value, r))) else 0
  {
    QueryInDomain(Value, 0, w, [], n, r);
    EvalRangeCheck(range, Query(Value, 0), w, [], n, r);
    SelectorGates(QRangeCheck, RangeCheckExpr(range, Query(Value, 0)), w, [], n, r);
  }

  /** The grid after the region "assign value" at `region`. */
  function AfterAssign(w: Witness, region: Region, value: int): Witness
  {
    WithAdvice(WithSelector(w, QRangeCheck, region.base, region.index), Cell(Value, region.base), value, region.index)
  }

  /** Enables q_range_check and writes the value at row 0 of one region. */
  method Assign(l: Layouter, value: int)
    modifies l
    ensures l.w == AfterAssign(old(l.w), Region(old(l.regions), old(l.offset)), value)
    ensures l.offset == old(l.offset) + 1 && l.regions == old(l.regions) + 1 && l.height == 0
  {
    var region := l.OpenRegion();
    l.Enable(region, QRangeCheck, 0);
    var _ := l.AssignAdvice(region, Value.index, 0, value);
    l.CloseRegion();
  }

  /** The chip's region on an empty grid. */
  function Grid(value: int): Witness
  {
    AfterAssign(Empty, Region(0, 0), value)
  }

  /** The gate holds on the whole domain exactly when the value lies in [0, max(range, 1)). */
  lemma GridGates(range: nat, value: int, n: nat)
    requires n > 0
    ensures GatesHold(Configure(range), Grid(value), [], n) <==> 0 <= value < Max(range, 1)
  {
    var w := Grid(value);
    var cs := Configure(range);
    assert w.enabled == map[SelectorRow(QRangeCheck, 0) := 0];
    assert CellValue(w, [], Cell(Value, 0)) == value;
    RangeProductZeroIff(range, value);
    forall r: nat | r < n
      ensures Eval(RangePoly(range), w, [], n, r) == if r == 0 then RangeProduct(range, value) else 0
    {
      EvalGate(range, w, n, r);
    }
    assert cs.gates == [Gate("range check", QRangeCheck, [RangePoly(range)])];
    assert Eval(RangePoly(range), w, [], n, 0) == RangeProduct(range, value);
  }

  /** The chip writes one cell, once. */
  lemma AssignedOnce(value: int)
    ensures Grid(value).log == [Cell(Value, 0)]
  {
  }

  /** The circuit accepts a value exactly when it lies in [0, max(range, 1)). */
  lemma SatisfiedIff(range: nat, value: int, k: nat)
    ensures Satisfied(Configure(range), Grid(value), [], k) <==> 0 <= value < Max(range, 1)
  {
    var n := Pow2(k);
    var w := Grid(value);
    var cs := Configure(range);
    assert w.enabled == map[SelectorRow(QRangeCheck, 0) := 0];
    assert w.values == map[Cell(Value, 0) := value];
    assert FitsIn(w, n);
    GridGates(range, value, n);
    QueriesRangeCheck(range, Query(Value, 0), w, n, 0, 0);
    QueryAssignedIn(Value, 0, w, n, 0, 0);
    assert QueriesIn(RangePoly(range), w, n, 0, 0);
  }

  /** The circuit's synthesize for range 8. */
  method Synthesize(l: Layouter, v: int)
    modifies l
    ensures l.w == AfterAssign(old(l.w), Region(old(l.regions), old(l.offset)), v)
    ensures l.offset == old(l.offset) + 1 && l.regions == old(l.regions) + 1
  {
    Assign(l, v);
  }

  /** A run of the circuit on a fresh layouter. */
  method Run(v: int) returns (w: Witness)
    ensures w == Grid(v)
  {
    var l := new Layouter([]);
    Synthesize(l, v);
    w := l.w;
  }

  /** The circuit's test: with range 8, the value 2 is accepted. */
  method TestCircuit() returns (w: Witness)
    ensures Satisfied(Configure(8), w, [], 4)
  {
    w := Run(2);
    SatisfiedIff(8, 2, 4);
  }

  /** With range 8, the value 8 makes the product nonzero and is rejected. */
  lemma EightRejected()
    ensures RangeProduct(8, 8) != 0
    ensures !Satisfied(Configure(8), Grid(8), [], 4)
  {
    RangeProductZeroIff(8, 8);
    SatisfiedIff(8, 8, 4);
  }
}
