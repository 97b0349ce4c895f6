/** The circuit for f(a, b, c) = if a == b then c else a - b, laid out in one one-row region:
    advice columns a, b, c, the indicator of the is-zero gadget applied to a - b, and the
    output. One selector guards two polynomials, one per branch of the function. */
module FibonacciExample4 {
  import opened Plonk

  const A := Advice(0)
  const B := Advice(1)
  const C := Advice(2)
  /** The is-zero gadget's output for a - b: 1 when a - b = 0, 0 otherwise. */
  const Ind := Advice(3)
  const Out := Advice(4)
  /** The selector of the function's gate. */
  const S: nat := 0

  /** The function the circuit computes. */
  function Fun(a: int, b: int, c: int): int
  {
    if a == b then c else a - b
  }

  /** What the is-zero gadget exposes for `v`. */
  function IsZero(v: int): int
  {
    if v == 0 then 1 else 0
  }

  /** s * (indicator * (output - c)): the branch a == b. */
  function EqualPoly(): Expr
  {
    Product(Selected(S), Product(Query(Ind, 0), Sub(Query(Out, 0), Query(C, 0))))
  }

  /** s * (1 - indicator) * (output - (a - b)): the branch a != b. */
  function DifferPoly(): Expr
  {
    Product(Product(Selected(S), Sub(Constant(1), Query(Ind, 0))), Sub(Query(Out, 0), Sub(Query(A, 0), Query(B, 0))))
  }

  /** The chip's configuration: one gate with a polynomial per branch, both of degree 3 and
      reading the current row only; no lookup and no copy. */
  function Configure(): (cs: ConstraintSystem)
    ensures |cs.gates| == 1 && cs.lookups == [] && cs.gates[0].selector == S
    ensures forall g, p :: g in cs.gates && p in g.polys ==> Rotations(p) == {0} && Degree(p) == 3
  {
    PolyShapes();
    ConstraintSystem([Gate("f(a, b, c) = if a == b {c} else {a - b}", S, [EqualPoly(), DifferPoly()])], [], {})
  }

  /** Both polynomials read the current row only and have degree 3. */
  lemma PolyShapes()
    ensures Rotations(EqualPoly()) == {0} && Degree(EqualPoly()) == 3
    ensures Rotations(DifferPoly()) == {0} && Degree(DifferPoly()) == 3
  {
    assert Rotations(Sub(Query(Out, 0), Query(C, 0))) == {0};
    assert Rotations(Sub(Query(A, 0), Query(B, 0))) == {0};
    assert Rotations(Sub(Constant(1), Query(Ind, 0))) == {0};
    assert Rotations(Sub(Query(Out, 0), Sub(Query(A, 0), Query(B, 0)))) == {0};
  }

  /** The grid after the chip's region at `region`, with `out` written as the output. */
  function AfterAssign(w: Witness, region: Region, a: int, b: int, c: int, out: int): Witness
  {
    var w1 := WithSelector(w, S, region.base, region.index);
    var w2 := WithAdvice(WithAdvice(w1, Cell(A, region.base), a, region.index), Cell(B, region.base), b, region.index);
    var w3 := WithAdvice(WithAdvice(w2, Cell(C, region.base), c, region.index), Cell(Ind, region.base), IsZero(a - b), region.index);
    WithAdvice(w3, Cell(Out, region.base), out, region.index)
  }

  /** Enables the selector and writes a, b, c, the indicator and the function's value at row 0
      of one region. */
  method Assign(l: Layouter, a: int, b: int, c: int)
    modifies l
    ensures l.w == AfterAssign(old(l.w), Region(old(l.regions), old(l.offset)), a, b, c, Fun(a, b, c))
    ensures l.offset == old(l.offset) + 1 && l.regions == old(l.regions) + 1 && l.height == 0
  {
    var region := l.OpenRegion();
    l.Enable(region, S, 0);
    var _ := l.AssignAdvice(region, A.index, 0, a);
    var _ := l.AssignAdvice(region, B.index, 0, b);
    var _ := l.AssignAdvice(region, C.index, 0, c);
    var _ := l.AssignAdvice(region, Ind.index, 0, IsZero(a - b));
    var output := if a == b then c else a - b;
    var _ := l.AssignAdvice(region, Out.index, 0, output);
    l.CloseRegion();
  }

  /** The circuit's synthesize: one call of the chip. */
  method Synthesize(l: Layouter, a: int, b: int, c: int)
    modifies l
    ensures l.w == AfterAssign(old(l.w), Region(old(l.regions), old(l.offset)), a, b, c, Fun(a, b, c))
    ensures l.offset == old(l.offset) + 1 && l.regions == old(l.regions) + 1
  {
    Assign(l, a, b, c);
  }

  // The gate, branch by branch, and when a grid satisfies it.

  /** The two polynomials at a row of the domain, in terms of the cells of that row. */
  lemma EvalGate(w: Witness, n: nat, r: nat)
    requires r < n
    ensures var s := if SelectorRow(S, r) in w.enabled then 1 else 0;
      var a, b, c := CellValue(w, [], Cell(A, r)), CellValue(w, [], Cell(B, r)), CellValue(w, [], Cell(C, r));
      var ind, out := CellValue(w, [], Cell(Ind, r)), CellValue(w, [], Cell(Out, r));
      && Eval(EqualPoly(), w, [], n, r) == s * (ind * (out - c))
      && Eval(DifferPoly(), w, [], n, r) == s * (1 - ind) * (out - (a - b))
  {
    QueryInDomain(A, 0, w, [], n, r);
    QueryInDomain(B, 0, w, [], n, r);
    QueryInDomain(C, 0, w, [], n, r);
    QueryInDomain(Ind, 0, w, [], n, r);
    QueryInDomain(Out, 0, w, [], n, r);
    assert Eval(Sub(Query(Out, 0), Query(C, 0)), w, [], n, r) ==
      CellValue(w, [], Cell(Out, r)) - CellValue(w, [], Cell(C, r));
    assert Eval(Sub(Query(A, 0), Query(B, 0)), w, [], n, r) ==
      CellValue(w, [], Cell(A, r)) - CellValue(w, [], Cell(B, r));
    assert Eval(Sub(Constant(1), Query(Ind, 0)), w, [], n, r) == 1 - CellValue(w, [], Cell(Ind, r));
    assert Eval(Sub(Query(Out, 0), Sub(Query(A, 0), Query(B, 0))), w, [], n, r) ==
      CellValue(w, [], Cell(Out, r)) - (CellValue(w, [], Cell(A, r)) - CellValue(w, [], Cell(B, r)));
  }

  /** At a row with the selector on, indicator 1 makes the first polynomial the difference
      between the output and c and the second vanish; indicator 0 the other way round, with
      a - b in place of c. */
  lemma Branches(w: Witness, n: nat, r: nat)
    requires r < n && SelectorRow(S, r) in w.enabled
    ensures var a, b, c := CellValue(w, [], Cell(A, r)), CellValue(w, [], Cell(B, r)), CellValue(w, [], Cell(C, r));
      var ind, out := CellValue(w, [], Cell(Ind, r)), CellValue(w, [], Cell(Out, r));
      && (ind == 1 ==> Eval(EqualPoly(), w, [], n, r) == out - c && Eval(DifferPoly(), w, [], n, r) == 0)
      && (ind == 0 ==> Eval(EqualPoly(), w, [], n, r) == 0 && Eval(DifferPoly(), w, [], n, r) == out - (a - b))
  {
    EvalGate(w, n, r);
  }

  /** With the indicator the gadget gives for a - b, both polynomials vanish exactly when the
      output is f(a, b, c). */
  lemma {:induction false} RowIff(a: int, b: int, c: int, out: int)
    ensures var ind := IsZero(a - b);
      ind * (out - c) == 0 && (1 - ind) * (out - (a - b)) == 0 <==> out == Fun(a, b, c)
  {
    if a == b {
      assert IsZero(a - b) == 1;
    } else {
      assert IsZero(a - b) == 0;
    }
  }

  /** The chip's region on an empty grid with `out` in the output cell. */
  function Grid(a: int, b: int, c: int, out: int): Witness
  {
    AfterAssign(Empty, Region(0, 0), a, b, c, out)
  }

  /** The chip fills one row of one region: the selector is on only at row 0, in region 0, and
      the five cells of that row are the only cells written, each once. */
  lemma SingleRow(a: int, b: int, c: int, out: int)
    ensures var w := Grid(a, b, c, out);
      && w.enabled == map[SelectorRow(S, 0) := 0]
      && (forall cell :: cell in w.values <==> cell.row == 0 && cell.column in {A, B, C, Ind, Out})
      && (forall cell :: cell in w.cellRegion ==> w.cellRegion[cell] == 0)
      && w.log == [Cell(A, 0), Cell(B, 0), Cell(C, 0), Cell(Ind, 0), Cell(Out, 0)]
  {
  }

  /** The five cells of row 0 were assigned in region 0. */
  lemma RowAssigned(a: int, b: int, c: int, out: int)
    ensures var w := Grid(a, b, c, out);
      && AssignedIn(w, Cell(A, 0), 0) && AssignedIn(w, Cell(B, 0), 0) && AssignedIn(w, Cell(C, 0), 0)
      && AssignedIn(w, Cell(Ind, 0), 0) && AssignedIn(w, Cell(Out, 0), 0)
  {
  }

  /** The cells the two polynomials query from row 0 were all assigned in the chip's region. */
  lemma QueriesGate(a: int, b: int, c: int, out: int, n: nat)
    requires n > 0
    ensures QueriesIn(EqualPoly(), Grid(a, b, c, out), n, 0, 0)
    ensures QueriesIn(DifferPoly(), Grid(a, b, c, out), n, 0, 0)
  {
    var w := Grid(a, b, c, out);
    RowAssigned(a, b, c, out);
    QueryAssignedIn(A, 0, w, n, 0, 0);
    QueryAssignedIn(B, 0, w, n, 0, 0);
    QueryAssignedIn(C, 0, w, n, 0, 0);
    QueryAssignedIn(Ind, 0, w, n, 0, 0);
    QueryAssignedIn(Out, 0, w, n, 0, 0);
    assert QueriesIn(Sub(Query(Out, 0), Query(C, 0)), w, n, 0, 0);
    assert QueriesIn(Sub(Constant(1), Query(Ind, 0)), w, n, 0, 0) by {
      assert QueriesIn(Negated(Query(Ind, 0)), w, n, 0, 0);
    }
    assert QueriesIn(Sub(Query(Out, 0), Sub(Query(A, 0), Query(B, 0))), w, n, 0, 0) by {
      assert QueriesIn(Sub(Query(A, 0), Query(B, 0)), w, n, 0, 0);
      assert QueriesIn(Negated(Sub(Query(A, 0), Query(B, 0))), w, n, 0, 0);
    }
  }

  /** With the output f(a, b, c), both polynomials vanish at every row of the domain: at row 0
      by the branch the indicator selects, elsewhere because the selector is off. */
  lemma RowVanishes(a: int, b: int, c: int, n: nat, r: nat)
    requires r < n
    ensures Eval(EqualPoly(), Grid(a, b, c, Fun(a, b, c)), [], n, r) == 0
    ensures Eval(DifferPoly(), Grid(a, b, c, Fun(a, b, c)), [], n, r) == 0
  {
    var w := Grid(a, b, c, Fun(a, b, c));
    assert w.enabled == map[SelectorRow(S, 0) := 0];
    if r == 0 {
      assert CellValue(w, [], Cell(Ind, 0)) == IsZero(a - b);
      assert CellValue(w, [], Cell(Out, 0)) == Fun(a, b, c);
      assert CellValue(w, [], Cell(C, 0)) == c;
      assert CellValue(w, [], Cell(A, 0)) - CellValue(w, [], Cell(B, 0)) == a - b;
      Branches(w, n, 0);
    } else {
      EvalGate(w, n, r);
    }
  }

  /** With the output f(a, b, c), the gate holds on the whole domain. */
  lemma GridGatesHold(a: int, b: int, c: int, n: nat)
    requires n > 0
    ensures GatesHold(Configure(), Grid(a, b, c, Fun(a, b, c)), [], n)
  {
    var w := Grid(a, b, c, Fun(a, b, c));
    var cs := Configure();
    assert cs.gates == [Gate("f(a, b, c) = if a == b {c} else {a - b}", S, [EqualPoly(), DifferPoly()])];
    forall g, p, r: nat | g in cs.gates && p in g.polys && r < n
      ensures Eval(p, w, [], n, r) == 0
    {
      RowVanishes(a, b, c, n, r);
    }
  }

  /** With any other output, one of the two polynomials is nonzero at row 0. */
  lemma GridGatesFail(a: int, b: int, c: int, out: int, n: nat)
    requires n > 0 && out != Fun(a, b, c)
    ensures !GatesHold(Configure(), Grid(a, b, c, out), [], n)
  {
    var w := Grid(a, b, c, out);
    var cs := Configure();
    assert SelectorRow(S, 0) in w.enabled;
    EvalGate(w, n, 0);
    RowIff(a, b, c, out);
    assert cs.gates[0] in cs.gates && EqualPoly() in cs.gates[0].polys && DifferPoly() in cs.gates[0].polys;
  }

  /** Every cell the gate reads at its one enabled row was assigned in the chip's region. */
  lemma GridQueries(a: int, b: int, c: int, out: int, n: nat)
    requires n > 0
    ensures QueriesAssigned(Configure(), Grid(a, b, c, out), n)
  {
    var w := Grid(a, b, c, out);
    var cs := Configure();
    assert w.enabled == map[SelectorRow(S, 0) := 0];
    forall g, p, sr | g in cs.gates && p in g.polys && sr in w.enabled && sr.selector == g.selector
      ensures QueriesIn(p, w, n, sr.row, w.enabled[sr])
    {
      QueriesGate(a, b, c, out, n);
    }
  }

  /** Whatever the domain size, a region holding a, b, c, the gadget's indicator and `out`
      satisfies the circuit exactly when `out` is f(a, b, c). */
  lemma SatisfiedIff(a: int, b: int, c: int, out: int, k: nat)
    ensures Satisfied(Configure(), Grid(a, b, c, out), [], k) <==> out == Fun(a, b, c)
  {
    var n := Pow2(k);
    var w := Grid(a, b, c, out);
    assert w.values == map[Cell(A, 0) := a, Cell(B, 0) := b, Cell(C, 0) := c, Cell(Ind, 0) := IsZero(a - b), Cell(Out, 0) := out];
    assert FitsIn(w, n);
    if out == Fun(a, b, c) {
      GridGatesHold(a, b, c, n);
    } else {
      GridGatesFail(a, b, c, out, n);
    }
    GridQueries(a, b, c, out, n);
  }

  /** A run of the circuit on a fresh layouter. */
  method Run(a: int, b: int, c: int) returns (w: Witness)
    ensures w == Grid(a, b, c, Fun(a, b, c))
  {
    var l := new Layouter([]);
    Synthesize(l, a, b, c);
    w := l.w;
  }

  /** Every input is accepted with the output the chip computes. */
  method Prove(a: int, b: int, c: int, k: nat) returns (w: Witness)
    ensures Satisfied(Configure(), w, [], k)
  {
    w := Run(a, b, c);
    SatisfiedIff(a, b, c, Fun(a, b, c), k);
  }

  /** The circuit's test: a = b = 12 and c = 15 give output 15 and satisfy the circuit. */
  method TestCircuit() returns (w: Witness)
    ensures Cell(Out, 0) in w.values && w.values[Cell(Out, 0)] == 15
    ensures Satisfied(Configure(), w, [], 4)
  {
    w := Run(12, 12, 15);
    SatisfiedIff(12, 12, 15, 15, 4);
  }
}
