/** Fibonacci circuit with a single advice column: row r of one region holds term r of the
    recurrence, and gate "add" ties each row to the two after it (a + next a = a two rows
    down). The seeds come from public input rows 0 and 1 into rows 0 and 1; the last row is
    bound to public input row 2. */
module FibonacciExample3 {
  import opened Plonk
  import opened Recurrence

  const A := Advice(0)
  const Pi := Instance(0)
  /** The selector of gate "add". */
  const S: nat := 0

  /** s * (a + next a - a two rows down). */
  function AddPoly(): Expr
  {
    Product(Selected(S), Sub(Sum(Query(A, 0), Query(A, 1)), Query(A, 2)))
  }

  /** The chip's configuration: one gate reading rotations 0, 1 and 2, no lookup, equality on
      the advice and the instance column. */
  function Configure(): (cs: ConstraintSystem)
    ensures |cs.gates| == 1 && cs.lookups == [] && cs.gates[0].selector == S
    ensures forall g, p :: g in cs.gates && p in g.polys ==> Rotations(p) == {0, 1, 2} && Degree(p) == 2
  {
    ConstraintSystem([Gate("add", S, [AddPoly()])], [], {A, Pi})
  }

  /** The grid after the first `m` rows of the region "entire fibonacci table" at `region`,
      filled for a table of `nrows` rows: rows 0 and 1 take the seeds from public input and
      have the selector on, every later row r holds term r and has the selector on unless it
      is one of the last two. */
  function Rows(w: Witness, region: Region, instance: seq<int>, nrows: nat, m: nat): Witness
    requires m >= 2
  {
    var x, y := InstanceValue(instance, 0), InstanceValue(instance, 1);
    if m == 2 then
      var w1 := WithSelector(WithSelector(w, S, region.base, region.index), S, region.base + 1, region.index);
      var w2 := WithCopy(WithAdvice(w1, Cell(A, region.base), x, region.index), Cell(Pi, 0), Cell(A, region.base));
      WithCopy(WithAdvice(w2, Cell(A, region.base + 1), y, region.index), Cell(Pi, 1), Cell(A, region.base + 1))
    else
      NextRow(Rows(w, region, instance, nrows, m - 1), region, x, y, nrows, m - 1)
  }

  /** One pass of the loop: row `row` (row >= 2) gets term `row`, and the selector unless it is
      one of the last two rows. */
  function NextRow(w: Witness, region: Region, x: int, y: int, nrows: nat, row: nat): Witness
  {
    var w1 := if row < nrows - 2 then WithSelector(w, S, region.base + row, region.index) else w;
    WithAdvice(w1, Cell(A, region.base + row), Term(x, y, row), region.index)
  }

  /** Rows 0 and 1 of the region: the selector on both, and the seeds from public input rows 0
      and 1. */
  method AssignSeedRows(l: Layouter, region: Region, nrows: nat) returns (a: AssignedCell, b: AssignedCell)
    modifies l
    ensures a == AssignedCell(Cell(A, region.base), InstanceValue(l.instance, 0))
    ensures b == AssignedCell(Cell(A, region.base + 1), InstanceValue(l.instance, 1))
    ensures l.w == Rows(old(l.w), region, l.instance, nrows, 2)
    ensures l.offset == old(l.offset) && l.regions == old(l.regions) && l.height == Max(old(l.height), 2)
  {
    l.Enable(region, S, 0);
    l.Enable(region, S, 1);
    a := l.AssignAdviceFromInstance(region, 0, A.index, 0);
    b := l.AssignAdviceFromInstance(region, 1, A.index, 1);
  }

  /** One pass of the loop at `row`: the selector unless it is one of the last two rows, then
      the sum of the two cells before it. */
  method FillRow(l: Layouter, region: Region, nrows: nat, row: nat, a: AssignedCell, b: AssignedCell)
    returns (c: AssignedCell)
    requires row >= 2
    requires a.value == Term(InstanceValue(l.instance, 0), InstanceValue(l.instance, 1), row - 2)
    requires b.value == Term(InstanceValue(l.instance, 0), InstanceValue(l.instance, 1), row - 1)
    modifies l
    ensures var x, y := InstanceValue(l.instance, 0), InstanceValue(l.instance, 1);
      && c == AssignedCell(Cell(A, region.base + row), Term(x, y, row))
      && l.w == NextRow(old(l.w), region, x, y, nrows, row)
    ensures l.offset == old(l.offset) && l.regions == old(l.regions) && l.height == Max(old(l.height), row + 1)
  {
    if row < nrows - 2 {
      l.Enable(region, S, row);
    }
    TermStep(InstanceValue(l.instance, 0), InstanceValue(l.instance, 1), row - 2);
    c := l.AssignAdvice(region, A.index, row, a.value + b.value);
  }

  /** Fills the whole table in one region and returns its last cell; a table of fewer than two
      rows is just the two seed rows. */
  method AssignRow(l: Layouter, nrows: nat) returns (out: AssignedCell)
    modifies l
    ensures var m := Max(nrows, 2);
      out == AssignedCell(Cell(A, old(l.offset) + m - 1), Term(InstanceValue(l.instance, 0), InstanceValue(l.instance, 1), m - 1))
    ensures l.w == Rows(old(l.w), Region(old(l.regions), old(l.offset)), l.instance, nrows, Max(nrows, 2))
    ensures l.offset == old(l.offset) + Max(nrows, 2) && l.regions == old(l.regions) + 1 && l.height == 0
  {
    ghost var w0 := l.w;
    ghost var x, y := InstanceValue(l.instance, 0), InstanceValue(l.instance, 1);
    var region := l.OpenRegion();
    var a, b := AssignSeedRows(l, region, nrows);
    var row := 2;
    while row < nrows
      invariant 2 <= row <= Max(nrows, 2)
      invariant l.w == Rows(w0, region, l.instance, nrows, row)
      invariant a == AssignedCell(Cell(A, region.base + row - 2), Term(x, y, row - 2))
      invariant b == AssignedCell(Cell(A, region.base + row - 1), Term(x, y, row - 1))
      invariant l.offset == region.base && l.regions == region.index + 1 && l.height == row
    {
      var c := FillRow(l, region, nrows, row, a, b);
      a := b;
      b := c;
      row := row + 1;
    }
    out := b;
    l.CloseRegion();
  }

  method ExposePublic(l: Layouter, cell: AssignedCell, row: nat)
    modifies l
    ensures l.w == WithCopy(old(l.w), cell.cell, Cell(Pi, row))
    ensures l.offset == old(l.offset) && l.regions == old(l.regions) && l.height == old(l.height)
  {
    l.ConstrainInstance(cell.cell, row);
  }

  /** The circuit's synthesize: a table of ten rows, its last cell exposed as public input
      row 2. */
  method Synthesize(l: Layouter)
    modifies l
    ensures l.w == WithCopy(Rows(old(l.w), Region(old(l.regions), old(l.offset)), l.instance, 10, 10),
                            Cell(A, old(l.offset) + 9), Cell(Pi, 2))
    ensures l.offset == old(l.offset) + 10 && l.regions == old(l.regions) + 1
  {
    var out := AssignRow(l, 10);
    ExposePublic(l, out, 2);
  }

  /** Starting from an empty grid, the first `m` rows assign row 0, 1, ..., m - 1 of the
      column in that order, so each row exactly once. */
  lemma {:induction false} AssignedOnce(instance: seq<int>, nrows: nat, m: nat)
    requires m >= 2
    ensures var log := Rows(Empty, Region(0, 0), instance, nrows, m).log;
      && |log| == m
      && (forall i :: 0 <= i < m ==> log[i] == Cell(A, i))
      && (forall i, j :: 0 <= i < j < m ==> log[i] != log[j])
  {
    if m > 2 {
      AssignedOnce(instance, nrows, m - 1);
    }
  }

  // What the synthesized grid holds, and when it satisfies the circuit.

  /** The value the table puts in a cell: row r holds term r. */
  function Expected(x: int, y: int, c: Cell): int
  {
    match c.column
    case Advice(_) => Term(x, y, c.row)
    case Instance(_) => if c.row == 0 then x else y
    case Table(_) => 0
  }

  /** A cell of the first `m` rows. */
  predicate Filled(c: Cell, m: nat)
  {
    c.column == A && c.row < m
  }

  /** Rows at which the chip switches the selector on, for a table of `nrows` rows. */
  predicate EnabledAt(row: nat, nrows: nat)
  {
    row < 2 || row + 2 < nrows
  }

  ghost predicate ShapeValues(w: Witness, x: int, y: int, m: nat)
  {
    && (forall c :: c in w.values <==> Filled(c, m))
    && (forall c :: c in w.cellRegion <==> Filled(c, m))
    && (forall c :: c in w.values ==> w.values[c] == Expected(x, y, c) && w.cellRegion[c] == 0)
  }

  ghost predicate ShapeEnabled(w: Witness, nrows: nat, m: nat)
  {
    && (forall sr :: sr in w.enabled <==> sr.selector == S && sr.row < m && EnabledAt(sr.row, nrows))
    && (forall sr :: sr in w.enabled ==> w.enabled[sr] == 0)
  }

  /** The first `m` rows of a table of `nrows` rows, filled from seeds x and y in region 0. */
  ghost predicate Shape(w: Witness, x: int, y: int, nrows: nat, m: nat)
  {
    && ShapeValues(w, x, y, m)
    && ShapeEnabled(w, nrows, m)
    && w.copies == {Copy(Cell(Pi, 0), Cell(A, 0)), Copy(Cell(Pi, 1), Cell(A, 1))}
  }

  lemma ValuesStep(w: Witness, instance: seq<int>, nrows: nat, m: nat)
    requires m >= 3 && ShapeValues(Rows(w, Region(0, 0), instance, nrows, m - 1), InstanceValue(instance, 0), InstanceValue(instance, 1), m - 1)
    ensures ShapeValues(Rows(w, Region(0, 0), instance, nrows, m), InstanceValue(instance, 0), InstanceValue(instance, 1), m)
  {
    var w' := Rows(w, Region(0, 0), instance, nrows, m);
    forall c | Filled(c, m)
      ensures c in w'.values && c in w'.cellRegion
    {
      if c.row < m - 1 {
        assert Filled(c, m - 1);
      }
    }
  }

  lemma EnabledStep(w: Witness, instance: seq<int>, nrows: nat, m: nat)
    requires m >= 3 && ShapeEnabled(Rows(w, Region(0, 0), instance, nrows, m - 1), nrows, m - 1)
    ensures ShapeEnabled(Rows(w, Region(0, 0), instance, nrows, m), nrows, m)
  {
  }

  /** Starting from an empty grid, the first `m` rows hold the terms of the recurrence in one
      region, the selector is on at rows 0 and 1 and at every row before the last two, and
      the only copy constraints bind the seeds. */
  lemma {:induction false} TableShape(instance: seq<int>, nrows: nat, m: nat)
    requires m >= 2
    ensures Shape(Rows(Empty, Region(0, 0), instance, nrows, m), InstanceValue(instance, 0), InstanceValue(instance, 1), nrows, m)
  {
    var x, y := InstanceValue(instance, 0), InstanceValue(instance, 1);
    var w := Rows(Empty, Region(0, 0), instance, nrows, m);
    if m == 2 {
      assert w.values == map[Cell(A, 0) := x, Cell(A, 1) := y];
      assert w.cellRegion == map[Cell(A, 0) := 0, Cell(A, 1) := 0];
      assert w.enabled == map[SelectorRow(S, 0) := 0, SelectorRow(S, 1) := 0];
    } else {
      TableShape(instance, nrows, m - 1);
      ValuesStep(Empty, instance, nrows, m);
      EnabledStep(Empty, instance, nrows, m);
    }
  }

  /** The grid synthesize leaves for a table of `nrows` rows, with its last cell bound to
      public input row 2. */
  function Exposed(instance: seq<int>, nrows: nat): Witness
  {
    WithCopy(Rows(Empty, Region(0, 0), instance, nrows, Max(nrows, 2)), Cell(A, Max(nrows, 2) - 1), Cell(Pi, 2))
  }

  /** Gate "add" at a row whose next two rows are in the domain. */
  lemma EvalAdd(w: Witness, instance: seq<int>, n: nat, r: nat)
    requires r + 2 < n
    ensures Eval(AddPoly(), w, instance, n, r) ==
      if SelectorRow(S, r) in w.enabled
      then CellValue(w, instance, Cell(A, r)) + CellValue(w, instance, Cell(A, r + 1)) - CellValue(w, instance, Cell(A, r + 2))
      else 0
  {
    QueryInDomain(A, 0, w, instance, n, r);
    QueryInDomain(A, 1, w, instance, n, r);
    QueryInDomain(A, 2, w, instance, n, r);
    SelectorGates(S, Sub(Sum(Query(A, 0), Query(A, 1)), Query(A, 2)), w, instance, n, r);
  }

  /** The cells gate "add" queries from row r are rows r, r + 1 and r + 2. */
  lemma QueriesAdd(w: Witness, n: nat, r: nat, region: nat)
    requires r + 2 < n
    ensures QueriesIn(AddPoly(), w, n, r, region) <==>
      AssignedIn(w, Cell(A, r), region) && AssignedIn(w, Cell(A, r + 1), region) && AssignedIn(w, Cell(A, r + 2), region)
  {
    QueryAssignedIn(A, 0, w, n, r, region);
    QueryAssignedIn(A, 1, w, n, r, region);
    QueryAssignedIn(A, 2, w, n, r, region);
    var ab := Sum(Query(A, 0), Query(A, 1));
    assert QueriesIn(ab, w, n, r, region) <==> QueriesIn(Query(A, 0), w, n, r, region) && QueriesIn(Query(A, 1), w, n, r, region);
    assert QueriesIn(Sub(ab, Query(A, 2)), w, n, r, region) <==>
      QueriesIn(ab, w, n, r, region) && QueriesIn(Query(A, 2), w, n, r, region);
  }

  /** In a table of that shape with at least four rows, gate "add" holds on the whole domain. */
  lemma LongTableGates(w: Witness, instance: seq<int>, nrows: nat, n: nat)
    requires 4 <= nrows <= n
    requires ShapeValues(w, InstanceValue(instance, 0), InstanceValue(instance, 1), nrows) && ShapeEnabled(w, nrows, nrows)
    ensures GatesHold(Configure(), w, instance, n)
  {
    var x, y := InstanceValue(instance, 0), InstanceValue(instance, 1);
    var cs := Configure();
    assert cs.gates == [Gate("add", S, [AddPoly()])];
    forall g, p, r: nat | g in cs.gates && p in g.polys && r < n
      ensures Eval(p, w, instance, n, r) == 0
    {
      if SelectorRow(S, r) in w.enabled {
        assert Filled(Cell(A, r), nrows) && Filled(Cell(A, r + 1), nrows) && Filled(Cell(A, r + 2), nrows);
        EvalAdd(w, instance, n, r);
        TermStep(x, y, r);
      } else {
        SelectorGates(S, Sub(Sum(Query(A, 0), Query(A, 1)), Query(A, 2)), w, instance, n, r);
      }
    }
  }

  /** In a table of that shape with at least four rows, every enabled row reads rows of region
      0 only. */
  lemma LongTableQueries(w: Witness, x: int, y: int, nrows: nat, n: nat)
    requires 4 <= nrows <= n
    requires ShapeValues(w, x, y, nrows) && ShapeEnabled(w, nrows, nrows)
    ensures QueriesAssigned(Configure(), w, n)
  {
    var cs := Configure();
    assert cs.gates == [Gate("add", S, [AddPoly()])];
    forall g, p, sr | g in cs.gates && p in g.polys && sr in w.enabled && sr.selector == g.selector
      ensures QueriesIn(p, w, n, sr.row, w.enabled[sr])
    {
      QueriesAdd(w, n, sr.row, w.enabled[sr]);
      assert Filled(Cell(A, sr.row), nrows) && Filled(Cell(A, sr.row + 1), nrows) && Filled(Cell(A, sr.row + 2), nrows);
    }
  }

  /** A table of at least four rows satisfies the circuit exactly when public input row 2 is
      the term its last row holds. */
  lemma LongTableSatisfiedIff(t: Witness, instance: seq<int>, nrows: nat, k: nat)
    requires 4 <= nrows <= Pow2(k)
    requires Shape(t, InstanceValue(instance, 0), InstanceValue(instance, 1), nrows, nrows)
    ensures Satisfied(Configure(), WithCopy(t, Cell(A, nrows - 1), Cell(Pi, 2)), instance, k) <==>
            InstanceValue(instance, 2) == Term(InstanceValue(instance, 0), InstanceValue(instance, 1), nrows - 1)
  {
    var x, y := InstanceValue(instance, 0), InstanceValue(instance, 1);
    var n := Pow2(k);
    var cs := Configure();
    var w := WithCopy(t, Cell(A, nrows - 1), Cell(Pi, 2));
    assert w.values == t.values && w.cellRegion == t.cellRegion && w.enabled == t.enabled;
    LongTableGates(w, instance, nrows, n);
    LongTableQueries(w, x, y, nrows, n);
    assert FitsIn(w, n);
    assert CopiesPermitted(cs, w);
    assert Filled(Cell(A, nrows - 1), nrows);
    assert CellValue(w, instance, Cell(A, nrows - 1)) == Term(x, y, nrows - 1);
    assert CopiesHold(w, instance) <==> InstanceValue(instance, 2) == Term(x, y, nrows - 1);
  }

  /** A table of fewer than four rows is rejected whatever the public input: the selector is
      on at row 1 and the gate reads row 3, which no region assigned. */
  lemma ShortTableRejected(t: Witness, instance: seq<int>, nrows: nat, k: nat)
    requires nrows < 4 && k >= 2
    requires Shape(t, InstanceValue(instance, 0), InstanceValue(instance, 1), nrows, Max(nrows, 2))
    ensures !Satisfied(Configure(), WithCopy(t, Cell(A, Max(nrows, 2) - 1), Cell(Pi, 2)), instance, k)
  {
    var n := Pow2(k);
    var w := WithCopy(t, Cell(A, Max(nrows, 2) - 1), Cell(Pi, 2));
    var cs := Configure();
    assert n >= 4 by {
      assert Pow2(k) == 2 * (2 * Pow2(k - 2));
    }
    QueriesAdd(w, n, 1, 0);
    assert !Filled(Cell(A, 3), Max(nrows, 2));
    assert SelectorRow(S, 1) in w.enabled && w.enabled[SelectorRow(S, 1)] == 0;
    assert !QueriesIn(AddPoly(), w, n, 1, 0);
    assert cs.gates[0] in cs.gates && AddPoly() in cs.gates[0].polys;
  }

  /** The circuit accepts exactly when the table has at least four rows and public input row 2
      is term nrows - 1 of the recurrence seeded from public input rows 0 and 1. */
  lemma SatisfiedIff(instance: seq<int>, nrows: nat, k: nat)
    requires k >= 2 && nrows <= Pow2(k)
    ensures Satisfied(Configure(), Exposed(instance, nrows), instance, k) <==>
            nrows >= 4 &&
            InstanceValue(instance, 2) == Term(InstanceValue(instance, 0), InstanceValue(instance, 1), nrows - 1)
  {
    TableShape(instance, nrows, Max(nrows, 2));
    if nrows >= 4 {
      LongTableSatisfiedIff(Rows(Empty, Region(0, 0), instance, nrows, nrows), instance, nrows, k);
    } else {
      ShortTableRejected(Rows(Empty, Region(0, 0), instance, nrows, Max(nrows, 2)), instance, nrows, k);
    }
  }

  /** A run of the circuit on a fresh layouter. */
  method Run(instance: seq<int>) returns (w: Witness)
    ensures w == Exposed(instance, 10)
  {
    var l := new Layouter(instance);
    Synthesize(l);
    w := l.w;
  }

  /** The circuit's test: seeds 1 and 1 with public output 55 in a domain of 2^4 rows. */
  method TestCircuit() returns (w: Witness)
    ensures Satisfied(Configure(), w, [1, 1, 55], 4)
  {
    w := Run([1, 1, 55]);
    OutputAccepted();
  }

  lemma OutputAccepted()
    ensures Satisfied(Configure(), Exposed([1, 1, 55], 10), [1, 1, 55], 4)
  {
    assert Pow2(4) == 16;
    SatisfiedIff([1, 1, 55], 10, 4);
    FibTen();
  }
}
