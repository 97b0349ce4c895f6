/** Fibonacci circuit with two advice columns a and b laid out in a single region: row r holds
    terms 2r and 2r + 1 of the recurrence, and one selector guards two polynomials that tie
    each row to the next (a + b = next a, b + next a = next b). The seeds come from public
    input rows 0 and 1; the b of the last row is bound to public input row 2. */
module FibonacciExample2 {
  import opened Plonk
  import opened Recurrence

  const A := Advice(0)
  const B := Advice(1)
  const Pi := Instance(0)
  /** The selector of gate "add". */
  const S: nat := 0

  /** s * (a + b - next a). */
  function NextAPoly(): Expr
  {
    Product(Selected(S), Sub(Sum(Query(A, 0), Query(B, 0)), Query(A, 1)))
  }

  /** s * (b + next a - next b). */
  function NextBPoly(): Expr
  {
    Product(Selected(S), Sub(Sum(Query(B, 0), Query(A, 1)), Query(B, 1)))
  }

  /** The chip's configuration: one gate with two polynomials reading the current and the next
      row, no lookup, equality on a, b and the instance column. */
  function Configure(): (cs: ConstraintSystem)
    ensures |cs.gates| == 1 && cs.lookups == [] && cs.gates[0].selector == S
    ensures forall g, p :: g in cs.gates && p in g.polys ==> Rotations(p) == {0, 1} && Degree(p) == 2
  {
    ConstraintSystem([Gate("add", S, [NextAPoly(), NextBPoly()])], [], {A, B, Pi})
  }

  /** The grid after the first `m` rows of the region "entire fibonacci table" at `region`,
      filled for a table of `nrows` rows: row 0 takes the seeds from public input, every later
      row r holds terms 2r and 2r + 1, and the selector is on at row 0 and at every row but the
      last. */
  function Rows(w: Witness, region: Region, instance: seq<int>, nrows: nat, m: nat): Witness
    requires m >= 1
  {
    var x, y := InstanceValue(instance, 0), InstanceValue(instance, 1);
    if m == 1 then
      var w1 := WithSelector(w, S, region.base, region.index);
      var w2 := WithCopy(WithAdvice(w1, Cell(A, region.base), x, region.index), Cell(Pi, 0), Cell(A, region.base));
      WithCopy(WithAdvice(w2, Cell(B, region.base), y, region.index), Cell(Pi, 1), Cell(B, region.base))
    else
      NextRow(Rows(w, region, instance, nrows, m - 1), region, x, y, nrows, m - 1)
  }

  /** One pass of the loop: row `row` of the table (row >= 1) gets terms 2 * row and
      2 * row + 1, and the selector unless it is the last row. */
  function NextRow(w: Witness, region: Region, x: int, y: int, nrows: nat, row: nat): Witness
  {
    var w1 := if row < nrows - 1 then WithSelector(w, S, region.base + row, region.index) else w;
    var w2 := WithAdvice(w1, Cell(A, region.base + row), Term(x, y, 2 * row), region.index);
    WithAdvice(w2, Cell(B, region.base + row), Term(x, y, 2 * row + 1), region.index)
  }

  /** The loop's values: terms 2r - 2 and 2r - 1 give terms 2r and 2r + 1. */
  lemma NextTerms(x: int, y: int, row: nat)
    requires row >= 1
    ensures Term(x, y, 2 * row) == Term(x, y, 2 * row - 2) + Term(x, y, 2 * row - 1)
    ensures Term(x, y, 2 * row + 1) == Term(x, y, 2 * row - 1) + Term(x, y, 2 * row)
  {
    TermStep(x, y, 2 * row - 2);
    TermStep(x, y, 2 * row - 1);
  }

  /** Row 0 of the region: the selector, and a and b taken from public input rows 0 and 1. */
  method AssignSeedRow(l: Layouter, region: Region, nrows: nat) returns (a: AssignedCell, b: AssignedCell)
    modifies l
    ensures a == AssignedCell(Cell(A, region.base), InstanceValue(l.instance, 0))
    ensures b == AssignedCell(Cell(B, region.base), InstanceValue(l.instance, 1))
    ensures l.w == Rows(old(l.w), region, l.instance, nrows, 1)
    ensures l.offset == old(l.offset) && l.regions == old(l.regions) && l.height == Max(old(l.height), 1)
  {
    l.Enable(region, S, 0);
    a := l.AssignAdviceFromInstance(region, 0, A.index, 0);
    b := l.AssignAdviceFromInstance(region, 1, B.index, 0);
  }

  /** One pass of the loop at `row`: the selector unless it is the last row, then a := a + b and
      b := b + a, the new a. */
  method FillRow(l: Layouter, region: Region, nrows: nat, row: nat, a: AssignedCell, b: AssignedCell)
    returns (a': AssignedCell, b': AssignedCell)
    requires row >= 1
    requires a.value == Term(InstanceValue(l.instance, 0), InstanceValue(l.instance, 1), 2 * row - 2)
    requires b.value == Term(InstanceValue(l.instance, 0), InstanceValue(l.instance, 1), 2 * row - 1)
    modifies l
    ensures var x, y := InstanceValue(l.instance, 0), InstanceValue(l.instance, 1);
      && a' == AssignedCell(Cell(A, region.base + row), Term(x, y, 2 * row))
      && b' == AssignedCell(Cell(B, region.base + row), Term(x, y, 2 * row + 1))
      && l.w == NextRow(old(l.w), region, x, y, nrows, row)
    ensures l.offset == old(l.offset) && l.regions == old(l.regions) && l.height == Max(old(l.height), row + 1)
  {
    if row < nrows - 1 {
      l.Enable(region, S, row);
    }
    NextTerms(InstanceValue(l.instance, 0), InstanceValue(l.instance, 1), row);
    a' := l.AssignAdvice(region, A.index, row, a.value + b.value);
    b' := l.AssignAdvice(region, B.index, row, b.value + a'.value);
  }

  /** Fills the whole table in one region and returns the a and b cells of its last row; a
      table of zero or one rows is just the seed row. */
  method AssignRow(l: Layouter, nrows: nat) returns (a: AssignedCell, b: AssignedCell)
    modifies l
    ensures var x, y, m := InstanceValue(l.instance, 0), InstanceValue(l.instance, 1), Max(nrows, 1);
      && a == AssignedCell(Cell(A, old(l.offset) + m - 1), Term(x, y, 2 * m - 2))
      && b == AssignedCell(Cell(B, old(l.offset) + m - 1), Term(x, y, 2 * m - 1))
    ensures l.w == Rows(old(l.w), Region(old(l.regions), old(l.offset)), l.instance, nrows, Max(nrows, 1))
    ensures l.offset == old(l.offset) + Max(nrows, 1) && l.regions == old(l.regions) + 1 && l.height == 0
  {
    ghost var w0 := l.w;
    ghost var x, y := InstanceValue(l.instance, 0), InstanceValue(l.instance, 1);
    var region := l.OpenRegion();
    a, b := AssignSeedRow(l, region, nrows);
    var row := 1;
    while row < nrows
      invariant 1 <= row <= Max(nrows, 1)
      invariant l.w == Rows(w0, region, l.instance, nrows, row)
      invariant a == AssignedCell(Cell(A, region.base + row - 1), Term(x, y, 2 * row - 2))
      invariant b == AssignedCell(Cell(B, region.base + row - 1), Term(x, y, 2 * row - 1))
      invariant l.offset == region.base && l.regions == region.index + 1 && l.height == row
    {
      a, b := FillRow(l, region, nrows, row, a, b);
      row := row + 1;
    }
    l.CloseRegion();
  }

  method ExposePublic(l: Layouter, cell: AssignedCell, row: nat)
    modifies l
    ensures l.w == WithCopy(old(l.w), cell.cell, Cell(Pi, row))
    ensures l.offset == old(l.offset) && l.regions == old(l.regions) && l.height == old(l.height)
  {
    l.ConstrainInstance(cell.cell, row);
  }

  /** The circuit's synthesize: a table of five rows, its last b exposed as public input row 2. */
  method Synthesize(l: Layouter)
    modifies l
    ensures l.w == WithCopy(Rows(old(l.w), Region(old(l.regions), old(l.offset)), l.instance, 5, 5),
                            Cell(B, old(l.offset) + 4), Cell(Pi, 2))
    ensures l.offset == old(l.offset) + 5 && l.regions == old(l.regions) + 1
  {
    var _, b := AssignRow(l, 5);
    ExposePublic(l, b, 2);
  }

  // What the synthesized grid holds, and when it satisfies the circuit.

  /** The value the table puts in a cell: row r holds terms 2r and 2r + 1 in a and b. */
  function Expected(x: int, y: int, c: Cell): int
  {
    match c.column
    case Advice(i) => Term(x, y, 2 * c.row + i)
    case Instance(_) => if c.row == 0 then x else y
    case Table(_) => 0
  }

  /** An a or b cell of the first `m` rows. */
  predicate Filled(c: Cell, m: nat)
  {
    (c.column == A || c.column == B) && c.row < m
  }

  /** Rows at which the chip switches the selector on, for a table of `nrows` rows. */
  predicate EnabledAt(row: nat, nrows: nat)
  {
    row == 0 || row + 1 < nrows
  }

  ghost predicate ShapeValues(w: Witness, x: int, y: int, m: nat)
  {
    && (forall c :: c in w.values <==> Filled(c, m))
    && (forall c :: c in w.cellRegion <==> Filled(c, m))
    && (forall c :: c in w.values ==> w.values[c] == Expected(x, y, c) && w.cellRegion[c] == 0)
  }

  ghost predicate ShapeEnabled(w: Witness, nrows: nat, m: nat)
  {
    && (forall sr :: sr in w.enabled <==> sr.selector == S && sr.row < m && EnabledAt(sr.row, nrows))
    && (forall sr :: sr in w.enabled ==> w.enabled[sr] == 0)
  }

  /** The first `m` rows of a table of `nrows` rows, filled from seeds x and y in region 0. */
  ghost predicate Shape(w: Witness, x: int, y: int, nrows: nat, m: nat)
  {
    && ShapeValues(w, x, y, m)
    && ShapeEnabled(w, nrows, m)
    && w.copies == {Copy(Cell(Pi, 0), Cell(A, 0)), Copy(Cell(Pi, 1), Cell(B, 0))}
  }

  lemma ValuesStep(w: Witness, instance: seq<int>, nrows: nat, m: nat)
    requires m >= 2 && ShapeValues(Rows(w, Region(0, 0), instance, nrows, m - 1), InstanceValue(instance, 0), InstanceValue(instance, 1), m - 1)
    ensures ShapeValues(Rows(w, Region(0, 0), instance, nrows, m), InstanceValue(instance, 0), InstanceValue(instance, 1), m)
  {
    var x, y := InstanceValue(instance, 0), InstanceValue(instance, 1);
    var w' := Rows(w, Region(0, 0), instance, nrows, m);
    assert Expected(x, y, Cell(A, m - 1)) == Term(x, y, 2 * (m - 1));
    assert Expected(x, y, Cell(B, m - 1)) == Term(x, y, 2 * (m - 1) + 1);
    forall c | Filled(c, m)
      ensures c in w'.values && c in w'.cellRegion
    {
      if c.row < m - 1 {
        assert Filled(c, m - 1);
      }
    }
  }

  lemma EnabledStep(w: Witness, instance: seq<int>, nrows: nat, m: nat)
    requires m >= 2 && ShapeEnabled(Rows(w, Region(0, 0), instance, nrows, m - 1), nrows, m - 1)
    ensures ShapeEnabled(Rows(w, Region(0, 0), instance, nrows, m), nrows, m)
  {
    var before, after := Rows(w, Region(0, 0), instance, nrows, m - 1), Rows(w, Region(0, 0), instance, nrows, m);
    assert after.enabled == if m - 1 < nrows - 1 then before.enabled[SelectorRow(S, m - 1) := 0] else before.enabled;
  }

  /** Starting from an empty grid, the first `m` rows hold the terms of the recurrence in one
      region, the selector is on at row 0 and at every row before the last, and the only copy
      constraints bind the seeds. */
  lemma {:induction false} TableShape(instance: seq<int>, nrows: nat, m: nat)
    requires m >= 1
    ensures Shape(Rows(Empty, Region(0, 0), instance, nrows, m), InstanceValue(instance, 0), InstanceValue(instance, 1), nrows, m)
  {
    var x, y := InstanceValue(instance, 0), InstanceValue(instance, 1);
    var w := Rows(Empty, Region(0, 0), instance, nrows, m);
    if m == 1 {
      assert w.values == map[Cell(A, 0) := x, Cell(B, 0) := y];
      assert w.cellRegion == map[Cell(A, 0) := 0, Cell(B, 0) := 0];
      assert w.enabled == map[SelectorRow(S, 0) := 0];
    } else {
      TableShape(instance, nrows, m - 1);
      ValuesStep(Empty, instance, nrows, m);
      EnabledStep(Empty, instance, nrows, m);
    }
  }

  /** The cells the first `m` rows assign, in order: a then b of each row. */
  predicate RowMajor(log: seq<Cell>, m: nat)
  {
    && |log| == 2 * m
    && forall i :: 0 <= i < |log| ==> log[i] == Cell(if i % 2 == 0 then A else B, i / 2)
  }

  /** One more row appends its a and b. */
  lemma RowMajorStep(log: seq<Cell>, m: nat)
    requires RowMajor(log, m)
    ensures RowMajor(log + [Cell(A, m), Cell(B, m)], m + 1)
  {
    var log' := log + [Cell(A, m), Cell(B, m)];
    assert (2 * m) % 2 == 0 && (2 * m) / 2 == m;
    assert (2 * m + 1) % 2 == 1 && (2 * m + 1) / 2 == m;
    assert log'[2 * m] == Cell(A, m) && log'[2 * m + 1] == Cell(B, m);
  }

  /** A log in that order names no cell twice. */
  lemma RowMajorDistinct(log: seq<Cell>, m: nat)
    requires RowMajor(log, m)
    ensures forall i, j :: 0 <= i < j < |log| ==> log[i] != log[j]
  {
    forall i, j | 0 <= i < j < |log|
      ensures log[i] != log[j]
    {
      if i % 2 == j % 2 {
        assert i == 2 * (i / 2) + i % 2 && j == 2 * (j / 2) + j % 2;
        assert i / 2 != j / 2;
      }
    }
  }

  /** Starting from an empty grid, the first `m` rows assign 2m cells, a then b of each row in
      order, and no cell twice. */
  lemma {:induction false} AssignedOnce(instance: seq<int>, nrows: nat, m: nat)
    requires m >= 1
    ensures var log := Rows(Empty, Region(0, 0), instance, nrows, m).log;
      && RowMajor(log, m)
      && forall i, j :: 0 <= i < j < |log| ==> log[i] != log[j]
  {
    var log := Rows(Empty, Region(0, 0), instance, nrows, m).log;
    if m == 1 {
      assert log == [] + [Cell(A, 0), Cell(B, 0)];
      RowMajorStep([], 0);
    } else {
      AssignedOnce(instance, nrows, m - 1);
      var prev := Rows(Empty, Region(0, 0), instance, nrows, m - 1).log;
      assert log == prev + [Cell(A, m - 1), Cell(B, m - 1)];
      RowMajorStep(prev, m - 1);
    }
    RowMajorDistinct(log, m);
  }

  /** The grid synthesize leaves for a table of `nrows` rows, with the last b bound to public
      input row 2. */
  function Exposed(instance: seq<int>, nrows: nat): Witness
  {
    WithCopy(Rows(Empty, Region(0, 0), instance, nrows, Max(nrows, 1)), Cell(B, Max(nrows, 1) - 1), Cell(Pi, 2))
  }

  /** The two polynomials at a row whose successor is in the domain. */
  lemma EvalGate(w: Witness, instance: seq<int>, n: nat, r: nat)
    requires r + 1 < n
    ensures var a, b := CellValue(w, instance, Cell(A, r)), CellValue(w, instance, Cell(B, r));
      var a', b' := CellValue(w, instance, Cell(A, r + 1)), CellValue(w, instance, Cell(B, r + 1));
      && Eval(NextAPoly(), w, instance, n, r) == (if SelectorRow(S, r) in w.enabled then a + b - a' else 0)
      && Eval(NextBPoly(), w, instance, n, r) == (if SelectorRow(S, r) in w.enabled then b + a' - b' else 0)
  {
    QueryInDomain(A, 0, w, instance, n, r);
    QueryInDomain(B, 0, w, instance, n, r);
    QueryInDomain(A, 1, w, instance, n, r);
    QueryInDomain(B, 1, w, instance, n, r);
    SelectorGates(S, Sub(Sum(Query(A, 0), Query(B, 0)), Query(A, 1)), w, instance, n, r);
    SelectorGates(S, Sub(Sum(Query(B, 0), Query(A, 1)), Query(B, 1)), w, instance, n, r);
  }

  /** The cells the first polynomial queries from row r are a and b of rows r and r + 1, and the
      second polynomial queries only cells among those. */
  lemma QueriesGate(w: Witness, n: nat, r: nat, region: nat)
    requires r + 1 < n
    ensures QueriesIn(NextAPoly(), w, n, r, region) <==>
      AssignedIn(w, Cell(A, r), region) && AssignedIn(w, Cell(B, r), region) && AssignedIn(w, Cell(A, r + 1), region)
    ensures QueriesIn(NextBPoly(), w, n, r, region) <==>
      AssignedIn(w, Cell(B, r), region) && AssignedIn(w, Cell(A, r + 1), region) && AssignedIn(w, Cell(B, r + 1), region)
  {
    QueryAssignedIn(A, 0, w, n, r, region);
    QueryAssignedIn(B, 0, w, n, r, region);
    QueryAssignedIn(A, 1, w, n, r, region);
    QueryAssignedIn(B, 1, w, n, r, region);
    var ab := Sum(Query(A, 0), Query(B, 0));
    var ba := Sum(Query(B, 0), Query(A, 1));
    assert QueriesIn(ab, w, n, r, region) <==> QueriesIn(Query(A, 0), w, n, r, region) && QueriesIn(Query(B, 0), w, n, r, region);
    assert QueriesIn(Sub(ab, Query(A, 1)), w, n, r, region) <==>
      QueriesIn(ab, w, n, r, region) && QueriesIn(Query(A, 1), w, n, r, region);
    assert QueriesIn(ba, w, n, r, region) <==> QueriesIn(Query(B, 0), w, n, r, region) && QueriesIn(Query(A, 1), w, n, r, region);
    assert QueriesIn(Sub(ba, Query(B, 1)), w, n, r, region) <==>
      QueriesIn(ba, w, n, r, region) && QueriesIn(Query(B, 1), w, n, r, region);
  }

  /** In a table of that shape with at least two rows, both polynomials vanish at every row of
      the domain. */
  lemma RowGates(w: Witness, instance: seq<int>, nrows: nat, n: nat, r: nat)
    requires 2 <= nrows <= n && r < n
    requires ShapeValues(w, InstanceValue(instance, 0), InstanceValue(instance, 1), nrows) && ShapeEnabled(w, nrows, nrows)
    ensures Eval(NextAPoly(), w, instance, n, r) == 0 && Eval(NextBPoly(), w, instance, n, r) == 0
  {
    var x, y := InstanceValue(instance, 0), InstanceValue(instance, 1);
    if SelectorRow(S, r) in w.enabled {
      assert Filled(Cell(A, r), nrows) && Filled(Cell(B, r), nrows);
      assert Filled(Cell(A, r + 1), nrows) && Filled(Cell(B, r + 1), nrows);
      EvalGate(w, instance, n, r);
      TermStep(x, y, 2 * r);
      TermStep(x, y, 2 * r + 1);
    } else {
      SelectorGates(S, Sub(Sum(Query(A, 0), Query(B, 0)), Query(A, 1)), w, instance, n, r);
      SelectorGates(S, Sub(Sum(Query(B, 0), Query(A, 1)), Query(B, 1)), w, instance, n, r);
    }
  }

  /** In a table of that shape, every enabled row reads only cells of region 0. */
  lemma RowQueries(w: Witness, x: int, y: int, nrows: nat, n: nat, sr: SelectorRow)
    requires 2 <= nrows <= n
    requires ShapeValues(w, x, y, nrows) && ShapeEnabled(w, nrows, nrows) && sr in w.enabled
    ensures QueriesIn(NextAPoly(), w, n, sr.row, w.enabled[sr]) && QueriesIn(NextBPoly(), w, n, sr.row, w.enabled[sr])
  {
    QueriesGate(w, n, sr.row, w.enabled[sr]);
    assert Filled(Cell(A, sr.row), nrows) && Filled(Cell(B, sr.row), nrows);
    assert Filled(Cell(A, sr.row + 1), nrows) && Filled(Cell(B, sr.row + 1), nrows);
  }

  /** In a table of that shape with at least two rows, the gate holds on the whole domain. */
  lemma LongTableGates(w: Witness, instance: seq<int>, nrows: nat, n: nat)
    requires 2 <= nrows <= n
    requires ShapeValues(w, InstanceValue(instance, 0), InstanceValue(instance, 1), nrows) && ShapeEnabled(w, nrows, nrows)
    ensures GatesHold(Configure(), w, instance, n)
  {
    var cs := Configure();
    assert cs.gates == [Gate("add", S, [NextAPoly(), NextBPoly()])];
    forall g, p, r: nat | g in cs.gates && p in g.polys && r < n
      ensures Eval(p, w, instance, n, r) == 0
    {
      RowGates(w, instance, nrows, n, r);
    }
  }

  /** In a table of that shape with at least two rows, every enabled row reads only cells of
      its own region. */
  lemma LongTableQueries(w: Witness, x: int, y: int, nrows: nat, n: nat)
    requires 2 <= nrows <= n
    requires ShapeValues(w, x, y, nrows) && ShapeEnabled(w, nrows, nrows)
    ensures QueriesAssigned(Configure(), w, n)
  {
    var cs := Configure();
    assert cs.gates == [Gate("add", S, [NextAPoly(), NextBPoly()])];
    forall g, p, sr | g in cs.gates && p in g.polys && sr in w.enabled && sr.selector == g.selector
      ensures QueriesIn(p, w, n, sr.row, w.enabled[sr])
    {
      RowQueries(w, x, y, nrows, n, sr);
    }
  }

  /** A table of at least two rows satisfies the circuit exactly when public input row 2 is the
      term its last b holds. */
  lemma LongTableSatisfiedIff(t: Witness, instance: seq<int>, nrows: nat, k: nat)
    requires 2 <= nrows <= Pow2(k)
    requires Shape(t, InstanceValue(instance, 0), InstanceValue(instance, 1), nrows, nrows)
    ensures Satisfied(Configure(), WithCopy(t, Cell(B, nrows - 1), Cell(Pi, 2)), instance, k) <==>
            InstanceValue(instance, 2) == Term(InstanceValue(instance, 0), InstanceValue(instance, 1), 2 * nrows - 1)
  {
    var x, y := InstanceValue(instance, 0), InstanceValue(instance, 1);
    var n := Pow2(k);
    var cs := Configure();
    var w := WithCopy(t, Cell(B, nrows - 1), Cell(Pi, 2));
    assert w.values == t.values && w.cellRegion == t.cellRegion && w.enabled == t.enabled;
    LongTableGates(w, instance, nrows, n);
    LongTableQueries(w, x, y, nrows, n);
    assert FitsIn(w, n);
    assert CopiesPermitted(cs, w);
    assert Filled(Cell(B, nrows - 1), nrows);
    assert CellValue(w, instance, Cell(B, nrows - 1)) == Term(x, y, 2 * nrows - 1);
    assert CopiesHold(w, instance) <==> InstanceValue(instance, 2) == Term(x, y, 2 * nrows - 1);
  }

  /** A table of zero or one rows is rejected whatever the public input: the selector is on at
      row 0 and the gate reads row 1, which no region assigned. */
  lemma ShortTableRejected(t: Witness, instance: seq<int>, nrows: nat, k: nat)
    requires nrows < 2 && k >= 1
    requires Shape(t, InstanceValue(instance, 0), InstanceValue(instance, 1), nrows, 1)
    ensures !Satisfied(Configure(), WithCopy(t, Cell(B, 0), Cell(Pi, 2)), instance, k)
  {
    var n := Pow2(k);
    var w := WithCopy(t, Cell(B, 0), Cell(Pi, 2));
    var cs := Configure();
    assert n >= 2;
    QueriesGate(w, n, 0, 0);
    assert !Filled(Cell(A, 1), 1);
    assert SelectorRow(S, 0) in w.enabled && w.enabled[SelectorRow(S, 0)] == 0;
    assert !QueriesIn(NextAPoly(), w, n, 0, 0);
    assert cs.gates[0] in cs.gates && NextAPoly() in cs.gates[0].polys;
  }

  /** The circuit accepts exactly when the table has at least two rows and public input row 2
      is term 2 * nrows - 1 of the recurrence seeded from public input rows 0 and 1. */
  lemma SatisfiedIff(instance: seq<int>, nrows: nat, k: nat)
    requires k >= 1 && nrows <= Pow2(k)
    ensures Satisfied(Configure(), Exposed(instance, nrows), instance, k) <==>
            nrows >= 2 &&
            InstanceValue(instance, 2) == Term(InstanceValue(instance, 0), InstanceValue(instance, 1), 2 * nrows - 1)
  {
    TableShape(instance, nrows, Max(nrows, 1));
    if nrows >= 2 {
      LongTableSatisfiedIff(Rows(Empty, Region(0, 0), instance, nrows, nrows), instance, nrows, k);
    } else {
      ShortTableRejected(Rows(Empty, Region(0, 0), instance, nrows, 1), instance, nrows, k);
    }
  }

  /** A run of the circuit on a fresh layouter. */
  method Run(instance: seq<int>) returns (w: Witness)
    ensures w == Exposed(instance, 5)
  {
    var l := new Layouter(instance);
    Synthesize(l);
    w := l.w;
  }

  /** The circuit's test: seeds 1 and 1 with public output 55 in a domain of 2^4 rows. */
  method TestCircuit() returns (w: Witness)
    ensures Satisfied(Configure(), w, [1, 1, 55], 4)
  {
    w := Run([1, 1, 55]);
    OutputAccepted();
  }

  lemma OutputAccepted()
    ensures Satisfied(Configure(), Exposed([1, 1, 55], 5), [1, 1, 55], 4)
  {
    assert Pow2(4) == 16;
    SatisfiedIff([1, 1, 55], 5, 4);
    FibTen();
  }
}
