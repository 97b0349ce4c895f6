/** Fibonacci circuit with three advice columns a, b, c and one gate "add" (a + b - c = 0 on the
    current row). Each step of the sequence is its own one-row region: the first region takes
    f(0) and f(1) from the public input, every later region copies the previous b-or-c and c
    into its a and b, and the last c is bound to public input row 2. */
module FibonacciExample1 {
  import opened Plonk
  import opened Recurrence

  const A := Advice(0)
  const B := Advice(1)
  const C := Advice(2)
  const Pi := Instance(0)
  /** The selector of gate "add". */
  const Add: nat := 0

  /** s * (a + b - c), every query at the current row. */
  function AddPoly(): Expr
  {
    Product(Selected(Add), Sub(Sum(Query(A, 0), Query(B, 0)), Query(C, 0)))
  }

  /** The chip's configuration: one gate, no lookup, equality on a, b, c and the instance
      column. The gate only queries the current row, so no query can leave a one-row region. */
  function Configure(): (cs: ConstraintSystem)
    ensures |cs.gates| == 1 && cs.lookups == [] && cs.gates[0].selector == Add
    ensures forall g, p :: g in cs.gates && p in g.polys ==> Rotations(p) == {0}
    ensures cs.equality == {A, B, C, Pi}
  {
    ConstraintSystem([Gate("add", Add, [AddPoly()])], [], {A, B, C, Pi})
  }

  /** The grid after the region "first row" at `region`. */
  function AfterFirstRow(w: Witness, region: Region, instance: seq<int>): Witness
  {
    var x, y := InstanceValue(instance, 0), InstanceValue(instance, 1);
    var w1 := WithSelector(w, Add, region.base, region.index);
    var w2 := WithCopy(WithAdvice(w1, Cell(A, region.base), x, region.index), Cell(Pi, 0), Cell(A, region.base));
    var w3 := WithCopy(WithAdvice(w2, Cell(B, region.base), y, region.index), Cell(Pi, 1), Cell(B, region.base));
    WithAdvice(w3, Cell(C, region.base), x + y, region.index)
  }

  /** The grid after the region "next row" at `region`, fed with `prevB` and `prevC`. */
  function AfterRow(w: Witness, region: Region, prevB: AssignedCell, prevC: AssignedCell): Witness
  {
    var w1 := WithSelector(w, Add, region.base, region.index);
    var w2 := WithCopy(WithAdvice(w1, Cell(A, region.base), prevB.value, region.index), prevB.cell, Cell(A, region.base));
    var w3 := WithCopy(WithAdvice(w2, Cell(B, region.base), prevC.value, region.index), prevC.cell, Cell(B, region.base));
    WithAdvice(w3, Cell(C, region.base), prevB.value + prevC.value, region.index)
  }

  method AssignFirstRow(l: Layouter) returns (a: AssignedCell, b: AssignedCell, c: AssignedCell)
    modifies l
    ensures a == AssignedCell(Cell(A, old(l.offset)), InstanceValue(l.instance, 0))
    ensures b == AssignedCell(Cell(B, old(l.offset)), InstanceValue(l.instance, 1))
    ensures c == AssignedCell(Cell(C, old(l.offset)), a.value + b.value)
    ensures l.w == AfterFirstRow(old(l.w), Region(old(l.regions), old(l.offset)), l.instance)
    ensures l.offset == old(l.offset) + 1 && l.regions == old(l.regions) + 1 && l.height == 0
  {
    var region := l.OpenRegion();
    l.Enable(region, Add, 0);
    a := l.AssignAdviceFromInstance(region, 0, A.index, 0);
    b := l.AssignAdviceFromInstance(region, 1, B.index, 0);
    c := l.AssignAdvice(region, C.index, 0, a.value + b.value);
    l.CloseRegion();
  }

  method AssignRow(l: Layouter, prevB: AssignedCell, prevC: AssignedCell) returns (c: AssignedCell)
    modifies l
    ensures c == AssignedCell(Cell(C, old(l.offset)), prevB.value + prevC.value)
    ensures l.w == AfterRow(old(l.w), Region(old(l.regions), old(l.offset)), prevB, prevC)
    ensures l.offset == old(l.offset) + 1 && l.regions == old(l.regions) + 1 && l.height == 0
  {
    var region := l.OpenRegion();
    l.Enable(region, Add, 0);
    var _ := l.CopyAdvice(prevB, region, A.index, 0);
    var _ := l.CopyAdvice(prevC, region, B.index, 0);
    c := l.AssignAdvice(region, C.index, 0, prevB.value + prevC.value);
    l.CloseRegion();
  }

  method ExposePublic(l: Layouter, cell: AssignedCell, row: nat)
    modifies l
    ensures l.w == WithCopy(old(l.w), cell.cell, Cell(Pi, row))
    ensures l.offset == old(l.offset) && l.regions == old(l.regions) && l.height == old(l.height)
  {
    l.ConstrainInstance(cell.cell, row);
  }

  /** prev_b when the loop fills region `j` (j >= 1) of a table whose first region starts at `base`. */
  function PrevB(base: nat, x: int, y: int, j: nat): AssignedCell
    requires j >= 1
  {
    if j == 1 then AssignedCell(Cell(B, base), y) else AssignedCell(Cell(C, base + j - 2), Term(x, y, j))
  }

  /** prev_c when the loop fills region `j` (j >= 1). */
  function PrevC(base: nat, x: int, y: int, j: nat): AssignedCell
    requires j >= 1
  {
    AssignedCell(Cell(C, base + j - 1), Term(x, y, j + 1))
  }

  /** The grid after the first region and `steps` "next row" regions. */
  function AfterRows(w: Witness, start: Region, instance: seq<int>, steps: nat): Witness
  {
    if steps == 0 then AfterFirstRow(w, start, instance)
    else
      var x, y := InstanceValue(instance, 0), InstanceValue(instance, 1);
      AfterRow(AfterRows(w, start, instance, steps - 1), Region(start.index + steps, start.base + steps),
               PrevB(start.base, x, y, steps), PrevC(start.base, x, y, steps))
  }

  /** Seeded with 1 and 1, after the first row and `j` passes of the loop the window holds
      prev_b = F(j + 2) and prev_c = F(j + 3). */
  lemma {:induction false} WindowIsFibonacci(base: nat, j: nat)
    ensures PrevB(base, 1, 1, j + 1).value == Fib(j + 2)
    ensures PrevC(base, 1, 1, j + 1).value == Fib(j + 3)
  {
    TermOfOnes(j + 2);
    if j >= 1 {
      TermOfOnes(j + 1);
    }
  }

  /** One pass of the loop: the new prev_b is the old prev_c, and the new prev_c is the c the
      pass writes, the sum of the old window. */
  lemma WindowStep(base: nat, x: int, y: int, j: nat)
    requires j >= 1
    ensures PrevB(base, x, y, j + 1) == PrevC(base, x, y, j)
    ensures PrevC(base, x, y, j + 1) ==
      AssignedCell(Cell(C, base + j), PrevB(base, x, y, j).value + PrevC(base, x, y, j).value)
  {
    TermStep(x, y, j);
  }

  /** The first row and then `steps` passes of the loop, each a "next row" region fed with the
      window of the last two cells. Returns the last c. */
  method AssignRows(l: Layouter, steps: nat) returns (last: AssignedCell)
    modifies l
    ensures last == PrevC(old(l.offset), InstanceValue(l.instance, 0), InstanceValue(l.instance, 1), steps + 1)
    ensures l.w == AfterRows(old(l.w), Region(old(l.regions), old(l.offset)), l.instance, steps)
    ensures l.offset == old(l.offset) + steps + 1 && l.regions == old(l.regions) + steps + 1 && l.height == 0
  {
    ghost var w0 := l.w;
    ghost var x, y := InstanceValue(l.instance, 0), InstanceValue(l.instance, 1);
    var start := Region(l.regions, l.offset);
    var _, prevB, prevC := AssignFirstRow(l);
    assert Term(x, y, 2) == x + y;
    for j := 1 to steps + 1
      invariant l.w == AfterRows(w0, start, l.instance, j - 1)
      invariant prevB == PrevB(start.base, x, y, j) && prevC == PrevC(start.base, x, y, j)
      invariant l.offset == start.base + j && l.regions == start.index + j && l.height == 0
    {
      var c := NextRegion(l, w0, start, j, prevB, prevC);
      prevB := prevC;
      prevC := c;
    }
    last := prevC;
  }

  /** Pass `j` of the loop: region j of the table is the next "next row" region, and the window
      moves one step along the recurrence. */
  method NextRegion(l: Layouter, ghost w0: Witness, start: Region, j: nat, prevB: AssignedCell, prevC: AssignedCell)
    returns (c: AssignedCell)
    requires j >= 1 && l.w == AfterRows(w0, start, l.instance, j - 1)
    requires prevB == PrevB(start.base, InstanceValue(l.instance, 0), InstanceValue(l.instance, 1), j)
    requires prevC == PrevC(start.base, InstanceValue(l.instance, 0), InstanceValue(l.instance, 1), j)
    requires l.offset == start.base + j && l.regions == start.index + j
    modifies l
    ensures c == PrevC(start.base, InstanceValue(l.instance, 0), InstanceValue(l.instance, 1), j + 1)
    ensures l.w == AfterRows(w0, start, l.instance, j)
    ensures l.offset == start.base + j + 1 && l.regions == start.index + j + 1 && l.height == 0
  {
    WindowStep(start.base, InstanceValue(l.instance, 0), InstanceValue(l.instance, 1), j);
    c := AssignRow(l, prevB, prevC);
  }

  /** The circuit's synthesize: the first row, seven further rows (the loop over 3..10), then
      the last c exposed as public input row 2. */
  method Synthesize(l: Layouter)
    modifies l
    ensures l.w == WithCopy(AfterRows(old(l.w), Region(old(l.regions), old(l.offset)), l.instance, 7),
                            Cell(C, old(l.offset) + 7), Cell(Pi, 2))
    ensures l.offset == old(l.offset) + 8 && l.regions == old(l.regions) + 8 && l.height == 0
  {
    var last := AssignRows(l, 7);
    ExposePublic(l, last, 2);
  }

  // What the synthesized grid holds, and when it satisfies the circuit.

  predicate IsTableColumn(col: Column)
  {
    col == A || col == B || col == C
  }

  /** The value the table puts in a cell: row r holds terms r, r + 1 and r + 2 of the
      recurrence in a, b and c; public input rows 0 and 1 hold the seeds. */
  function Expected(x: int, y: int, c: Cell): int
  {
    match c.column
    case Advice(i) => Term(x, y, c.row + i)
    case Instance(_) => if c.row == 0 then x else y
    case Table(_) => 0
  }

  /** An advice cell of one of the first `steps` + 1 regions. */
  predicate Filled(c: Cell, steps: nat)
  {
    IsTableColumn(c.column) && c.row <= steps
  }

  predicate Seed(c: Cell)
  {
    c == Cell(Pi, 0) || c == Cell(Pi, 1)
  }

  /** The cells of the grid of `steps` + 1 rows the chip fills from seeds x and y: a, b, c of
      every row, each holding its term and assigned in the region of its row. */
  ghost predicate ShapeValues(w: Witness, x: int, y: int, steps: nat)
  {
    && (forall c :: c in w.values <==> Filled(c, steps))
    && (forall c :: c in w.values ==> w.values[c] == Expected(x, y, c) && c in w.cellRegion && w.cellRegion[c] == c.row)
  }

  /** The selector is on at every row of the grid, in that row's region. */
  ghost predicate ShapeEnabled(w: Witness, steps: nat)
  {
    && (forall sr :: sr in w.enabled <==> sr.selector == Add && sr.row <= steps)
    && (forall sr :: sr in w.enabled ==> w.enabled[sr] == sr.row)
  }

  /** Every copy joins two cells of the grid or seeds meant to hold the same term. */
  ghost predicate ShapeCopies(w: Witness, x: int, y: int, steps: nat)
  {
    forall p :: p in w.copies ==>
      && (Filled(p.left, steps) || Seed(p.left))
      && (Filled(p.right, steps) || Seed(p.right))
      && Expected(x, y, p.left) == Expected(x, y, p.right)
  }

  /** The grid of `steps` + 1 rows the chip fills from seeds x and y. */
  ghost predicate Shape(w: Witness, x: int, y: int, steps: nat)
  {
    ShapeValues(w, x, y, steps) && ShapeEnabled(w, steps) && ShapeCopies(w, x, y, steps)
  }

  /** The fields of the grid after one "next row" region, spelled out. */
  lemma AfterRowFields(w: Witness, region: Region, prevB: AssignedCell, prevC: AssignedCell)
    ensures var w' := AfterRow(w, region, prevB, prevC);
      var a, b, c := Cell(A, region.base), Cell(B, region.base), Cell(C, region.base);
      && w'.values == w.values[a := prevB.value][b := prevC.value][c := prevB.value + prevC.value]
      && w'.cellRegion == w.cellRegion[a := region.index][b := region.index][c := region.index]
      && w'.enabled == w.enabled[SelectorRow(Add, region.base) := region.index]
      && w'.copies == w.copies + {Copy(prevB.cell, a), Copy(prevC.cell, b)}
      && w'.log == w.log + [a, b, c]
  {
  }

  lemma ValuesStep(w: Witness, x: int, y: int, steps: nat)
    requires steps >= 1 && ShapeValues(w, x, y, steps - 1)
    ensures ShapeValues(AfterRow(w, Region(steps, steps), PrevB(0, x, y, steps), PrevC(0, x, y, steps)), x, y, steps)
  {
    var pb, pc := PrevB(0, x, y, steps), PrevC(0, x, y, steps);
    var w' := AfterRow(w, Region(steps, steps), pb, pc);
    AfterRowFields(w, Region(steps, steps), pb, pc);
    TermStep(x, y, steps);
    assert pb.value == Expected(x, y, Cell(A, steps));
    assert pc.value == Expected(x, y, Cell(B, steps));
    assert pb.value + pc.value == Expected(x, y, Cell(C, steps));
    forall c | Filled(c, steps)
      ensures c in w'.values
    {
      if c.row < steps {
        assert Filled(c, steps - 1);
      }
    }
  }

  lemma EnabledStep(w: Witness, steps: nat, pb: AssignedCell, pc: AssignedCell)
    requires steps >= 1 && ShapeEnabled(w, steps - 1)
    ensures ShapeEnabled(AfterRow(w, Region(steps, steps), pb, pc), steps)
  {
    AfterRowFields(w, Region(steps, steps), pb, pc);
  }

  lemma CopiesStep(w: Witness, x: int, y: int, steps: nat)
    requires steps >= 1 && ShapeCopies(w, x, y, steps - 1)
    ensures ShapeCopies(AfterRow(w, Region(steps, steps), PrevB(0, x, y, steps), PrevC(0, x, y, steps)), x, y, steps)
  {
    var pb, pc := PrevB(0, x, y, steps), PrevC(0, x, y, steps);
    AfterRowFields(w, Region(steps, steps), pb, pc);
    assert Expected(x, y, pb.cell) == Expected(x, y, Cell(A, steps));
    assert Expected(x, y, pc.cell) == Expected(x, y, Cell(B, steps));
    assert Filled(pb.cell, steps) && Filled(pc.cell, steps);
  }

  /** Row r of the table holds terms r, r + 1, r + 2 in a, b, c, each assigned in region r. */
  lemma {:induction false} TableValues(instance: seq<int>, steps: nat)
    ensures ShapeValues(AfterRows(Empty, Region(0, 0), instance, steps), InstanceValue(instance, 0), InstanceValue(instance, 1), steps)
  {
    var x, y := InstanceValue(instance, 0), InstanceValue(instance, 1);
    if steps == 0 {
      var w := AfterRows(Empty, Region(0, 0), instance, 0);
      assert Term(x, y, 2) == x + y;
      assert w.values == map[Cell(A, 0) := x, Cell(B, 0) := y, Cell(C, 0) := x + y];
      assert w.cellRegion == map[Cell(A, 0) := 0, Cell(B, 0) := 0, Cell(C, 0) := 0];
    } else {
      TableValues(instance, steps - 1);
      ValuesStep(AfterRows(Empty, Region(0, 0), instance, steps - 1), x, y, steps);
    }
  }

  /** The selector is on at every row of the table, in that row's region. */
  lemma {:induction false} TableEnabled(instance: seq<int>, steps: nat)
    ensures ShapeEnabled(AfterRows(Empty, Region(0, 0), instance, steps), steps)
  {
    var x, y := InstanceValue(instance, 0), InstanceValue(instance, 1);
    if steps == 0 {
      assert AfterRows(Empty, Region(0, 0), instance, 0).enabled == map[SelectorRow(Add, 0) := 0];
    } else {
      TableEnabled(instance, steps - 1);
      EnabledStep(AfterRows(Empty, Region(0, 0), instance, steps - 1), steps, PrevB(0, x, y, steps), PrevC(0, x, y, steps));
    }
  }

  /** Every copy constraint of the table joins two cells meant to hold the same term. */
  lemma {:induction false} TableCopies(instance: seq<int>, steps: nat)
    ensures ShapeCopies(AfterRows(Empty, Region(0, 0), instance, steps), InstanceValue(instance, 0), InstanceValue(instance, 1), steps)
  {
    var x, y := InstanceValue(instance, 0), InstanceValue(instance, 1);
    if steps == 0 {
      assert AfterRows(Empty, Region(0, 0), instance, 0).copies == {Copy(Cell(Pi, 0), Cell(A, 0)), Copy(Cell(Pi, 1), Cell(B, 0))};
    } else {
      TableCopies(instance, steps - 1);
      CopiesStep(AfterRows(Empty, Region(0, 0), instance, steps - 1), x, y, steps);
    }
  }

  /** Starting from an empty grid, row r of the table holds terms r, r + 1, r + 2 in its own
      region with the selector on, and every copy constraint joins two cells meant to hold
      the same term. */
  lemma TableShape(instance: seq<int>, steps: nat)
    ensures Shape(AfterRows(Empty, Region(0, 0), instance, steps), InstanceValue(instance, 0), InstanceValue(instance, 1), steps)
  {
    TableValues(instance, steps);
    TableEnabled(instance, steps);
    TableCopies(instance, steps);
  }

  /** The cells the first `rows` regions assign, in order: a, b, then c of each row. */
  predicate RowMajor(log: seq<Cell>, rows: nat)
  {
    && |log| == 3 * rows
    && forall i :: 0 <= i < |log| ==> log[i] == Cell(Advice(i % 3), i / 3)
  }

  /** One more region appends its a, b and c. */
  lemma RowMajorStep(log: seq<Cell>, rows: nat)
    requires RowMajor(log, rows)
    ensures RowMajor(log + [Cell(A, rows), Cell(B, rows), Cell(C, rows)], rows + 1)
  {
    var log' := log + [Cell(A, rows), Cell(B, rows), Cell(C, rows)];
    assert (3 * rows) % 3 == 0 && (3 * rows) / 3 == rows;
    assert (3 * rows + 1) % 3 == 1 && (3 * rows + 1) / 3 == rows;
    assert (3 * rows + 2) % 3 == 2 && (3 * rows + 2) / 3 == rows;
  }

  /** A log in that order names no cell twice. */
  lemma RowMajorDistinct(log: seq<Cell>, rows: nat)
    requires RowMajor(log, rows)
    ensures forall i, j :: 0 <= i < j < |log| ==> log[i] != log[j]
  {
    forall i, j | 0 <= i < j < |log|
      ensures log[i] != log[j]
    {
      if i % 3 == j % 3 {
        assert i == 3 * (i / 3) + i % 3 && j == 3 * (j / 3) + j % 3;
        assert i / 3 != j / 3;
      }
    }
  }

  /** Starting from an empty grid, the first row and `steps` further regions assign 3(steps + 1)
      cells, a, b, c of each row in order, and no cell twice. */
  lemma {:induction false} AssignedOnce(instance: seq<int>, steps: nat)
    ensures var log := AfterRows(Empty, Region(0, 0), instance, steps).log;
      && RowMajor(log, steps + 1)
      && forall i, j :: 0 <= i < j < |log| ==> log[i] != log[j]
  {
    var log := AfterRows(Empty, Region(0, 0), instance, steps).log;
    if steps == 0 {
      assert log == [] + [Cell(A, 0), Cell(B, 0), Cell(C, 0)];
      RowMajorStep([], 0);
    } else {
      AssignedOnce(instance, steps - 1);
      var x, y := InstanceValue(instance, 0), InstanceValue(instance, 1);
      var prev := AfterRows(Empty, Region(0, 0), instance, steps - 1);
      AfterRowFields(prev, Region(steps, steps), PrevB(0, x, y, steps), PrevC(0, x, y, steps));
      RowMajorStep(prev.log, steps);
    }
    RowMajorDistinct(log, steps + 1);
  }

  /** The grid synthesize leaves after `steps` "next row" regions, with the last c bound to
      public input row 2. */
  function Exposed(instance: seq<int>, steps: nat): Witness
  {
    WithCopy(AfterRows(Empty, Region(0, 0), instance, steps), Cell(C, steps), Cell(Pi, 2))
  }

  /** Gate "add" at a row of the domain: a + b - c when the selector is on, zero otherwise. */
  lemma EvalAdd(w: Witness, instance: seq<int>, n: nat, r: nat)
    requires r < n
    ensures Eval(AddPoly(), w, instance, n, r) ==
      if SelectorRow(Add, r) in w.enabled
      then CellValue(w, instance, Cell(A, r)) + CellValue(w, instance, Cell(B, r)) - CellValue(w, instance, Cell(C, r))
      else 0
  {
    QueryInDomain(A, 0, w, instance, n, r);
    QueryInDomain(B, 0, w, instance, n, r);
    QueryInDomain(C, 0, w, instance, n, r);
    SelectorGates(Add, Sub(Sum(Query(A, 0), Query(B, 0)), Query(C, 0)), w, instance, n, r);
  }

  /** The cells gate "add" queries from row r are a, b and c of row r. */
  lemma QueriesAdd(w: Witness, n: nat, r: nat, region: nat)
    requires r < n
    ensures QueriesIn(AddPoly(), w, n, r, region) <==>
      AssignedIn(w, Cell(A, r), region) && AssignedIn(w, Cell(B, r), region) && AssignedIn(w, Cell(C, r), region)
  {
    QueryAssignedIn(A, 0, w, n, r, region);
    QueryAssignedIn(B, 0, w, n, r, region);
    QueryAssignedIn(C, 0, w, n, r, region);
    var ab := Sum(Query(A, 0), Query(B, 0));
    assert QueriesIn(ab, w, n, r, region) <==> QueriesIn(Query(A, 0), w, n, r, region) && QueriesIn(Query(B, 0), w, n, r, region);
    assert QueriesIn(Sub(ab, Query(C, 0)), w, n, r, region) <==>
      QueriesIn(ab, w, n, r, region) && QueriesIn(Query(C, 0), w, n, r, region);
  }

  /** In a grid of that shape, gate "add" holds on the whole domain. */
  lemma ShapeGates(w: Witness, instance: seq<int>, steps: nat, n: nat)
    requires steps < n
    requires ShapeValues(w, InstanceValue(instance, 0), InstanceValue(instance, 1), steps) && ShapeEnabled(w, steps)
    ensures GatesHold(Configure(), w, instance, n)
  {
    var x, y := InstanceValue(instance, 0), InstanceValue(instance, 1);
    var cs := Configure();
    assert cs.gates == [Gate("add", Add, [AddPoly()])];
    forall g, p, r: nat | g in cs.gates && p in g.polys && r < n
      ensures Eval(p, w, instance, n, r) == 0
    {
      EvalAdd(w, instance, n, r);
      if SelectorRow(Add, r) in w.enabled {
        assert Filled(Cell(A, r), steps) && Filled(Cell(B, r), steps) && Filled(Cell(C, r), steps);
        TermStep(x, y, r);
      }
    }
  }

  /** In a grid of that shape, every enabled row reads a, b and c of its own region. */
  lemma ShapeQueries(w: Witness, x: int, y: int, steps: nat, n: nat)
    requires steps < n
    requires ShapeValues(w, x, y, steps) && ShapeEnabled(w, steps)
    ensures QueriesAssigned(Configure(), w, n)
  {
    var cs := Configure();
    assert cs.gates == [Gate("add", Add, [AddPoly()])];
    forall g, p, sr | g in cs.gates && p in g.polys && sr in w.enabled && sr.selector == g.selector
      ensures QueriesIn(p, w, n, sr.row, w.enabled[sr])
    {
      QueriesAdd(w, n, sr.row, w.enabled[sr]);
      assert Filled(Cell(A, sr.row), steps) && Filled(Cell(B, sr.row), steps) && Filled(Cell(C, sr.row), steps);
    }
  }

  /** In a grid of that shape with its last c bound to public input row 2, the copies hold
      exactly when that input is the last term. */
  lemma ShapeCopiesHold(t: Witness, instance: seq<int>, steps: nat)
    requires Shape(t, InstanceValue(instance, 0), InstanceValue(instance, 1), steps)
    ensures CopiesHold(WithCopy(t, Cell(C, steps), Cell(Pi, 2)), instance) <==>
            InstanceValue(instance, 2) == Term(InstanceValue(instance, 0), InstanceValue(instance, 1), steps + 2)
  {
    var x, y := InstanceValue(instance, 0), InstanceValue(instance, 1);
    var w := WithCopy(t, Cell(C, steps), Cell(Pi, 2));
    forall c | Filled(c, steps) || Seed(c)
      ensures CellValue(w, instance, c) == Expected(x, y, c)
    {
    }
    assert Filled(Cell(C, steps), steps);
  }

  /** Any grid of that shape, with its last c bound to public input row 2, satisfies the
      circuit exactly when that public input is the last term. */
  lemma ShapeSatisfiedIff(t: Witness, instance: seq<int>, steps: nat, k: nat)
    requires steps < Pow2(k)
    requires Shape(t, InstanceValue(instance, 0), InstanceValue(instance, 1), steps)
    ensures Satisfied(Configure(), WithCopy(t, Cell(C, steps), Cell(Pi, 2)), instance, k) <==>
            InstanceValue(instance, 2) == Term(InstanceValue(instance, 0), InstanceValue(instance, 1), steps + 2)
  {
    var x, y := InstanceValue(instance, 0), InstanceValue(instance, 1);
    var n := Pow2(k);
    var w := WithCopy(t, Cell(C, steps), Cell(Pi, 2));
    assert w.values == t.values && w.cellRegion == t.cellRegion && w.enabled == t.enabled;
    assert FitsIn(w, n);
    ShapeGates(w, instance, steps, n);
    ShapeQueries(w, x, y, steps, n);
    ShapeCopiesHold(t, instance, steps);
    assert CopiesPermitted(Configure(), w);
  }

  /** The circuit accepts exactly when public input row 2 is the term the last c holds. */
  lemma SatisfiedIff(instance: seq<int>, steps: nat, k: nat)
    requires steps < Pow2(k)
    ensures Satisfied(Configure(), Exposed(instance, steps), instance, k) <==>
            InstanceValue(instance, 2) == Term(InstanceValue(instance, 0), InstanceValue(instance, 1), steps + 2)
  {
    TableShape(instance, steps);
    ShapeSatisfiedIff(AfterRows(Empty, Region(0, 0), instance, steps), instance, steps, k);
  }

  /** A run of the circuit on a fresh layouter. */
  method Run(instance: seq<int>) returns (w: Witness)
    ensures w == Exposed(instance, 7)
  {
    var l := new Layouter(instance);
    Synthesize(l);
    w := l.w;
  }

  /** The circuit's test: seeds 1 and 1 with public output 55 in a domain of 2^4 rows. */
  method TestCircuit() returns (w: Witness)
    ensures Satisfied(Configure(), w, [1, 1, 55], 4)
  {
    w := Run([1, 1, 55]);
    OutputIff(55);
  }

  /** With seeds 1 and 1, seven steps and 2^4 rows, public output `out` is accepted exactly when
      it is 55. */
  lemma OutputIff(out: int)
    ensures Satisfied(Configure(), Exposed([1, 1, out], 7), [1, 1, out], 4) <==> out == 55
  {
    assert Pow2(4) == 16;
    SatisfiedIff([1, 1, out], 7, 4);
    FibTen();
  }
}
