/** A minimal PLONKish arithmetization: the grid of cells that the example circuits fill,
    the expressions their gates and lookups declare, the layouter through which chips write
    into the grid, and the predicate `Satisfied` that replays an assignment against a
    constraint system the way a mock prover does.

    Field elements are modelled as unbounded integers. The circuits' tests use values below
    1024, where the two agree; lemmas over arbitrary seeds or inputs describe the field
    arithmetic only while every term lies in [0, p), p the field modulus. */
module Plonk {

  /** The column kinds the circuits use: witness (advice), public input (instance) and
      lookup-table columns. */
  datatype Column = Advice(index: nat) | Instance(index: nat) | Table(index: nat)

  /** One grid position, with an absolute row. */
  datatype Cell = Cell(column: Column, row: nat)

  /** A selector switched on at an absolute row. */
  datatype SelectorRow = SelectorRow(selector: nat, row: nat)

  /** Polynomial expressions over column queries; a query's rotation is relative to the row
      at which the expression is evaluated. */
  datatype Expr =
    | Constant(c: int)
    | Query(column: Column, rotation: int)
    | Selected(selector: nat)
    | Sum(l: Expr, r: Expr)
    | Product(l: Expr, r: Expr)
    | Negated(e: Expr)

  /** Subtraction is addition of the negation. */
  function Sub(l: Expr, r: Expr): Expr
  {
    Sum(l, Negated(r))
  }

  /** A named set of polynomials that must vanish; `selector` is the selector they multiply. */
  datatype Gate = Gate(name: string, selector: nat, polys: seq<Expr>)

  /** The value of `input` at every row must occur in the lookup-table column `table`. */
  datatype Lookup = Lookup(input: Expr, table: Column)

  /** What configure declares: gates, lookups and the columns enabled for equality. */
  datatype ConstraintSystem = ConstraintSystem(gates: seq<Gate>, lookups: seq<Lookup>, equality: set<Column>)

  /** A copy constraint: the two cells must hold the same value. */
  datatype Copy = Copy(left: Cell, right: Cell)

  /** The assignment a synthesis run builds: cell values, the region each advice cell was
      assigned in, the region each enabled selector row belongs to, the copy constraints,
      and the order in which cells were assigned. */
  datatype Witness = Witness(
    values: map<Cell, int>,
    cellRegion: map<Cell, nat>,
    enabled: map<SelectorRow, nat>,
    copies: set<Copy>,
    log: seq<Cell>)

  /** A region handle: its index in request order and its first absolute row. */
  datatype Region = Region(index: nat, base: nat)

  /** A cell produced by an assignment, with the value written into it. */
  datatype AssignedCell = AssignedCell(cell: Cell, value: int)

  const Empty := Witness(map[], map[], map[], {}, [])

  function Pow2(k: nat): (n: nat)
    ensures n >= 1
  {
    if k == 0 then 1 else 2 * Pow2(k - 1)
  }

  function Max(a: nat, b: nat): nat
  {
    if a < b then b else a
  }

  /** Public input `row` of the single instance column; rows past the supplied vector read
      as zero, as the mock prover pads the column. */
  function InstanceValue(instance: seq<int>, row: nat): int
  {
    if row < |instance| then instance[row] else 0
  }

  /** The value a cell holds; a cell never assigned reads as zero. */
  function CellValue(w: Witness, instance: seq<int>, c: Cell): int
  {
    match c.column
    case Instance(i) => if i == 0 then InstanceValue(instance, c.row) else 0
    case _ => if c in w.values then w.values[c] else 0
  }

  /** Value of `e` at `row` in a domain of `n` rows (rotations wrap around the domain). */
  function Eval(e: Expr, w: Witness, instance: seq<int>, n: nat, row: nat): int
    requires n > 0
  {
    match e
    case Constant(c) => c
    case Query(col, rot) => CellValue(w, instance, Cell(col, (row + rot) % n))
    case Selected(s) => if SelectorRow(s, row) in w.enabled then 1 else 0
    case Sum(l, r) => Eval(l, w, instance, n, row) + Eval(r, w, instance, n, row)
    case Product(l, r) => Eval(l, w, instance, n, row) * Eval(r, w, instance, n, row)
    case Negated(a) => - Eval(a, w, instance, n, row)
  }

  /** Rotations at which `e` queries a column. */
  function Rotations(e: Expr): set<int>
  {
    match e
    case Query(_, rot) => {rot}
    case Sum(l, r) => Rotations(l) + Rotations(r)
    case Product(l, r) => Rotations(l) + Rotations(r)
    case Negated(a) => Rotations(a)
    case _ => {}
  }

  /** Polynomial degree of `e`, counting a selector as a degree-one factor. */
  function Degree(e: Expr): nat
  {
    match e
    case Constant(_) => 0
    case Query(_, _) => 1
    case Selected(_) => 1
    case Sum(l, r) => Max(Degree(l), Degree(r))
    case Product(l, r) => Degree(l) + Degree(r)
    case Negated(a) => Degree(a)
  }

  /** Cell `c` was assigned in region `region`. */
  predicate AssignedIn(w: Witness, c: Cell, region: nat)
  {
    c in w.cellRegion && w.cellRegion[c] == region
  }

  /** Every advice cell `e` queries from `row` was assigned in region `region`. */
  predicate QueriesIn(e: Expr, w: Witness, n: nat, row: nat, region: nat)
    requires n > 0
  {
    match e
    case Query(col, rot) =>
      col.Advice? ==> AssignedIn(w, Cell(col, (row + rot) % n), region)
    case Sum(l, r) => QueriesIn(l, w, n, row, region) && QueriesIn(r, w, n, row, region)
    case Product(l, r) => QueriesIn(l, w, n, row, region) && QueriesIn(r, w, n, row, region)
    case Negated(a) => QueriesIn(a, w, n, row, region)
    case _ => true
  }

  /** `v` occurs in the lookup-table column `col`. */
  ghost predicate InTable(w: Witness, col: Column, v: int)
  {
    exists row: nat :: Cell(col, row) in w.values && w.values[Cell(col, row)] == v
  }

  /** No assigned cell and no enabled selector lies outside the `n` rows of the domain. */
  ghost predicate FitsIn(w: Witness, n: nat)
  {
    && (forall c :: c in w.values ==> c.row < n)
    && (forall sr :: sr in w.enabled ==> sr.row < n)
  }

  /** Every gate polynomial vanishes at every row of the domain. */
  ghost predicate GatesHold(cs: ConstraintSystem, w: Witness, instance: seq<int>, n: nat)
    requires n > 0
  {
    forall g, p, r: nat :: g in cs.gates && p in g.polys && r < n ==> Eval(p, w, instance, n, r) == 0
  }

  /** At every row where a gate's selector is on, the cells the gate queries were assigned
      in the region that switched the selector on. */
  ghost predicate QueriesAssigned(cs: ConstraintSystem, w: Witness, n: nat)
    requires n > 0
  {
    forall g, p, sr :: g in cs.gates && p in g.polys && sr in w.enabled && sr.selector == g.selector ==>
      QueriesIn(p, w, n, sr.row, w.enabled[sr])
  }

  ghost predicate CopiesHold(w: Witness, instance: seq<int>)
  {
    forall p :: p in w.copies ==> CellValue(w, instance, p.left) == CellValue(w, instance, p.right)
  }

  /** Copy constraints only join columns enabled for equality. */
  ghost predicate CopiesPermitted(cs: ConstraintSystem, w: Witness)
  {
    forall p :: p in w.copies ==> p.left.column in cs.equality && p.right.column in cs.equality
  }

  /** Every lookup input, at every row of the domain, occurs in its table. */
  ghost predicate LookupsHold(cs: ConstraintSystem, w: Witness, instance: seq<int>, n: nat)
    requires n > 0
  {
    forall lk, r: nat :: lk in cs.lookups && r < n ==> InTable(w, lk.table, Eval(lk.input, w, instance, n, r))
  }

  /** The assignment `w` with public input `instance` satisfies `cs` in a domain of 2^k rows. */
  ghost predicate Satisfied(cs: ConstraintSystem, w: Witness, instance: seq<int>, k: nat)
  {
    var n := Pow2(k);
    && FitsIn(w, n)
    && GatesHold(cs, w, instance, n)
    && QueriesAssigned(cs, w, n)
    && CopiesHold(w, instance)
    && CopiesPermitted(cs, w)
    && LookupsHold(cs, w, instance, n)
  }

  /** A polynomial multiplied by a selector vanishes wherever the selector is off, whatever
      the cells hold, and elsewhere vanishes exactly when the polynomial does. */
  lemma SelectorGates(s: nat, e: Expr, w: Witness, instance: seq<int>, n: nat, row: nat)
    requires n > 0
    ensures SelectorRow(s, row) !in w.enabled ==> Eval(Product(Selected(s), e), w, instance, n, row) == 0
    ensures SelectorRow(s, row) in w.enabled ==>
      Eval(Product(Selected(s), e), w, instance, n, row) == Eval(e, w, instance, n, row)
  {
  }

  /** A query whose rotation stays inside the domain reads the cell at row + rotation. */
  lemma QueryInDomain(col: Column, rot: int, w: Witness, instance: seq<int>, n: nat, row: nat)
    requires 0 <= row + rot < n
    ensures (row + rot) % n == row + rot
    ensures Eval(Query(col, rot), w, instance, n, row) == CellValue(w, instance, Cell(col, row + rot))
  {
  }

  /** Likewise, such a query of an advice column is assigned in a region exactly when the
      cell at row + rotation is. */
  lemma QueryAssignedIn(col: Column, rot: int, w: Witness, n: nat, row: nat, region: nat)
    requires 0 <= row + rot < n && col.Advice?
    ensures QueriesIn(Query(col, rot), w, n, row, region) <==> AssignedIn(w, Cell(col, row + rot), region)
  {
  }

  // Updates of the witness made by the region API.

  function WithAdvice(w: Witness, c: Cell, v: int, region: nat): Witness
  {
    w.(values := w.values[c := v], cellRegion := w.cellRegion[c := region], log := w.log + [c])
  }

  function WithSelector(w: Witness, s: nat, row: nat, region: nat): Witness
  {
    w.(enabled := w.enabled[SelectorRow(s, row) := region])
  }

  function WithCopy(w: Witness, a: Cell, b: Cell): Witness
  {
    w.(copies := w.copies + {Copy(a, b)})
  }

  function WithTableCell(w: Witness, c: Cell, v: int): Witness
  {
    w.(values := w.values[c := v], log := w.log + [c])
  }

  /** The layouter and the regions it hands out: regions are placed one after another, each
      starting at the first row the previous ones left free, and the height of a region is
      one more than the highest relative row it touches. */
  class Layouter {
    var w: Witness
    var offset: nat
    var regions: nat
    var height: nat
    const instance: seq<int>

    constructor (instance: seq<int>)
      ensures w == Empty && offset == 0 && regions == 0 && height == 0
      ensures this.instance == instance
    {
      w := Empty;
      offset := 0;
      regions := 0;
      height := 0;
      this.instance := instance;
    }

    method OpenRegion() returns (region: Region)
      modifies this
      ensures region == Region(old(regions), old(offset))
      ensures w == old(w) && offset == old(offset) && regions == old(regions) + 1 && height == 0
    {
      region := Region(regions, offset);
      regions := regions + 1;
      height := 0;
    }

    method CloseRegion()
      modifies this
      ensures offset == old(offset) + old(height) && height == 0
      ensures w == old(w) && regions == old(regions)
    {
      offset := offset + height;
      height := 0;
    }

    method Enable(region: Region, selector: nat, row: nat)
      modifies this
      ensures w == WithSelector(old(w), selector, region.base + row, region.index)
      ensures height == Max(old(height), row + 1) && offset == old(offset) && regions == old(regions)
    {
      w := WithSelector(w, selector, region.base + row, region.index);
      height := Max(height, row + 1);
    }

    method AssignAdvice(region: Region, column: nat, row: nat, value: int) returns (cell: AssignedCell)
      modifies this
      ensures cell == AssignedCell(Cell(Advice(column), region.base + row), value)
      ensures w == WithAdvice(old(w), cell.cell, value, region.index)
      ensures height == Max(old(height), row + 1) && offset == old(offset) && regions == old(regions)
    {
      cell := AssignedCell(Cell(Advice(column), region.base + row), value);
      w := WithAdvice(w, cell.cell, value, region.index);
      height := Max(height, row + 1);
    }

    /** Copies public input `instanceRow` into an advice cell and constrains the two equal. */
    method AssignAdviceFromInstance(region: Region, instanceRow: nat, column: nat, row: nat)
      returns (cell: AssignedCell)
      modifies this
      ensures cell == AssignedCell(Cell(Advice(column), region.base + row), InstanceValue(instance, instanceRow))
      ensures w == WithCopy(WithAdvice(old(w), cell.cell, cell.value, region.index),
                            Cell(Instance(0), instanceRow), cell.cell)
      ensures height == Max(old(height), row + 1) && offset == old(offset) && regions == old(regions)
    {
      cell := AssignAdvice(region, column, row, InstanceValue(instance, instanceRow));
      w := WithCopy(w, Cell(Instance(0), instanceRow), cell.cell);
    }

    /** Writes the value of an earlier cell into a new advice cell and constrains the two equal. */
    method CopyAdvice(from: AssignedCell, region: Region, column: nat, row: nat) returns (cell: AssignedCell)
      modifies this
      ensures cell == AssignedCell(Cell(Advice(column), region.base + row), from.value)
      ensures w == WithCopy(WithAdvice(old(w), cell.cell, from.value, region.index), from.cell, cell.cell)
      ensures height == Max(old(height), row + 1) && offset == old(offset) && regions == old(regions)
    {
      cell := AssignAdvice(region, column, row, from.value);
      w := WithCopy(w, from.cell, cell.cell);
    }

    /** Binds an assigned cell to public input `instanceRow`. */
    method ConstrainInstance(cell: Cell, instanceRow: nat)
      modifies this
      ensures w == WithCopy(old(w), cell, Cell(Instance(0), instanceRow))
      ensures offset == old(offset) && regions == old(regions) && height == old(height)
    {
      w := WithCopy(w, cell, Cell(Instance(0), instanceRow));
    }

    /** Writes one row of a lookup-table column. */
    method AssignTableCell(column: nat, row: nat, value: int)
      modifies this
      ensures w == WithTableCell(old(w), Cell(Table(column), row), value)
      ensures offset == old(offset) && regions == old(regions) && height == old(height)
    {
      w := WithTableCell(w, Cell(Table(column), row), value);
    }
  }
}
