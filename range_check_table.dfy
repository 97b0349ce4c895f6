/** The lookup table of the lookup range check: one table column whose row i holds i, for
    every i below 2^NUM_BITS. */
module RangeCheckTable {
  import opened Plonk

  /** The table column `value`. */
  const TableCol := Table(0)

  /** The grid after the first `m` rows of the table column have been written. */
  function FillTable(w: Witness, m: nat): Witness
  {
    if m == 0 then w else WithTableCell(FillTable(w, m - 1), Cell(TableCol, m - 1), m - 1)
  }

  /** The cells the table assignment writes, in order: m cells of the table column in strictly
      increasing row order, all below row m, so none is written twice. */
  function TableLog(m: nat): (cells: seq<Cell>)
    ensures |cells| == m
    ensures forall i :: 0 <= i < m ==> cells[i].column == TableCol && cells[i].row < m
    ensures forall i, j :: 0 <= i < j < m ==> cells[i].row < cells[j].row
  {
    seq(m, (i: int) requires 0 <= i < m => Cell(TableCol, i))
  }

  /** Writes value i into row i of the table column for every i below 2^numBits. */
  method Assign(l: Layouter, numBits: nat)
    modifies l
    ensures l.w == FillTable(old(l.w), Pow2(numBits))
    ensures l.offset == old(l.offset) && l.regions == old(l.regions) && l.height == old(l.height)
  {
    for i := 0 to Pow2(numBits)
      invariant l.w == FillTable(old(l.w), i)
      invariant l.offset == old(l.offset) && l.regions == old(l.regions) && l.height == old(l.height)
    {
      l.AssignTableCell(TableCol.index, i, i);
    }
  }

  /** No cell of the table column has been written. */
  predicate NoTableCells(w: Witness)
  {
    forall c :: c in w.values ==> c.column != TableCol
  }

  /** After the first `m` rows are written, row i of the table column holds i for every i < m,
      in increasing order, each row written once, and nothing else in the grid changed. */
  lemma {:induction false} TableContents(w: Witness, m: nat)
    ensures var t := FillTable(w, m);
      && (forall c :: c in t.values <==> c in w.values || (c.column == TableCol && c.row < m))
      && (forall i :: 0 <= i < m ==> t.values[Cell(TableCol, i)] == i)
      && (forall c :: c in w.values && !(c.column == TableCol && c.row < m) ==> t.values[c] == w.values[c])
      && t.log == w.log + TableLog(m)
      && t.cellRegion == w.cellRegion && t.enabled == w.enabled && t.copies == w.copies
  {
    if m > 0 {
      TableContents(w, m - 1);
      assert TableLog(m) == TableLog(m - 1) + [Cell(TableCol, m - 1)];
    }
  }

  /** Values increase strictly down the table, and the log lists every row exactly once. */
  lemma TableOrdered(w: Witness, m: nat)
    ensures var t := FillTable(w, m);
      && (forall i, j :: 0 <= i < j < m ==>
            Cell(TableCol, i) in t.values && Cell(TableCol, j) in t.values &&
            t.values[Cell(TableCol, i)] < t.values[Cell(TableCol, j)])
      && (forall i, j :: 0 <= i < j < m ==> TableLog(m)[i] != TableLog(m)[j])
  {
    TableContents(w, m);
  }

  /** In a grid whose table column was empty, a value is in the table exactly when it lies in
      [0, m). */
  lemma InTableIff(w: Witness, m: nat, v: int)
    requires NoTableCells(w)
    ensures InTable(FillTable(w, m), TableCol, v) <==> 0 <= v < m
  {
    var t := FillTable(w, m);
    TableContents(w, m);
    if 0 <= v < m {
      assert Cell(TableCol, v) in t.values && t.values[Cell(TableCol, v)] == v;
    }
    if InTable(t, TableCol, v) {
      var row: nat :| Cell(TableCol, row) in t.values && t.values[Cell(TableCol, row)] == v;
      assert Cell(TableCol, row) !in w.values;
    }
  }

  /** The table of the circuit, NUM_BITS = 8, holds exactly 0 .. 255, with 0 in row 0. */
  lemma EightBitTable(numBits: nat, v: int)
    requires numBits == 8
    ensures InTable(FillTable(Empty, Pow2(numBits)), TableCol, v) <==> 0 <= v <= 255
    ensures var t := FillTable(Empty, Pow2(numBits));
      Cell(TableCol, 0) in t.values && t.values[Cell(TableCol, 0)] == 0
  {
    assert Pow2(numBits) == 256;
    InTableIff(Empty, Pow2(numBits), v);
    TableContents(Empty, Pow2(numBits));
  }
}
