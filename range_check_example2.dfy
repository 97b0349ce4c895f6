/** Range check with two paths: for a bit width of at most RANGE_CHECK_BITS the value goes
    through the product-polynomial gate (over the full range 2^NUM_BITS), otherwise through a
    lookup of q_lookup * value in the table of 0 .. 2^NUM_BITS - 1. Either way the value is
    written at row 0 of its own region and exactly one of the two selectors is switched on. */
module RangeCheckExample2 {
  import opened Plonk
  import RangeCheckExample1
  import opened RangeCheckTable

  datatype Option<T> = None | Some(value: T)

  /** Bit widths up to this go through the polynomial gate. */
  const RangeCheckBits: nat := 3
  /** NUM_BITS of the circuit. */
  const CircuitBits: nat := 8

  const Value := RangeCheckExample1.Value
  /** The selector q_range_check of the polynomial gate. */
  const QRangeCheck: nat := RangeCheckExample1.QRangeCheck
  /** The selector q_lookup of the lookup. */
  const QLookup: nat := 1

  /** The gate: the product polynomial over range 2^numBits, times q_range_check. */
  function RangePoly(numBits: nat): Expr
  {
    RangeCheckExample1.RangePoly(Pow2(numBits))
  }

  /** The lookup input: q_lookup * value, looked up in the table column. */
  function LookupInput(): Expr
  {
    Product(Selected(QLookup), Query(Value, 0))
  }

  /** The configuration for NUM_BITS = numBits: the gate "range check" and one lookup. */
  function Configure(numBits: nat): (cs: ConstraintSystem)
    ensures |cs.gates| == 1 && cs.gates[0].selector == QRangeCheck && cs.gates[0].polys == [RangePoly(numBits)]
    ensures cs.lookups == [Lookup(LookupInput(), TableCol)]
  {
    ConstraintSystem([Gate("range check", QRangeCheck, [RangePoly(numBits)])], [Lookup(LookupInput(), TableCol)], {})
  }

  /** The selector a value of `bits` bits is checked with. */
  function PathSelector(bits: nat): (s: nat)
    ensures s == QRangeCheck <==> bits <= RangeCheckBits
    ensures s == QLookup <==> bits > RangeCheckBits
  {
    if bits <= RangeCheckBits then QRangeCheck else QLookup
  }

  /** The grid after a value region at `region` checked with `selector`. */
  function AfterAssign(w: Witness, region: Region, selector: nat, value: int): Witness
  {
    WithAdvice(WithSelector(w, selector, region.base, region.index), Cell(Value, region.base), value, region.index)
  }

  /** Assigns a value claimed to have `bits` bits under NUM_BITS = numBits. A width above
      NUM_BITS stops synthesis (None) and writes nothing; otherwise the value goes to row 0 of
      a new region with the selector of its path on. */
  method Assign(l: Layouter, value: int, bits: nat, numBits: nat) returns (r: Option<AssignedCell>)
    modifies l
    ensures bits > numBits ==> r == None && l.w == old(l.w)
    ensures bits > numBits ==> l.offset == old(l.offset) && l.regions == old(l.regions) && l.height == old(l.height)
    ensures bits <= numBits ==> r == Some(AssignedCell(Cell(Value, old(l.offset)), value))
    ensures bits <= numBits ==> l.w == AfterAssign(old(l.w), Region(old(l.regions), old(l.offset)), PathSelector(bits), value)
    ensures bits <= numBits ==> l.offset == old(l.offset) + 1 && l.regions == old(l.regions) + 1 && l.height == 0
  {
    if bits > numBits {
      return None;
    }
    var cell;
    if bits <= RangeCheckBits {
      var region := l.OpenRegion();
      l.Enable(region, QRangeCheck, 0);
      cell := l.AssignAdvice(region, Value.index, 0, value);
      l.CloseRegion();
    } else {
      var region := l.OpenRegion();
      l.Enable(region, QLookup, 0);
      cell := l.AssignAdvice(region, Value.index, 0, value);
      l.CloseRegion();
    }
    r := Some(cell);
  }

  /** The circuit's synthesize: the table for NUM_BITS = 8, then the value checked as 8 bits. */
  method Synthesize(l: Layouter, v: int)
    modifies l
    ensures l.w == AfterAssign(FillTable(old(l.w), Pow2(CircuitBits)), Region(old(l.regions), old(l.offset)),
                               PathSelector(CircuitBits), v)
    ensures l.offset == old(l.offset) + 1 && l.regions == old(l.regions) + 1
  {
    RangeCheckTable.Assign(l, CircuitBits);
    var _ := Assign(l, v, CircuitBits, CircuitBits);
  }

  // When the grid satisfies the circuit.

  /** The lookup input at a row of the domain: the value there when q_lookup is on, and 0
      (whatever the cell holds) when it is off. */
  lemma EvalLookup(w: Witness, n: nat, r: nat)
    requires r < n
    ensures Eval(LookupInput(), w, [], n, r) ==
      if SelectorRow(QLookup, r) in w.enabled then CellValue(w, [], Cell(Value, r)) else 0
  {
    QueryInDomain(Value, 0, w, [], n, r);
    SelectorGates(QLookup, Query(Value, 0), w, [], n, r);
  }

  /** The table of NUM_BITS = numBits followed by one value region at row 0 checked by `bits`. */
  function Grid(numBits: nat, bits: nat, v: int): Witness
  {
    AfterAssign(FillTable(Empty, Pow2(numBits)), Region(0, 0), PathSelector(bits), v)
  }

  /** Writing the value region leaves the table column as it was. */
  lemma TableKept(w: Witness, selector: nat, value: int, v: int)
    ensures InTable(AfterAssign(w, Region(0, 0), selector, value), TableCol, v) <==> InTable(w, TableCol, v)
  {
    var w' := AfterAssign(w, Region(0, 0), selector, value);
    if InTable(w, TableCol, v) {
      var row: nat :| Cell(TableCol, row) in w.values && w.values[Cell(TableCol, row)] == v;
      assert Cell(TableCol, row) in w'.values && w'.values[Cell(TableCol, row)] == v;
    }
    if InTable(w', TableCol, v) {
      var row: nat :| Cell(TableCol, row) in w'.values && w'.values[Cell(TableCol, row)] == v;
      assert Cell(TableCol, row) in w.values && w.values[Cell(TableCol, row)] == v;
    }
  }

  /** The cells of the grid: the table rows and the value, nothing else; the value region is
      region 0 with only the path's selector on. */
  lemma GridCells(numBits: nat, bits: nat, v: int)
    ensures var w := Grid(numBits, bits, v);
      && (forall c :: c in w.values ==> c == Cell(Value, 0) || (c.column == TableCol && c.row < Pow2(numBits)))
      && Cell(Value, 0) in w.values && w.values[Cell(Value, 0)] == v
      && w.cellRegion == map[Cell(Value, 0) := 0]
      && w.enabled == map[SelectorRow(PathSelector(bits), 0) := 0]
      && w.copies == {}
  {
    TableContents(Empty, Pow2(numBits));
  }

  /** The grid's cells are written in order, the table rows and then the value, and none twice. */
  lemma AssignedOnce(numBits: nat, bits: nat, v: int)
    ensures var log := Grid(numBits, bits, v).log;
      && log == TableLog(Pow2(numBits)) + [Cell(Value, 0)]
      && forall i, j :: 0 <= i < j < |log| ==> log[i] != log[j]
  {
    TableContents(Empty, Pow2(numBits));
  }

  /** The table of the grid holds exactly 0 .. 2^numBits - 1. */
  lemma GridTable(numBits: nat, bits: nat, v: int, u: int)
    ensures InTable(Grid(numBits, bits, v), TableCol, u) <==> 0 <= u < Pow2(numBits)
  {
    TableKept(FillTable(Empty, Pow2(numBits)), PathSelector(bits), v, u);
    InTableIff(Empty, Pow2(numBits), u);
  }

  /** A row where q_lookup is off looks up 0, and 0 is in the table, so such rows always pass
      the lookup. */
  lemma IdleRowsPass(numBits: nat, bits: nat, v: int, n: nat, r: nat)
    requires r < n && (r != 0 || PathSelector(bits) != QLookup)
    ensures Eval(LookupInput(), Grid(numBits, bits, v), [], n, r) == 0
    ensures InTable(Grid(numBits, bits, v), TableCol, 0)
  {
    GridCells(numBits, bits, v);
    EvalLookup(Grid(numBits, bits, v), n, r);
    GridTable(numBits, bits, v, 0);
  }

  /** The gate vanishes everywhere exactly when the value passes the product check or the
      value took the lookup path. */
  lemma GridGates(numBits: nat, bits: nat, v: int, k: nat)
    ensures GatesHold(Configure(numBits), Grid(numBits, bits, v), [], Pow2(k)) <==>
      (PathSelector(bits) == QRangeCheck ==> 0 <= v < Pow2(numBits))
  {
    var n, w, cs, range := Pow2(k), Grid(numBits, bits, v), Configure(numBits), Pow2(numBits);
    GridCells(numBits, bits, v);
    RangeCheckExample1.RangeProductZeroIff(range, v);
    assert Max(range, 1) == range;
    RangeCheckExample1.EvalGate(range, w, n, 0);
    if PathSelector(bits) == QRangeCheck ==> 0 <= v < range {
      forall g, p, r: nat | g in cs.gates && p in g.polys && r < n
        ensures Eval(p, w, [], n, r) == 0
      {
        assert p == RangePoly(numBits);
        RangeCheckExample1.EvalGate(range, w, n, r);
      }
    } else {
      assert Eval(RangePoly(numBits), w, [], n, 0) != 0;
      assert RangePoly(numBits) in cs.gates[0].polys;
    }
  }

  /** Every lookup input is in the table exactly when the value passes or took the gate path. */
  lemma GridLookups(numBits: nat, bits: nat, v: int, k: nat)
    ensures LookupsHold(Configure(numBits), Grid(numBits, bits, v), [], Pow2(k)) <==>
      (PathSelector(bits) == QLookup ==> 0 <= v < Pow2(numBits))
  {
    var n, w, cs := Pow2(k), Grid(numBits, bits, v), Configure(numBits);
    GridCells(numBits, bits, v);
    GridTable(numBits, bits, v, 0);
    GridTable(numBits, bits, v, v);
    EvalLookup(w, n, 0);
    if PathSelector(bits) == QLookup ==> 0 <= v < Pow2(numBits) {
      forall lk, r: nat | lk in cs.lookups && r < n
        ensures InTable(w, lk.table, Eval(lk.input, w, [], n, r))
      {
        assert lk == Lookup(LookupInput(), TableCol);
        EvalLookup(w, n, r);
      }
    } else {
      assert !InTable(w, TableCol, Eval(LookupInput(), w, [], n, 0));
      assert cs.lookups[0] in cs.lookups;
    }
  }

  /** Where the gate's selector is on, the value it reads was assigned in the same region. */
  lemma GridQueries(numBits: nat, bits: nat, v: int, k: nat)
    ensures QueriesAssigned(Configure(numBits), Grid(numBits, bits, v), Pow2(k))
  {
    var n, w := Pow2(k), Grid(numBits, bits, v);
    GridCells(numBits, bits, v);
    if PathSelector(bits) == QRangeCheck {
      RangeCheckExample1.QueriesRangeCheck(Pow2(numBits), Query(Value, 0), w, n, 0, 0);
      QueryAssignedIn(Value, 0, w, n, 0, 0);
      assert QueriesIn(RangePoly(numBits), w, n, 0, 0);
    }
  }

  /** With the table of NUM_BITS bits within the domain, a value checked by either path is
      accepted exactly when it lies in [0, 2^NUM_BITS). */
  lemma SatisfiedIff(numBits: nat, bits: nat, v: int, k: nat)
    requires bits <= numBits && Pow2(numBits) <= Pow2(k)
    ensures Satisfied(Configure(numBits), Grid(numBits, bits, v), [], k) <==> 0 <= v < Pow2(numBits)
  {
    var w := Grid(numBits, bits, v);
    GridCells(numBits, bits, v);
    assert FitsIn(w, Pow2(k));
    GridGates(numBits, bits, v, k);
    GridLookups(numBits, bits, v, k);
    GridQueries(numBits, bits, v, k);
  }

  /** Both paths accept exactly the same values. */
  lemma PathsAgree(numBits: nat, bits: nat, bits': nat, v: int, k: nat)
    requires bits <= numBits && bits' <= numBits && Pow2(numBits) <= Pow2(k)
    ensures Satisfied(Configure(numBits), Grid(numBits, bits, v), [], k) <==>
            Satisfied(Configure(numBits), Grid(numBits, bits', v), [], k)
  {
    SatisfiedIff(numBits, bits, v, k);
    SatisfiedIff(numBits, bits', v, k);
  }

  /** A run of the circuit on a fresh layouter. */
  method Run(v: int) returns (w: Witness)
    ensures w == Grid(CircuitBits, CircuitBits, v)
  {
    var l := new Layouter([]);
    Synthesize(l, v);
    w := l.w;
  }

  /** The circuit with NUM_BITS = 8 in a domain of 2^9 rows accepts exactly the values
      0 .. 255, all of them through the lookup. */
  lemma CircuitIff(numBits: nat, k: nat, v: int)
    requires numBits == CircuitBits && k == 9
    ensures PathSelector(numBits) == QLookup
    ensures Satisfied(Configure(numBits), Grid(numBits, numBits, v), [], k) <==> 0 <= v <= 255
  {
    assert Pow2(numBits) == 256;
    assert Pow2(k) == 512;
    SatisfiedIff(numBits, numBits, v, k);
  }

  /** The circuit's test: the values 55 and 6 are accepted. */
  method TestCircuit() returns (w55: Witness, w6: Witness)
    ensures Satisfied(Configure(CircuitBits), w55, [], 9)
    ensures Satisfied(Configure(CircuitBits), w6, [], 9)
  {
    w55 := Run(55);
    CircuitIff(CircuitBits, 9, 55);
    w6 := Run(6);
    CircuitIff(CircuitBits, 9, 6);
  }
}
