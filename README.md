# halo2-study circuits in Dafny

This project models the example circuits of halo2-study, a collection of small halo2
(PLONKish) circuits. Each circuit is modelled as two parts:

- the gate identities and lookups its `configure` declares;
- the witness its `synthesize` lays out through the layouter.

The project then proves when the resulting grid satisfies the circuit.

The circuits are:

- `fibonacci/example1.rs`: Fibonacci with three advice columns and one region per step.
- `fibonacci/example2.rs`: two columns in a single region, with a gate that reads the next row.
- `fibonacci/example3.rs`: a single column, with a gate that reads rotations 0, 1 and 2.
- `fibonacci/example4.rs`: a conditional-selection gate computing `if a == b {c} else {a - b}`.
- `range_check/example1.rs`: a product-polynomial range check.
- `range_check/example2.rs`: a range check with a polynomial path and a lookup path.
- `range_check/example2/table.rs`: the lookup table those paths check against.
- `merkle_tree/sinsemilla.rs`: the bit-packing fold that builds the Sinsemilla message word.

`plonk.dfy` (module `Plonk`) stands in for the parts of `halo2_proofs` the circuits use. It holds:

- a `Witness` grid with cell values, the region each cell and each enabled selector row belongs to, the copy constraints and the order of assignments;
- an expression type with rotations that wrap modulo the domain size 2^k;
- a `Layouter` class whose methods mirror the region API: `assign_advice`, `assign_advice_from_instance`, `copy_advice`, `selector.enable`, `constrain_instance`, and the table's `assign_cell`.

`Satisfied` replays the checks of the mock prover on that grid:

- every gate polynomial vanishes on every row;
- the cells a gate queries at an enabled row were assigned in the same region;
- copies hold;
- copied columns are enabled for equality;
- every lookup input occurs in its table.

Each chip routine is a method over the `Layouter`. It is proved to leave a grid given by a function of the old one (`AfterRow`, `Rows`, `AfterAssign`, `FillTable`). Lemmas about those functions establish what the grid holds and that it satisfies the circuit exactly when the source's intended relation holds.

`recurrence.dfy` holds the additive recurrence shared by the Fibonacci circuits, and its link to the Fibonacci numbers.

## Model

| member | source | states |
|---|---|---|
| Plonk.Eval | src/fibonacci/example2.rs:41-50 | definition: the value of a gate expression at a row of a 2^k-row domain; a query reads the cell at row + rotation modulo 2^k (an unassigned cell reads 0), a selector reads 1 where it is enabled and 0 elsewhere |
| Plonk.Satisfied | src/fibonacci/example1.rs:175-180 | definition: what the mock prover checks before `assert_satisfied` passes: the grid fits the 2^k rows, every gate vanishes on every row, every cell a gate queries at an enabled row was assigned in that row's region, copies hold between equality-enabled columns, and every lookup input lies in its table |
| Plonk.Pow2 | src/fibonacci/example1.rs:175-176 | the domain of a circuit run with parameter k has 2^k rows, at least one |
| Plonk.SelectorGates | src/range_check/example1.rs:45 | a polynomial multiplied by a selector vanishes on rows where the selector is off, whatever the cells hold, and elsewhere equals the polynomial |
| Plonk.QueryInDomain | src/fibonacci/example2.rs:44-47 | a query whose rotation stays inside the domain reads the cell at row + rotation (no wrap-around) |
| Plonk.QueryAssignedIn | src/fibonacci/example3.rs:39-41 | such a query is assigned in a region exactly when the cell at row + rotation was assigned in that region |
| Plonk.Layouter.constructor | src/fibonacci/example1.rs:175-178 | a run starts from an empty grid with the given public input |
| Plonk.Layouter.OpenRegion | src/fibonacci/example1.rs:61-63 | a new region starts at the first free row, with the next region index |
| Plonk.Layouter.CloseRegion | src/fibonacci/example1.rs:91-93 | closing a region advances the free row by the region's height |
| Plonk.Layouter.Enable | src/fibonacci/example1.rs:65 | enabling a selector at a relative row switches it on at the absolute row, in this region, and nothing else changes |
| Plonk.Layouter.AssignAdvice | src/fibonacci/example1.rs:84-89 | the cell at the absolute row gets the value, is recorded in this region and in the assignment log, and is returned |
| Plonk.Layouter.AssignAdviceFromInstance | src/fibonacci/example1.rs:68-82 | the advice cell gets public input row `instanceRow` and a copy constraint to that instance cell |
| Plonk.Layouter.CopyAdvice | src/fibonacci/example1.rs:104-105 | the new cell gets the earlier cell's value and a copy constraint back to it |
| Plonk.Layouter.ConstrainInstance | src/fibonacci/example1.rs:119-122 | a copy constraint binds the cell to the given public input row, and nothing else changes |
| Plonk.Layouter.AssignTableCell | src/range_check/example2/table.rs:33-37 | the table column gets the value at the row, and the cell is logged |
| Recurrence.TermOfOnes | src/fibonacci/example1.rs:178 | seeded with 1 and 1, term k of the recurrence is the Fibonacci number F(k + 1) |
| Recurrence.FibTen | src/fibonacci/example1.rs:178 | seeded with 1 and 1, term 9 is 55, the public output the tests expect |
| Recurrence.Term | src/fibonacci/example1.rs:84-112 | definition: term 0 is the seed x, term 1 the seed y, and every later term the sum of the two before it |
| FibonacciExample1.AddPoly | src/fibonacci/example1.rs:42-48 | definition: s * (a + b - c), every query at the current row |
| FibonacciExample1.AfterFirstRow | src/fibonacci/example1.rs:59-94 | definition: the grid after the region "first row": selector on, a and b from public input rows 0 and 1 with copies to them, c = a + b |
| FibonacciExample1.AfterRow | src/fibonacci/example1.rs:96-117 | definition: the grid after a "next row" region: selector on, prev_b and prev_c copied into a and b with copies back, c their sum |
| FibonacciExample1.AfterRows | src/fibonacci/example1.rs:143-155 | definition: the first row followed by `steps` "next row" regions, each fed with the window of the two previous cells |
| FibonacciExample1.Configure | src/fibonacci/example1.rs:37-48 | one gate "add" whose polynomial queries only the current row; a, b, c and the instance column are equality-enabled |
| FibonacciExample1.AssignFirstRow | src/fibonacci/example1.rs:59-94 | the selector is on at the region's row; a and b take public input rows 0 and 1 and are bound to them; c holds a + b |
| FibonacciExample1.AssignRow | src/fibonacci/example1.rs:96-117 | the selector is on; prev_b is copied into a and prev_c into b, with copy constraints back; c holds prev_b + prev_c |
| FibonacciExample1.ExposePublic | src/fibonacci/example1.rs:119-122 | the cell is bound to the given public input row |
| FibonacciExample1.Synthesize | src/fibonacci/example1.rs:140-162 | the first row, then seven one-row regions fed by the sliding (prev_b, prev_c) window, then the last c bound to public input row 2 |
| FibonacciExample1.AssignRows | src/fibonacci/example1.rs:143-155 | the first row and then `steps` loop passes lay out the table region by region; the returned cell is the window's prev_c after the last pass |
| FibonacciExample1.NextRegion | src/fibonacci/example1.rs:148-154 | one loop pass adds the next region of the table and moves the window one term along the recurrence |
| FibonacciExample1.WindowIsFibonacci | src/fibonacci/example1.rs:143-155 | seeded with 1 and 1, after the first row and j loop passes, prev_b = F(j + 2) and prev_c = F(j + 3) |
| FibonacciExample1.WindowStep | src/fibonacci/example1.rs:148-154 | after a pass the new prev_b is the old prev_c and the new prev_c is the c just written, the sum of the old window |
| FibonacciExample1.TableValues | src/fibonacci/example1.rs:59-117 | starting from an empty grid, exactly the a, b, c cells of rows 0 .. steps are written; row r holds terms r, r + 1, r + 2 of the recurrence and belongs to region r |
| FibonacciExample1.TableEnabled | src/fibonacci/example1.rs:59-117 | starting from an empty grid, the selector is on exactly at rows 0 .. steps, each switched on by its own region |
| FibonacciExample1.TableCopies | src/fibonacci/example1.rs:68-105 | every copy the regions make joins two table cells or seeds that are meant to hold the same term |
| FibonacciExample1.TableShape | src/fibonacci/example1.rs:59-117 | row r holds terms r, r + 1, r + 2 of the recurrence in a, b, c, in its own region with the selector on; every copy joins cells meant to hold the same term |
| FibonacciExample1.AssignedOnce | src/fibonacci/example1.rs:59-155 | from an empty grid, the first row and `steps` further regions assign 3(steps + 1) cells, a, b, c of each row in order, none twice |
| FibonacciExample1.RowMajorDistinct | src/fibonacci/example1.rs:59-155 | the assignment order a0, b0, c0, a1, ... never names the same cell twice |
| FibonacciExample1.EvalAdd | src/fibonacci/example1.rs:42-48 | the gate is a + b - c on rows with the selector on and 0 elsewhere |
| FibonacciExample1.QueriesAdd | src/fibonacci/example1.rs:43-45 | the gate queries exactly a, b, c of the current row |
| FibonacciExample1.ShapeGates | src/fibonacci/example1.rs:42-48 | in a grid of that shape gate "add" vanishes on the whole domain |
| FibonacciExample1.ShapeQueries | src/fibonacci/example1.rs:43-45 | in a grid of that shape every enabled row reads cells of its own region only |
| FibonacciExample1.ShapeCopiesHold | src/fibonacci/example1.rs:68-105 | in a grid of that shape with its last c bound to public input row 2, the copies hold exactly when that input is the last term |
| FibonacciExample1.ShapeSatisfiedIff | src/fibonacci/example1.rs:140-162 | a grid of that shape with its last c bound to public input row 2 is satisfied exactly when that input is the last term |
| FibonacciExample1.SatisfiedIff | src/fibonacci/example1.rs:140-162 | for any seeds and number of steps that fits the domain, the synthesized grid is satisfied exactly when public input row 2 equals term steps + 2 |
| FibonacciExample1.Run | src/fibonacci/example1.rs:175-178 | a run on a fresh layouter produces the grid of seven steps with the output exposed |
| FibonacciExample1.TestCircuit | src/fibonacci/example1.rs:172-181 | with public input [1, 1, 55] and k = 4 the grid is satisfied |
| FibonacciExample1.OutputIff | src/fibonacci/example1.rs:172-181 | with seeds 1 and 1 and k = 4, the grid is satisfied exactly when public output row 2 is 55 |
| FibonacciExample2.NextAPoly | src/fibonacci/example2.rs:41-50 | definition: s * (a + b - next a) |
| FibonacciExample2.NextBPoly | src/fibonacci/example2.rs:41-50 | definition: s * (b + next a - next b) |
| FibonacciExample2.Rows | src/fibonacci/example2.rs:64-103 | definition: the grid after the first m rows of the region: row 0 takes the seeds from public input, row r holds terms 2r and 2r + 1, and the selector is on at row 0 and at every row but the last |
| FibonacciExample2.NextRow | src/fibonacci/example2.rs:85-103 | definition: one loop pass: row r gets terms 2r and 2r + 1, and the selector unless r is the last row |
| FibonacciExample2.Configure | src/fibonacci/example2.rs:37-51 | one gate with two polynomials reading rotations 0 and 1, each of degree 2 |
| FibonacciExample2.NextTerms | src/fibonacci/example2.rs:90-102 | the loop's updates a := a + b and then b := b + new a yield terms 2r and 2r + 1 from terms 2r - 2 and 2r - 1 |
| FibonacciExample2.AssignRow | src/fibonacci/example2.rs:61-108 | fills the whole table in one region (selector at row 0 and at every row but the last, seeds from public input) and returns a and b of the last row with terms 2m - 2 and 2m - 1 |
| FibonacciExample2.AssignSeedRow | src/fibonacci/example2.rs:67-83 | row 0 of the region: the selector on, and a and b take public input rows 0 and 1 |
| FibonacciExample2.FillRow | src/fibonacci/example2.rs:86-102 | one loop pass at row r writes terms 2r and 2r + 1 into a and b, with the selector on unless r is the last row |
| FibonacciExample2.ExposePublic | src/fibonacci/example2.rs:110-113 | the cell is bound to the given public input row |
| FibonacciExample2.Synthesize | src/fibonacci/example2.rs:132-141 | a table of five rows with its last b bound to public input row 2 |
| FibonacciExample2.AssignedOnce | src/fibonacci/example2.rs:69-102 | the first m rows assign 2m cells, a then b of each row in order, none twice |
| FibonacciExample2.RowMajorDistinct | src/fibonacci/example2.rs:69-102 | the assignment order a0, b0, a1, b1, ... never names the same cell twice |
| FibonacciExample2.TableShape | src/fibonacci/example2.rs:67-102 | row r holds terms 2r and 2r + 1 in region 0; the selector is on exactly at row 0 and at rows before the last; the only copies bind the seeds |
| FibonacciExample2.EvalGate | src/fibonacci/example2.rs:41-51 | the two polynomials are a + b - next a and b + next a - next b where the selector is on, and 0 elsewhere |
| FibonacciExample2.QueriesGate | src/fibonacci/example2.rs:44-47 | the polynomials query a and b of the current and the next row |
| FibonacciExample2.RowGates | src/fibonacci/example2.rs:41-51 | in a table of that shape both polynomials vanish at every row of the domain |
| FibonacciExample2.LongTableGates | src/fibonacci/example2.rs:41-51 | in a table of at least two rows the gate holds on the whole domain |
| FibonacciExample2.RowQueries | src/fibonacci/example2.rs:44-47 | in a table of that shape an enabled row reads cells of region 0 that were assigned |
| FibonacciExample2.LongTableQueries | src/fibonacci/example2.rs:44-47 | in a table of at least two rows every enabled row reads assigned cells of region 0 only |
| FibonacciExample2.LongTableSatisfiedIff | src/fibonacci/example2.rs:85-103 | a table of at least two rows is satisfied exactly when public input row 2 is its last b |
| FibonacciExample2.ShortTableRejected | src/fibonacci/example2.rs:61-88 | a table of zero or one rows is rejected: row 0 is enabled and its next row was never assigned |
| FibonacciExample2.SatisfiedIff | src/fibonacci/example2.rs:61-141 | the synthesized grid is satisfied exactly when nrows >= 2 and public input row 2 is term 2 * nrows - 1 |
| FibonacciExample2.Run | src/fibonacci/example2.rs:157 | a run on a fresh layouter produces the five-row table with the output exposed |
| FibonacciExample2.TestCircuit | src/fibonacci/example2.rs:151-158 | with public input [1, 1, 55] and k = 4 the grid is satisfied |
| FibonacciExample2.OutputAccepted | src/fibonacci/example2.rs:151-158 | the grid for [1, 1, 55] satisfies the circuit at k = 4 |
| FibonacciExample3.AddPoly | src/fibonacci/example3.rs:38-46 | definition: s * (a + next a - a two rows down) |
| FibonacciExample3.Rows | src/fibonacci/example3.rs:57-93 | definition: the grid after the first m rows of the region: rows 0 and 1 take the seeds and have the selector on, row r holds term r with the selector on unless it is one of the last two |
| FibonacciExample3.NextRow | src/fibonacci/example3.rs:79-93 | definition: one loop pass: row r gets term r, and the selector unless r is one of the last two rows |
| FibonacciExample3.Configure | src/fibonacci/example3.rs:35-46 | one gate reading rotations 0, 1 and 2 of the single column, of degree 2 |
| FibonacciExample3.AssignRow | src/fibonacci/example3.rs:55-98 | fills the table in one region (selector at rows 0 and 1 and at every row but the last two) and returns the last cell, which holds term max(nrows, 2) - 1 |
| FibonacciExample3.AssignSeedRows | src/fibonacci/example3.rs:60-77 | rows 0 and 1: the selector on both, and the cells take public input rows 0 and 1 |
| FibonacciExample3.FillRow | src/fibonacci/example3.rs:80-89 | one loop pass at row r writes term r, the sum of the two cells before it, with the selector on unless r is one of the last two rows |
| FibonacciExample3.ExposePublic | src/fibonacci/example3.rs:100-107 | the cell is bound to the given public input row |
| FibonacciExample3.Synthesize | src/fibonacci/example3.rs:126-138 | a table of ten rows with its last cell bound to public input row 2 |
| FibonacciExample3.AssignedOnce | src/fibonacci/example3.rs:63-93 | the first m rows assign rows 0 .. m - 1 of the column in order, each exactly once |
| FibonacciExample3.TableShape | src/fibonacci/example3.rs:60-93 | row r holds term r in region 0; the selector is on exactly at rows 0, 1 and at rows r with r + 2 < nrows |
| FibonacciExample3.EvalAdd | src/fibonacci/example3.rs:38-46 | the gate is a[r] + a[r + 1] - a[r + 2] where the selector is on, and 0 elsewhere |
| FibonacciExample3.QueriesAdd | src/fibonacci/example3.rs:39-41 | the gate queries rows r, r + 1 and r + 2 |
| FibonacciExample3.LongTableGates | src/fibonacci/example3.rs:38-46 | in a table of at least four rows the gate holds on the whole domain |
| FibonacciExample3.LongTableQueries | src/fibonacci/example3.rs:39-41 | in a table of at least four rows every enabled row reads cells of region 0 only |
| FibonacciExample3.LongTableSatisfiedIff | src/fibonacci/example3.rs:79-93 | a table of at least four rows is satisfied exactly when public input row 2 is its last term |
| FibonacciExample3.ShortTableRejected | src/fibonacci/example3.rs:55-82 | a table of fewer than four rows is rejected: an enabled row queries a row that was never assigned |
| FibonacciExample3.SatisfiedIff | src/fibonacci/example3.rs:55-138 | the synthesized grid is satisfied exactly when nrows >= 4 and public input row 2 is term nrows - 1 |
| FibonacciExample3.Run | src/fibonacci/example3.rs:153 | a run on a fresh layouter produces the ten-row table with the output exposed |
| FibonacciExample3.TestCircuit | src/fibonacci/example3.rs:147-155 | with public input [1, 1, 55] and k = 4 the grid is satisfied |
| FibonacciExample3.OutputAccepted | src/fibonacci/example3.rs:147-155 | the grid for [1, 1, 55] satisfies the circuit at k = 4 |
| FibonacciExample4.Fun | src/fibonacci/example4.rs:94 | definition: f(a, b, c) = c when a = b, a - b otherwise |
| FibonacciExample4.EqualPoly | src/fibonacci/example4.rs:60 | definition: s * (ind * (out - c)), with the indicator column in place of `a_equal_b.expr()` |
| FibonacciExample4.DifferPoly | src/fibonacci/example4.rs:61 | definition: s * (1 - ind) * (out - (a - b)), with the indicator column in place of `a_equal_b.expr()` |
| FibonacciExample4.AfterAssign | src/fibonacci/example4.rs:84-98 | definition: the grid after the chip's region: selector on, then a, b, c, the indicator of a - b and the output written at row 0 |
| FibonacciExample4.Configure | src/fibonacci/example4.rs:39-63 | one gate with two polynomials reading the current row only; with the indicator column standing in for `a_equal_b.expr()`, both have degree 3 (the gadget's own expression, and so the source's degree, are not modelled) |
| FibonacciExample4.Assign | src/fibonacci/example4.rs:75-99 | the selector is on at row 0; a, b, c, the is-zero indicator of a - b, and the output f(a, b, c) are written in that row |
| FibonacciExample4.Synthesize | src/fibonacci/example4.rs:122-126 | one call of the chip |
| FibonacciExample4.EvalGate | src/fibonacci/example4.rs:59-62 | the polynomials are s * ind * (out - c) and s * (1 - ind) * (out - (a - b)) |
| FibonacciExample4.Branches | src/fibonacci/example4.rs:60-61 | with the selector on: indicator 1 makes the first polynomial out - c and the second 0; indicator 0 the reverse, with a - b |
| FibonacciExample4.RowIff | src/fibonacci/example4.rs:92-95 | with the indicator of a - b, both constraints hold exactly when out = f(a, b, c) |
| FibonacciExample4.SingleRow | src/fibonacci/example4.rs:84-97 | the selector is on only at row 0 of region 0, and only the five cells of that row are written, each once |
| FibonacciExample4.QueriesGate | src/fibonacci/example4.rs:54-57 | the queried cells were all assigned in the chip's region |
| FibonacciExample4.RowVanishes | src/fibonacci/example4.rs:59-62 | with the output f(a, b, c) both polynomials vanish at every row of the domain |
| FibonacciExample4.GridGatesHold | src/fibonacci/example4.rs:52-63 | with the output f(a, b, c) the gate holds on the whole domain |
| FibonacciExample4.GridGatesFail | src/fibonacci/example4.rs:52-63 | with any other output one polynomial is nonzero at row 0, so the gate fails |
| FibonacciExample4.GridQueries | src/fibonacci/example4.rs:54-57 | every cell the gate reads at its enabled row was assigned in the chip's region |
| FibonacciExample4.SatisfiedIff | src/fibonacci/example4.rs:52-99 | for any a, b, c and k, the region is satisfied exactly when its output cell holds f(a, b, c) |
| FibonacciExample4.Run | src/fibonacci/example4.rs:122-126 | a run on a fresh layouter writes the output f(a, b, c) |
| FibonacciExample4.Prove | src/fibonacci/example4.rs:75-99 | every input gives a satisfied grid |
| FibonacciExample4.TestCircuit | src/fibonacci/example4.rs:135-145 | a = b = 12 and c = 15 give output 15 and a satisfied grid at k = 4 |
| RangeCheckExample1.RangeCheckExpr | src/range_check/example1.rs:39-43 | definition: the fold over 1 .. R - 1 that starts from v and multiplies by (i - v) at step i |
| RangeCheckExample1.RangeProduct | src/range_check/example1.rs:39-43 | definition: the same fold on integer values |
| RangeCheckExample1.FoldIsProduct | src/range_check/example1.rs:39-43 | the fold computes v * (1 - v) * ... * (R - 1 - v), the product of exactly max(R, 1) factors |
| RangeCheckExample1.Factors | src/range_check/example1.rs:39-43 | the product has max(R, 1) factors, and factor i vanishes exactly when v = i, so the roots of the factors are exactly the integers of the range |
| RangeCheckExample1.RangeProductZeroIff | src/range_check/example1.rs:39-45 | the product is zero exactly when 0 <= v < max(R, 1) |
| RangeCheckExample1.EvalRangeCheck | src/range_check/example1.rs:39-43 | evaluating the folded expression evaluates the product at the value |
| RangeCheckExample1.QueriesRangeCheck | src/range_check/example1.rs:36-43 | the folded expression queries only what v queries |
| RangeCheckExample1.RangeCheckShape | src/range_check/example1.rs:39-43 | the folded expression has v's rotations and max(R, 1) times v's degree |
| RangeCheckExample1.Configure | src/range_check/example1.rs:31-46 | one gate of degree max(R, 1) + 1 reading only the current row |
| RangeCheckExample1.EvalGate | src/range_check/example1.rs:45 | the gate is the product at the row's value where q_range_check is on, and 0 elsewhere |
| RangeCheckExample1.GridGates | src/range_check/example1.rs:35-46 | the gate holds on the whole domain exactly when 0 <= value < max(R, 1) |
| RangeCheckExample1.Assign | src/range_check/example1.rs:55-66 | q_range_check is enabled and the value written at row 0 of one region |
| RangeCheckExample1.AssignedOnce | src/range_check/example1.rs:55-66 | the chip writes exactly one cell, once |
| RangeCheckExample1.SatisfiedIff | src/range_check/example1.rs:35-66 | the region is satisfied exactly when 0 <= value < max(R, 1) |
| RangeCheckExample1.Synthesize | src/range_check/example1.rs:86-89 | one call of the chip |
| RangeCheckExample1.Run | src/range_check/example1.rs:86-89 | a run on a fresh layouter writes the value region |
| RangeCheckExample1.TestCircuit | src/range_check/example1.rs:99-107 | with R = 8, v = 2 is satisfied at k = 4 |
| RangeCheckExample1.EightRejected | src/range_check/example1.rs:75 | with R = 8, v = 8 makes the product nonzero and is rejected |
| RangeCheckTable.FillTable | src/range_check/example2/table.rs:31-41 | definition: the grid after the first m passes of the loop, row i of the table column holding i |
| RangeCheckTable.TableLog | src/range_check/example2/table.rs:32-37 | the table assignment writes m cells of the table column in strictly increasing row order, all below row m, so none is written twice |
| RangeCheckTable.Assign | src/range_check/example2/table.rs:27-42 | the loop writes value i into row i for every i below 2^NUM_BITS, and leaves the layouter's regions alone |
| RangeCheckTable.TableContents | src/range_check/example2/table.rs:32-38 | after m rows: exactly rows 0 .. m - 1 of the column are added, row i holds i, other cells are unchanged, and the log grows by those rows in order |
| RangeCheckTable.TableOrdered | src/range_check/example2/table.rs:32-38 | values increase strictly down the table, and each row is written once |
| RangeCheckTable.InTableIff | src/range_check/example2/table.rs:32-37 | v is in the table exactly when 0 <= v < 2^NUM_BITS |
| RangeCheckTable.EightBitTable | src/range_check/example2/table.rs:8-9 | for NUM_BITS = 8 the table holds exactly 0 .. 255, with 0 at row 0 |
| RangeCheckExample2.Configure | src/range_check/example2.rs:31-66 | one gate over range 2^NUM_BITS and one lookup of q_lookup * value into the table column |
| RangeCheckExample2.LookupInput | src/range_check/example2.rs:59-66 | definition: the lookup input q_lookup * value, looked up in the table column |
| RangeCheckExample2.AfterAssign | src/range_check/example2.rs:84-100 | definition: the grid after a value region: the path's selector on at row 0 and the value written there |
| RangeCheckExample2.Assign | src/range_check/example2.rs:76-101 | num_bits > NUM_BITS stops synthesis with nothing written; otherwise the value is written at row 0 of a new region whose only enabled selector is q_range_check when num_bits <= RANGE_CHECK_BITS (3) and q_lookup otherwise |
| RangeCheckExample2.Synthesize | src/range_check/example2.rs:122-132 | the table for NUM_BITS = 8, then the value checked as 8 bits |
| RangeCheckExample2.EvalLookup | src/range_check/example2.rs:59-66 | the lookup input is the value where q_lookup is on, and 0 elsewhere |
| RangeCheckExample2.TableKept | src/range_check/example2.rs:93-99 | writing the value region leaves the table's contents as they were |
| RangeCheckExample2.GridCells | src/range_check/example2.rs:84-100 | the grid holds the table and the value only, with only the path's selector on at row 0 |
| RangeCheckExample2.AssignedOnce | src/range_check/example2.rs:122-129 | the circuit writes the table rows in order and then the value, no cell twice |
| RangeCheckExample2.GridTable | src/range_check/example2/table.rs:32-37 | the circuit's table holds exactly 0 .. 2^NUM_BITS - 1 |
| RangeCheckExample2.IdleRowsPass | src/range_check/example2.rs:59-66 | rows with q_lookup off look up 0, which the table contains |
| RangeCheckExample2.GridGates | src/range_check/example2.rs:44-55 | the gate holds everywhere exactly when the value took the lookup path or lies below 2^NUM_BITS |
| RangeCheckExample2.GridLookups | src/range_check/example2.rs:57-66 | the lookup holds everywhere exactly when the value took the gate path or lies below 2^NUM_BITS |
| RangeCheckExample2.GridQueries | src/range_check/example2.rs:45 | the value the gate reads was assigned in the region that enabled it |
| RangeCheckExample2.SatisfiedIff | src/range_check/example2.rs:44-66 | with num_bits <= NUM_BITS and the table inside the domain, the circuit is satisfied exactly when 0 <= v < 2^NUM_BITS |
| RangeCheckExample2.PathsAgree | src/range_check/example2.rs:84-100 | the polynomial path and the lookup path accept the same values |
| RangeCheckExample2.Run | src/range_check/example2.rs:122-132 | a run on a fresh layouter gives the table and the value checked as 8 bits |
| RangeCheckExample2.CircuitIff | src/range_check/example2.rs:110-129 | with NUM_BITS = 8, num_bits = 8 and k = 9, the lookup path is taken and v is accepted exactly when 0 <= v <= 255 |
| RangeCheckExample2.TestCircuit | src/range_check/example2.rs:141-154 | v = 55 and v = 6 are both satisfied at k = 9 |
| Sinsemilla.Step | src/merkle_tree/sinsemilla.rs:261-267 | definition: one step of the fold, acc doubled plus one for a set bit |
| Sinsemilla.FoldLeft | src/merkle_tree/sinsemilla.rs:261-267 | definition: the left fold of that step over a bit sequence |
| Sinsemilla.PackBits | src/merkle_tree/sinsemilla.rs:261-267 | definition: the fold from zero over the reversed data, the field element the message word is built from |
| Sinsemilla.Reverse | src/merkle_tree/sinsemilla.rs:261 | reversal keeps the length |
| Sinsemilla.ToBits | src/merkle_tree/sinsemilla.rs:192 | the little-endian encoding of a value in n bits has n bits |
| Sinsemilla.FoldLeftSnoc | src/merkle_tree/sinsemilla.rs:262-266 | one more bit at the end of the folded sequence applies one more step, acc to 2 * acc + bit |
| Sinsemilla.PackIsLittleEndian | src/merkle_tree/sinsemilla.rs:261-267 | the reversed fold is the sum of data[i] * 2^i: data[0] is the least significant bit |
| Sinsemilla.LastBitMostSignificant | src/merkle_tree/sinsemilla.rs:261-267 | the last bit carries weight 2^(n - 1) |
| Sinsemilla.LittleEndianBounds | src/merkle_tree/sinsemilla.rs:261-267 | n bits decode to a value in [0, 2^n) |
| Sinsemilla.UnpackPack | src/merkle_tree/sinsemilla.rs:261-267 | encoding the packed value in n bits gives the bits back |
| Sinsemilla.PackUnpack | src/merkle_tree/sinsemilla.rs:261-267 | decoding the n-bit encoding of a value below 2^n gives the value back |
| Sinsemilla.PackFitsWord | src/merkle_tree/sinsemilla.rs:269-274 | ten bits pack to a value below 1024, so the single 10-bit message word holds it and the field never wraps |
| Sinsemilla.ZeroBits | src/merkle_tree/sinsemilla.rs:261 | all-false bits decode to 0 |
| Sinsemilla.AllFalse | src/merkle_tree/sinsemilla.rs:261 | all-false data packs to 0, the fold's starting value |
| Sinsemilla.TestData | src/merkle_tree/sinsemilla.rs:310 | the test data packs to 1 + 2 + 512 = 515 |

## Left out

- The `halo2_proofs` internals are not modelled: the proving system, commitments, transcripts and blinding rows. `Plonk` is a minimal stand-in. In particular, the mock prover's reserved blinding rows are not subtracted from the 2^k rows of the domain.
- The choice of k is a parameter of each `SatisfiedIff`. Its preconditions are as follows:
  - example 1: the rows must fit the domain (steps < 2^k);
  - example 2: k >= 1;
  - example 3: k >= 2, so that the short-table rejection does not depend on rotations wrapping around a domain of one or two rows.
  - range check example 2: the table's 2^NUM_BITS rows fit the domain (Pow2(numBits) <= Pow2(k)), also required by `RangeCheckExample2.PathsAgree`.
- `SimpleFloorPlanner` places regions by columns. The model places each region after the previous one. Only row numbers change; every statement is about one region's rows, and the table column is independent of the advice rows.
- Assigning a cell twice is a layouter error. The model overwrites instead. No circuit assigns a cell twice. The `AssignedOnce` lemmas prove this for Fibonacci examples 1 to 3 and both range checks, and `FibonacciExample4.SingleRow` proves it for Fibonacci example 4.
- The `IsZeroChip` gadget (`crate::is_zero`) is not part of this model. The model assumes an advice column holding the honest indicator (1 when a - b = 0, 0 otherwise) in place of `a_equal_b.expr()`. It does not model the gadget's witness (the inverse of a - b), its constraints, or the degree its expression adds to the gate: in the source both polynomials have a higher degree than the 3 `FibonacciExample4.Configure` states.
- FibonacciExample4.SatisfiedIff: stated for the honest indicator only, because the constraints that force the gadget's output are not modelled.
- Field arithmetic over the Pallas base field is replaced by unbounded integers. The circuits' tests use values below 1024, where the two agree. Negative results such as a - b in example 4 are plain integers rather than field elements. The iff lemmas below quantify over all integers, so they describe the source only while every seed, term and public input lies in [0, p), p the Pallas modulus. Outside that range a sum that wraps in the field can be accepted by the source while the model rejects it.
- FibonacciExample1.SatisfiedIff: holds for the source only while the seeds and every term stay below the Pallas modulus; for example, seeds p - 1 and 1 give c = 0 in the field but p in the model.
- FibonacciExample1.ShapeSatisfiedIff: the same bound on seeds and terms.
- FibonacciExample2.SatisfiedIff: the same bound on seeds and terms.
- FibonacciExample2.LongTableSatisfiedIff: the same bound on seeds and terms.
- FibonacciExample3.SatisfiedIff: the same bound on seeds and terms.
- FibonacciExample3.LongTableSatisfiedIff: the same bound on seeds and terms.
- RangeCheckExample1.SatisfiedIff: in the source the value is a field element; the statement matches the source for integers in [0, p) and says nothing about the field for other integers.
- The `Value` / `Assigned` wrappers and without-witnesses mode are not modelled: every value is known.
- The `assert!(num_bits <= NUM_BITS)` panic in range check example 2 is modelled as `None` with nothing written.
- Lookup inputs are not checked for queried-but-unassigned cells. The mock prover does not report those for lookups either.
- Fixed columns, namespaces, annotations and the dev-graph plotting tests are not modelled.
- Everything in `merkle_tree/sinsemilla.rs` other than the packing fold is not modelled: the fixed bases, hash and commit domains, generator tables, ECC and Sinsemilla chip configuration, `hash_to_point` and `constrain_equal`. These are elliptic-curve gadgets from an external library.
- `zkmips/instructions.rs` is not modelled. It holds constants only and has no logic.
