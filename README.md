# Beer pong cup positions

A Dafny model of the cup-position logic of `BeerPongPlotter.py`: the
resolver that turns a cup index (1..10) or a (row, column) tuple into planar
coordinates of a four-row triangle, the cup object built on it, and the
assembly of a table's cup list from optional lists of indices, positions and
phantoms.

- `positions.dfy`, module `Positions` (pure): position tuples whose
  components are tagged Python `int` or `float` (`Component`), the sentinel
  `(0, 0)`, `sum(range(n))` (`SumRange`), the fixed index table
  (`IndexTable`), the validation `_check_position` (`CheckPosition`), the
  closed-form coordinates (`XAt`, `YAt`) and the whole constructor outcome
  (`Resolve`), with lemmas about the table, validation and geometry. The
  spacing constants X_DIS = Y_DIS = 2.1 are exact reals.
- `cups.dfy`, module `Cups`: class `BeerPongCup` with the fields of
  `Position` and the `phantom` flag. Its constructor assigns the fields and
  runs `_init_xy_position` or `_init_xy_index`; `BeerPongCup.New` is the
  construction including the paths that raise. `MakeCup` is the value
  specification of one construction.
- `config.dfy`, module `Config`: class `BeerPongConfig`, whose `cups` list is
  grown in place by `Extend`, with the builder loops `_init_indices`,
  `_init_positions`, `_init_phantoms` and `_complete_table` as methods proved
  against the value specification `Assemble` (built from the fold `Collect`
  and the combinator `Chain`, where the first exception wins).
- `assembly_facts.dfy`, module `AssemblyFacts`: what the assembly promises.
- `wrappers.dfy`: `Option` and `Result`; `Failure(e)` stands for raising `e`.

Exceptions are the datatype `Error`: `ValueError` with the reason (negative
component, row below column, row above 4, column above 4, index mismatch,
phantom list of the wrong kind), `KeyError` (index table lookup),
`IndexError` (`phantoms[0]` of an empty list) and `TypeError` (unpacking a
non-tuple in a tuple phantom list).

Where the description of the program and its code differ, the model follows
the code:
- The coordinate sketch in the `Position` docstring (lines 47-50) disagrees
  with the computation at lines 115-120; the model uses the computation.
- A phantom list that mixes ints and tuples is never detected as mixed.
  The elements are built in order and the first one that raises decides
  the exception. After an int first element, a tuple or other element fails
  the table lookup (`KeyError`); after a tuple first element, an int or
  other element fails to unpack (`TypeError`). An earlier element of the
  first kind may raise first: `[(1, 1), 3]` raises the index-mismatch
  `ValueError` of `(1, 1)` under index -1. The "neither indices nor
  positions" `ValueError` is raised only for a first element of neither kind.
- A column above 4 is rejected, but never by the column guard at lines
  96-97: such a tuple has already failed the negative-component guard (when
  the row is negative, as in `(-1, 5)`), the row-below-column guard or the
  row-above-4 guard (`CheckPosition` proves the column reason never occurs).
- The sentinel test is Python tuple equality, which is numeric: `(0.0, 0)`
  is the sentinel as well.
- Every all-int tuple given through `positions=` or a tuple phantom list is
  refused, because those cups are built with index -1. A tuple other than
  `(0, 0)` fails the index check, which expects a non-negative index; the
  sentinel `(0, 0)` takes the table path instead and fails the lookup of -1
  with `KeyError` (line 148). Only tuples with a float component get
  through (`MinusOneRefusesIntPairs`, `IntPositionRefused`).

## Model

| member | source | states |
|---|---|---|
| `Positions.SumRange` | BeerPongPlotter.py:101 | `sum(range(n))` is never negative |
| `Positions.SumRangeClosedForm` | BeerPongPlotter.py:101 | `sum(range(n))` is the triangular number n(n-1)/2 for n >= 0 |
| `Positions.ExpectedIndex` | BeerPongPlotter.py:101 | the index an integer slot must carry is row(row-1)/2 + column: the cups of the rows above, then the column |
| `Positions.SentinelByValue` | BeerPongPlotter.py:75 | the sentinel test is by value: an all-int tuple is the sentinel exactly when it is (0, 0), and (0.0, 0) and (0, 0.0) are sentinels too |
| `Positions.CheckPosition` | BeerPongPlotter.py:90-105 | raises "negative" exactly when a component is negative, "row below column" exactly when both are non-negative and row < column, "row above 4" exactly when 0 <= column <= row and row > 4, never the column reason; an index mismatch exactly for all-int in-bounds tuples whose index differs from sum(range(row)) + column; passes exactly for in-bounds tuples whose index matches or that have a float component |
| `Positions.Resolve` | BeerPongPlotter.py:62-78 | the coordinates always come from the stored tuple; a non-sentinel tuple succeeds exactly when validation passes and is kept, failing with validation's error otherwise; the sentinel succeeds exactly for indices 1..10, taking the table's tuple, and is a KeyError otherwise |
| `Positions.TableKeys` | BeerPongPlotter.py:136-147 | the table's keys are exactly 1..10 |
| `Positions.TableEntriesAgree` | BeerPongPlotter.py:136-147 | every entry i -> (r, c) has 1 <= c <= r <= 4 and sum(range(r)) + c == i |
| `Positions.TableCoversSlots` | BeerPongPlotter.py:136-147 | every integer slot 1 <= c <= r <= 4 is in the table under its formula index |
| `Positions.ExpectedIndexInjective` | BeerPongPlotter.py:101 | distinct integer slots have distinct formula indices, so the table is a bijection |
| `Positions.TablePairPasses` | BeerPongPlotter.py:100-105 | each table tuple is not the sentinel and passes validation under its own index |
| `Positions.IndexPathMatchesPairPath` | BeerPongPlotter.py:75-78 | for indices 1..10, building from the index alone equals building from the index and its table tuple, and succeeds |
| `Positions.MismatchedIndexRefused` | BeerPongPlotter.py:100-103 | an in-bounds all-int tuple with the wrong index raises the mismatch, naming expected and given index |
| `Positions.FractionalSkipsIndexCheck` | BeerPongPlotter.py:99-105 | an in-bounds tuple with a float component is placed whatever the index |
| `Positions.MinusOneRefusesIntPairs` | BeerPongPlotter.py:100-103 | with index -1 every all-int tuple fails, sentinel included |
| `Positions.SentinelOutsideTableIsKeyError` | BeerPongPlotter.py:148 | the sentinel with an index outside 1..10 raises KeyError |
| `Positions.ApexAtOrigin` | BeerPongPlotter.py:115-120 | (1, 1) is at x = 0, y = 0 |
| `Positions.XAtCentred` | BeerPongPlotter.py:115-119 | x is the column's offset from the row's middle column (row + 1)/2, in steps of X_DIS |
| `Positions.PlaceInsideRack` | BeerPongPlotter.py:115-120 | a tuple with 1 <= column <= row <= 4 is kept and placed within its row's half-width of x = 0, so between x = -3.15 and x = 3.15, and between y = -3 Y_DIS and y = 0 |
| `Positions.RowMirrored` | BeerPongPlotter.py:115-119 | columns c and row + 1 - c have opposite x |
| `Positions.ColumnsSpaced` | BeerPongPlotter.py:115-119 | neighbouring columns are X_DIS apart |
| `Positions.RowsSpaced` | BeerPongPlotter.py:120 | y depends on the row only and drops by Y_DIS per row |
| `Positions.IndexFiveCentred` | BeerPongPlotter.py:141 | index 5 resolves to (3, 2) at x = 0, y = -2 Y_DIS |
| `Positions.RowCentred` | BeerPongPlotter.py:114-119 | the x coordinates of a full row sum to zero |
| `Cups.BeerPongCup.constructor` | BeerPongPlotter.py:162-175 | on arguments that do not raise, the cup holds the index, the resolved tuple and coordinates, and phantom False |
| `Cups.BeerPongCup.InitXYPosition` | BeerPongPlotter.py:107-120 | sets x and y from the current tuple and changes nothing else |
| `Cups.BeerPongCup.InitXYIndex` | BeerPongPlotter.py:123-149 | replaces the tuple by the table's for the index and places it there, keeping the index and the phantom flag |
| `Cups.BeerPongCup.New` | BeerPongPlotter.py:70-78 | raises exactly what the resolver raises, else yields a fresh cup equal to the specification with phantom False |
| `Cups.MakeCupMeaning` | BeerPongPlotter.py:162-175 | one construction raises exactly what the resolver raises; otherwise the cup keeps the given index and flag and holds the resolver's tuple and coordinates |
| `Cups.IndexCupPlacement` | BeerPongPlotter.py:136-149 | a cup from index 1..10 alone keeps its index and flag and sits where its table tuple puts it |
| `Config.Collect` | BeerPongPlotter.py:245-248 | a successful build has one cup per element |
| `Config.CollectMeaning` | BeerPongPlotter.py:245-248 | on success the k-th cup is built from the k-th element; the build fails exactly when some element raises, with the error of the first one that does |
| `Config.AllIndices` | BeerPongPlotter.py:297-298 | `range(1, 11)` holds only keys of the index table, in strictly increasing order, and every key, so `_complete_table` never fails its lookup and builds each table cup once |
| `Config.WarningFor` | BeerPongPlotter.py:229-232 | "no cups" exactly for 0 cups, "more than 10" exactly above 10, no warning for 1..10 |
| `Config.BeerPongConfig.constructor` | BeerPongPlotter.py:213-214 | keeps the title and starts with no cups |
| `Config.BeerPongConfig.Extend` | BeerPongPlotter.py:217 | appends the cups to the list and changes nothing else |
| `Config.BeerPongConfig.Warn` | BeerPongPlotter.py:229-232 | records the warning for the current number of cups |
| `Config.BeerPongConfig.InitIndices` | BeerPongPlotter.py:245-248 | raises the first error of the index cups, else returns fresh, pairwise distinct cup objects equal to one index cup per element, in order |
| `Config.BeerPongConfig.InitPositions` | BeerPongPlotter.py:257-260 | the same for position tuples built with index -1 |
| `Config.BeerPongConfig.InitPhantoms` | BeerPongPlotter.py:272-287 | raises IndexError on an empty list, ValueError when the first element is neither int nor tuple, else the result of the loop the first element's type picks; the cups are fresh and pairwise distinct |
| `Config.BeerPongConfig.NewPhantom` | BeerPongPlotter.py:276-277 | a cup constructed and then flagged phantom: raises what construction raises, else a fresh cup equal to the construction with the flag set |
| `Config.BeerPongConfig.PhantomIndices` | BeerPongPlotter.py:274-278 | phantom cups from indices, each flagged after construction; a non-int element fails the lookup |
| `Config.BeerPongConfig.PhantomPositions` | BeerPongPlotter.py:279-283 | phantom cups from tuples with index -1, each flagged; a non-tuple element fails to unpack |
| `Config.BeerPongConfig.CompleteTable` | BeerPongPlotter.py:296-299 | ten fresh, pairwise distinct cups equal to those built from indices 1..10 |
| `Config.BeerPongConfig.AddIndices` | BeerPongPlotter.py:216-217 | on success the list grows by the index cups, as new objects after the old ones, and stays free of repeated objects; otherwise reports the error and leaves the list unchanged |
| `Config.BeerPongConfig.AddPositions` | BeerPongPlotter.py:219-220 | the same for the position cups |
| `Config.BeerPongConfig.AddPhantoms` | BeerPongPlotter.py:222-223 | the same for the phantom cups |
| `Config.BeerPongConfig.AddFullTable` | BeerPongPlotter.py:225-227 | the full table builds, and the list grows by exactly its cups, as new objects free of repeats |
| `Config.BeerPongConfig.AddParts` | BeerPongPlotter.py:216-223 | with at least one list given and an empty list to start from, raises exactly what the three builders raise first, else leaves the index, position and phantom cups of `Assemble` in the list, all new and pairwise distinct |
| `Config.BeerPongConfig.Fill` | BeerPongPlotter.py:216-227 | from an empty list, raises exactly what the specification raises, else leaves the cups of `Assemble` in the list, all new and pairwise distinct |
| `Config.BeerPongConfig.New` | BeerPongPlotter.py:200-232 | raises exactly what the specification raises; else a fresh table with the title, cups equal to `Assemble`, each a new object and none repeated, and the warning for their count |
| `AssemblyFacts.DefaultIsFullTable` | BeerPongPlotter.py:225-227 | with no argument the list is ten non-phantom cups with indices 1..10 in order, at their table tuples |
| `AssemblyFacts.AssembledParts` | BeerPongPlotter.py:216-223 | with any argument the list is the index cups, then the position cups, then the phantom cups |
| `AssemblyFacts.AssembledLength` | BeerPongPlotter.py:216-227 | with any argument the length is the sum of the given lists' lengths: no default cups |
| `AssemblyFacts.AssembledIndexCupsFirst` | BeerPongPlotter.py:216-217 | the k-th cup is built from the k-th index |
| `AssemblyFacts.AssembledPositionCupsSecond` | BeerPongPlotter.py:219-220 | the position cups follow the index cups in input order |
| `AssemblyFacts.AssembledPhantomFlags` | BeerPongPlotter.py:175 | the cups from `phantoms` are phantoms and all others are not |
| `AssemblyFacts.IndexPartCups` | BeerPongPlotter.py:245-248 | one non-phantom cup per index, each built from that index |
| `AssemblyFacts.PositionPartCups` | BeerPongPlotter.py:257-260 | one non-phantom cup per tuple, each built from that tuple with index -1 |
| `AssemblyFacts.IndexCupMeaning` | BeerPongPlotter.py:247 | `BeerPongCup(index)` raises KeyError exactly outside 1..10, else is a non-phantom cup with that index at its table tuple |
| `AssemblyFacts.PositionCupMeaning` | BeerPongPlotter.py:259 | `BeerPongCup(-1, (x, y))` raises KeyError for the sentinel, else succeeds exactly when validation under -1 passes; a built cup has a float component, index -1, the given tuple and no phantom flag |
| `AssemblyFacts.PhantomIndexCupMeaning` | BeerPongPlotter.py:275-277 | in an int phantom list a non-int element raises KeyError, an int succeeds exactly for 1..10 and gives a phantom cup at its table tuple |
| `AssemblyFacts.PhantomPairCupMeaning` | BeerPongPlotter.py:280-282 | in a tuple phantom list a non-tuple raises TypeError and the sentinel KeyError; a built cup has a float component, index -1, the given tuple and the phantom flag |
| `AssemblyFacts.MixedIntPhantomsKeyError` | BeerPongPlotter.py:274-278 | in an int phantom list whose earlier elements build, the first non-int element raises KeyError |
| `AssemblyFacts.MixedPairPhantomsTypeError` | BeerPongPlotter.py:279-283 | in a tuple phantom list whose earlier elements build, the first non-tuple element raises TypeError |
| `AssemblyFacts.PhantomCupsFlagged` | BeerPongPlotter.py:272-287 | one cup per phantom entry, each flagged phantom |
| `AssemblyFacts.CountOnlyWarns` | BeerPongPlotter.py:229-232 | any number of valid indices, 0 or more than 10 included, is accepted with that many cups |
| `AssemblyFacts.PhantomFullTable` | BeerPongPlotter.py:274-278 | `phantoms` = 1..10 alone gives ten phantom cups with indices 1..10 |
| `AssemblyFacts.EmptyPhantomsFail` | BeerPongPlotter.py:274 | an empty phantom list raises IndexError, so construction fails |
| `AssemblyFacts.OtherPhantomsRefused` | BeerPongPlotter.py:284-285 | a first element that is neither int nor tuple raises ValueError |
| `AssemblyFacts.MixedPhantomsRefused` | BeerPongPlotter.py:274-283 | a phantom list mixing ints with non-ints is refused |
| `AssemblyFacts.IntPositionRefused` | BeerPongPlotter.py:259 | an all-int tuple anywhere in `positions` makes construction fail |
| `AssemblyFacts.IntPhantomPositionRefused` | BeerPongPlotter.py:281 | an all-int tuple in a tuple phantom list makes construction fail |
| `AssemblyFacts.FailingPartFailsAll` | BeerPongPlotter.py:216-223 | an exception in any of the three builders fails the whole construction |

## Left out

- Drawing and saving (`BeerPongCup.plot`, `BeerPongConfig._plot`, `plot`, `save`): calls into the plotting library and file output.
- The `__main__` demonstration block: invocation glue.
- `self.id = hash(self.position)`: Python's built-in hash is opaque.
- `radius` and `color`: passed through unchanged and used only for drawing.
- The `print` warnings: recorded as the `warning` field instead.
- Floating-point rounding of 2.1: coordinates are exact reals.
- `Position` as a class of its own: only `BeerPongCup` is ever built, so its fields live in `BeerPongCup`.
- Python values the model cannot express: non-int indices (a float such as 1.0 would find the table entry), bools counted as ints, list elements of `positions` that are not pairs, and exceptions from comparing non-numbers. `OtherEntry` stands for a phantom entry such as None that is neither a table key nor unpackable.
- In an int phantom list, a tuple or other element is reported as the KeyError of its lookup without building the cup first.
- Cups.BeerPongCup.constructor: requires arguments that do not raise, because a Dafny constructor cannot fail; the raising paths are modelled by `Cups.BeerPongCup.New`.
- AssemblyFacts.MixedPhantomsRefused: states only that the list is refused, not which exception; `AssemblyFacts.MixedIntPhantomsKeyError` and `AssemblyFacts.MixedPairPhantomsTypeError` name it as KeyError or TypeError when no earlier element raised first.
- Non-finite floats: a NaN component passes every guard, since every comparison with it is false, and is placed at x = NaN; an infinite component fails a bound check. `Frac(real)` can express neither.
