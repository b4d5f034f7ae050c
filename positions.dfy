/**
 * The position resolver of BeerPongPlotter.py (class Position): a cup is
 * addressed by an index 1..10 or by a (row, column) pair; the pair is
 * validated and turned into planar x/y coordinates, each row centred on x = 0.
 *
 *          (1)                  (1,1)
 *        (2)(3)              (2,1)(2,2)
 *       (4)(5)(6)         (3,1)(3,2)(3,3)
 *     (7)(8)(9)(10)    (4,1)(4,2)(4,3)(4,4)
 */
module Positions {
  import opened Wrappers

  /** Horizontal and vertical spacing of neighbouring cups (2.1, taken exactly). */
  const X_DIS: real := 2.1
  const Y_DIS: real := 2.1

  /**
   * One component of a position tuple. Python distinguishes an `int` from a
   * `float` by type, not by value: 2 and 2.0 compare equal but only the first
   * is an `int`.
   */
  datatype Component = Int(i: int) | Frac(r: real)
  {
    function AsReal(): real {
      match this
      case Int(i) => i as real
      case Frac(r) => r
    }
  }

  /** A position tuple (row, column). */
  datatype Pair = Pair(row: Component, column: Component)
  {
    /** `all(isinstance(i, int) for i in position)` */
    predicate AllInt() {
      row.Int? && column.Int?
    }
  }

  /** The default position `(0, 0)`, meaning "use the index". */
  const Sentinel: Pair := Pair(Int(0), Int(0))

  /** `position == (0, 0)` in Python: numeric equality, so (0.0, 0) is the sentinel too. */
  predicate IsSentinel(p: Pair) {
    p.row.AsReal() == 0.0 && p.column.AsReal() == 0.0
  }

  datatype Reason =
    | NegativeComponent
    | RowBelowColumn
    | RowAboveFour
    | ColumnAboveFour
    | IndexMismatch(expected: int, given: int)
    | NotIndicesOrPositions

  /** The exceptions the core raises. */
  datatype Error = ValueError(reason: Reason) | KeyError | IndexError | TypeError

  /** `sum(range(n))`: 0 + 1 + ... + (n - 1), and 0 when n <= 0. */
  function SumRange(n: int): (s: int)
    ensures s >= 0
    decreases n
  {
    if n <= 0 then 0 else SumRange(n - 1) + (n - 1)
  }

  /**
   * The index the integer slot (row, column) must carry: the rows above hold
   * row * (row - 1) / 2 cups, and the column counts on from there.
   */
  function ExpectedIndex(row: int, column: int): (e: int)
    ensures row >= 0 ==> 2 * e == row * (row - 1) + 2 * column
  {
    assert row >= 0 ==> 2 * SumRange(row) == row * (row - 1) by {
      if row >= 0 {
        SumRangeClosedForm(row);
      }
    }
    SumRange(row) + column
  }

  /** The fixed table from index to (row, column). */
  const IndexTable: map<int, (int, int)> := map[
    1 := (1, 1),
    2 := (2, 1),
    3 := (2, 2),
    4 := (3, 1),
    5 := (3, 2),
    6 := (3, 3),
    7 := (4, 1),
    8 := (4, 2),
    9 := (4, 3),
    10 := (4, 4)
  ]

  /** The position tuple of a table entry, both components Python ints. */
  function SlotPair(slot: (int, int)): Pair {
    Pair(Int(slot.0), Int(slot.1))
  }

  /** Both components non-negative, column at most row, row at most 4. */
  predicate InBounds(p: Pair) {
    0.0 <= p.column.AsReal() <= p.row.AsReal() <= 4.0
  }

  /**
   * `_check_position`: None when it returns True, Some(e) when it raises e.
   * The guards are tried in the source's order; the column guard can never
   * fire, because a column above 4 is either above the row or under a row
   * that is itself above 4.
   */
  function CheckPosition(index: int, p: Pair): (r: Option<Error>)
    ensures r == Some(ValueError(NegativeComponent)) <==>
              p.row.AsReal() < 0.0 || p.column.AsReal() < 0.0
    ensures r == Some(ValueError(RowBelowColumn)) <==>
              0.0 <= p.row.AsReal() < p.column.AsReal()
    ensures r == Some(ValueError(RowAboveFour)) <==>
              0.0 <= p.column.AsReal() <= p.row.AsReal() && p.row.AsReal() > 4.0
    ensures r != Some(ValueError(ColumnAboveFour))
    ensures (r.Some? && r.value.ValueError? && r.value.reason.IndexMismatch?) <==>
              InBounds(p) && p.AllInt() && index != ExpectedIndex(p.row.i, p.column.i)
    ensures r.None? <==>
              InBounds(p) && (p.AllInt() ==> index == ExpectedIndex(p.row.i, p.column.i))
  {
    var row, column := p.row.AsReal(), p.column.AsReal();
    if row < 0.0 || column < 0.0 then Some(ValueError(NegativeComponent))
    else if row < column then Some(ValueError(RowBelowColumn))
    else if row > 4.0 then Some(ValueError(RowAboveFour))
    else if column > 4.0 then Some(ValueError(ColumnAboveFour))
    else if p.AllInt() && index != ExpectedIndex(p.row.i, p.column.i) then
      Some(ValueError(IndexMismatch(ExpectedIndex(p.row.i, p.column.i), index)))
    else None
  }

  /** x of (row, column): the row starts at -(row - 1) * X_DIS / 2, columns X_DIS apart. */
  function XAt(row: real, column: real): real {
    var maxWidth := (row - 1.0) * X_DIS;
    var startX := -maxWidth / 2.0;
    startX + (column - 1.0) * X_DIS
  }

  /** y of a row: each row one Y_DIS below the previous one. */
  function YAt(row: real): real {
    -(row - 1.0) * Y_DIS
  }

  /** What a constructed Position holds: its (possibly replaced) tuple and coordinates. */
  datatype Resolved = Resolved(position: Pair, x: real, y: real)

  /** `_init_xy_position` on a given tuple. */
  function Place(p: Pair): Resolved {
    Resolved(p, XAt(p.row.AsReal(), p.column.AsReal()), YAt(p.row.AsReal()))
  }

  /**
   * `Position(index, position)`: a non-sentinel tuple is validated and placed;
   * the sentinel looks the index up in the table (KeyError when absent) and
   * places the table's tuple.
   */
  function Resolve(index: int, p: Pair): (r: Result<Resolved, Error>)
    ensures r.Success? ==> r.value == Place(r.value.position)
    ensures !IsSentinel(p) ==>
              (r.Success? <==> CheckPosition(index, p).None?) &&
              (r.Success? ==> r.value.position == p) &&
              (r.Failure? ==> Some(r.error) == CheckPosition(index, p))
    ensures IsSentinel(p) ==>
              (r.Success? <==> 1 <= index <= 10) &&
              (r.Success? ==> r.value.position == SlotPair(IndexTable[index])) &&
              (r.Failure? ==> r.error == KeyError)
  {
    if !IsSentinel(p) then
      match CheckPosition(index, p)
      case Some(e) => Failure(e)
      case None => Success(Place(p))
    else if index in IndexTable then
      Success(Place(SlotPair(IndexTable[index])))
    else
      Failure(KeyError)
  }

  // ---------------------------------------------------------------------
  // The index table and the triangular-number formula
  // ---------------------------------------------------------------------

  /** `sum(range(n))` in closed form. */
  lemma {:induction false} SumRangeClosedForm(n: int)
    requires n >= 0
    ensures 2 * SumRange(n) == n * (n - 1)
  {
    if n > 0 {
      SumRangeClosedForm(n - 1);
    }
  }

  /** The table's keys are exactly the indices 1..10. */
  lemma TableKeys()
    ensures forall i :: i in IndexTable <==> 1 <= i <= 10
  {
  }

  /** Every table entry i -> (r, c) is a valid integer slot whose formula index is i. */
  lemma TableEntriesAgree()
    ensures forall i :: i in IndexTable ==>
              var (r, c) := IndexTable[i];
              1 <= c <= r <= 4 && ExpectedIndex(r, c) == i
  {
    forall i | i in IndexTable
      ensures var (r, c) := IndexTable[i]; 1 <= c <= r <= 4 && ExpectedIndex(r, c) == i
    {
      TableKeys();
      var (r, c) := IndexTable[i];
      SumRangeClosedForm(r);
    }
  }

  /** Every valid integer slot is in the table, under its formula index: the table is onto. */
  lemma TableCoversSlots(r: int, c: int)
    requires 1 <= c <= r <= 4
    ensures ExpectedIndex(r, c) in IndexTable
    ensures IndexTable[ExpectedIndex(r, c)] == (r, c)
  {
    if r == 1 {
      assert SumRange(1) == 0;
    } else if r == 2 {
      assert SumRange(2) == 1;
    } else if r == 3 {
      assert SumRange(3) == 3;
    } else {
      assert SumRange(4) == 6;
    }
  }

  /** Two valid integer slots with the same formula index are the same slot. */
  lemma ExpectedIndexInjective(r1: int, c1: int, r2: int, c2: int)
    requires 1 <= c1 <= r1 <= 4 && 1 <= c2 <= r2 <= 4
    requires ExpectedIndex(r1, c1) == ExpectedIndex(r2, c2)
    ensures r1 == r2 && c1 == c2
  {
    TableCoversSlots(r1, c1);
    TableCoversSlots(r2, c2);
  }

  // ---------------------------------------------------------------------
  // Validation
  // ---------------------------------------------------------------------

  /** A table tuple passes validation under its own index and is not the sentinel. */
  lemma TablePairPasses(i: int)
    requires 1 <= i <= 10
    ensures !IsSentinel(SlotPair(IndexTable[i]))
    ensures CheckPosition(i, SlotPair(IndexTable[i])).None?
  {
    TableEntriesAgree();
    TableKeys();
  }

  /** Resolving an index alone agrees with resolving it together with its table tuple. */
  lemma IndexPathMatchesPairPath(i: int)
    requires 1 <= i <= 10
    ensures Resolve(i, Sentinel).Success?
    ensures Resolve(i, Sentinel) == Resolve(i, SlotPair(IndexTable[i]))
  {
    TablePairPasses(i);
  }

  /** An all-int tuple in bounds whose index is not the formula's is refused. */
  lemma MismatchedIndexRefused(index: int, p: Pair)
    requires !IsSentinel(p) && p.AllInt() && InBounds(p)
    requires index != ExpectedIndex(p.row.i, p.column.i)
    ensures Resolve(index, p) ==
              Failure(ValueError(IndexMismatch(ExpectedIndex(p.row.i, p.column.i), index)))
  {
  }

  /** A tuple with a float component skips the index check: any index is accepted. */
  lemma FractionalSkipsIndexCheck(index: int, p: Pair)
    requires !p.AllInt() && InBounds(p) && !IsSentinel(p)
    ensures Resolve(index, p) == Success(Place(p))
  {
  }

  /**
   * Index -1 (used for tuples given through `positions=` and tuple phantoms)
   * never resolves an all-int tuple: the formula index is never negative, and
   * the sentinel looks -1 up in the table.
   */
  lemma MinusOneRefusesIntPairs(p: Pair)
    requires p.AllInt()
    ensures Resolve(-1, p).Failure?
  {
    if !IsSentinel(p) && InBounds(p) {
      assert ExpectedIndex(p.row.i, p.column.i) >= 0;
    }
  }

  /** With the sentinel, an index outside 1..10 fails the table lookup. */
  lemma SentinelOutsideTableIsKeyError(index: int, p: Pair)
    requires IsSentinel(p) && !(1 <= index <= 10)
    ensures Resolve(index, p) == Failure(KeyError)
  {
  }

  // ---------------------------------------------------------------------
  // Coordinates
  // ---------------------------------------------------------------------

  /**
   * The sentinel test compares values: an all-int tuple is the sentinel only
   * when it is (0, 0) itself, but (0.0, 0) and (0, 0.0) count as well.
   */
  lemma SentinelByValue(p: Pair)
    ensures p.AllInt() ==> (IsSentinel(p) <==> p == Sentinel)
    ensures IsSentinel(Pair(Frac(0.0), Int(0))) && IsSentinel(Pair(Int(0), Frac(0.0)))
  {
  }

  /** The apex (1, 1) sits at x = 0, y = 0. */
  lemma ApexAtOrigin()
    ensures XAt(1.0, 1.0) == 0.0 && YAt(1.0) == 0.0
  {
  }

  /** Columns c and row + 1 - c of a row are mirror images about x = 0. */
  lemma RowMirrored(row: real, column: real)
    ensures XAt(row, row + 1.0 - column) == -XAt(row, column)
  {
  }

  /** Neighbouring columns of a row are exactly X_DIS apart. */
  lemma ColumnsSpaced(row: real, column: real)
    ensures XAt(row, column + 1.0) - XAt(row, column) == X_DIS
  {
  }

  /** Neighbouring rows are exactly Y_DIS apart, downwards. */
  lemma RowsSpaced(row: real)
    ensures YAt(row + 1.0) == YAt(row) - Y_DIS
  {
  }

  /** A column's x is its offset from the row's middle column (row + 1) / 2, in X_DIS steps. */
  lemma XAtCentred(row: real, column: real)
    ensures XAt(row, column) == (column - (row + 1.0) / 2.0) * X_DIS
  {
  }

  /**
   * A tuple with 1 <= column <= row <= 4 is kept as given and lands inside the
   * rack: within its row's half-width of the centre line, on or below the apex.
   */
  lemma PlaceInsideRack(p: Pair)
    requires 1.0 <= p.column.AsReal() <= p.row.AsReal() <= 4.0
    ensures Place(p).position == p
    ensures var r := Place(p);
            -(p.row.AsReal() - 1.0) * X_DIS / 2.0 <= r.x <= (p.row.AsReal() - 1.0) * X_DIS / 2.0 &&
            -3.15 <= r.x <= 3.15 && -3.0 * Y_DIS <= r.y <= 0.0
  {
  }

  /** Index 5, the middle of row 3, lies on the centre line two rows down. */
  lemma IndexFiveCentred()
    ensures Resolve(5, Sentinel) == Success(Resolved(Pair(Int(3), Int(2)), 0.0, -2.0 * Y_DIS))
  {
  }

  /** The sum of the x coordinates of columns 1..n of row `row`. */
  function RowXSum(row: real, n: nat): real {
    if n == 0 then 0.0 else RowXSum(row, n - 1) + XAt(row, n as real)
  }

  /** A full integer row is centred: its x coordinates sum to zero. */
  lemma {:induction false} RowCentred(n: nat)
    ensures RowXSum(n as real, n) == 0.0
  {
    RowXSumClosedForm(n as real, n);
  }

  lemma {:induction false} RowXSumClosedForm(row: real, n: nat)
    ensures 2.0 * RowXSum(row, n) == (n as real) * X_DIS * ((n as real) - row)
  {
    if n > 0 {
      RowXSumClosedForm(row, n - 1);
    }
  }
}
