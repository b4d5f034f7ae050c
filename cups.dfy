/**
 * BeerPongCup (with the fields of its base class Position): an index, a
 * position tuple, x/y coordinates and a `phantom` flag. Construction either
 * raises or yields a cup whose fields are what the resolver computes; the
 * phantom flag starts False and callers may set it afterwards.
 */
module Cups {
  import opened Wrappers
  import opened Positions

  /** The observable state of one cup. */
  datatype CupValue = CupValue(index: int, position: Pair, x: real, y: real, phantom: bool)

  /** The cup `BeerPongCup(index, position)` with its phantom flag then set to `phantom`. */
  function MakeCup(index: int, position: Pair, phantom: bool): Result<CupValue, Error> {
    match Resolve(index, position)
    case Failure(e) => Failure(e)
    case Success(res) => Success(CupValue(index, res.position, res.x, res.y, phantom))
  }

  class BeerPongCup {
    var index: int
    var position: Pair
    var x: real
    var y: real
    var phantom: bool

    function Value(): CupValue
      reads this
    {
      CupValue(index, position, x, y, phantom)
    }

    /** `BeerPongCup.__init__` for arguments on which it does not raise. */
    constructor (index: int, position: Pair)
      requires Resolve(index, position).Success?
      ensures Value() == MakeCup(index, position, false).value
    {
      this.index := index;
      this.position := position;
      this.phantom := false;
      new;
      if !IsSentinel(position) {
        InitXYPosition();
      } else {
        InitXYIndex();
      }
    }

    /** `_init_xy_position`: coordinates from the current tuple. */
    method InitXYPosition()
      modifies this
      ensures Value() == old(Value()).(x := XAt(position.row.AsReal(), position.column.AsReal()),
                                       y := YAt(position.row.AsReal()))
    {
      var maxWidth := (position.row.AsReal() - 1.0) * X_DIS;
      var startX := -maxWidth / 2.0;
      x := startX + (position.column.AsReal() - 1.0) * X_DIS;
      y := -(position.row.AsReal() - 1.0) * Y_DIS;
    }

    /** `_init_xy_index`: replace the tuple by the table's, then place it. */
    method InitXYIndex()
      requires index in IndexTable
      modifies this
      ensures index == old(index) && phantom == old(phantom)
      ensures Resolved(position, x, y) == Place(SlotPair(IndexTable[index]))
    {
      position := SlotPair(IndexTable[index]);
      InitXYPosition();
    }

    /**
     * `BeerPongCup(index, position)` including the raising paths: a refused
     * tuple raises what `_check_position` raises, a sentinel tuple with an
     * index outside the table raises KeyError.
     */
    static method New(index: int, position: Pair) returns (r: Result<BeerPongCup, Error>)
      ensures r.Failure? ==> MakeCup(index, position, false) == Failure(r.error)
      ensures r.Success? ==> fresh(r.value) && MakeCup(index, position, false) == Success(r.value.Value())
    {
      if !IsSentinel(position) {
        var problem := CheckPosition(index, position);
        if problem.Some? {
          return Failure(problem.value);
        }
      } else if index !in IndexTable {
        return Failure(KeyError);
      }
      var cup := new BeerPongCup(index, position);
      return Success(cup);
    }
  }

  /**
   * One construction: it raises exactly what the resolver raises; otherwise
   * the cup keeps the given index and flag and holds the resolver's tuple
   * and coordinates.
   */
  lemma MakeCupMeaning(index: int, position: Pair, phantom: bool)
    ensures MakeCup(index, position, phantom).Success? <==> Resolve(index, position).Success?
    ensures MakeCup(index, position, phantom).Failure? ==>
              Resolve(index, position) == Failure(MakeCup(index, position, phantom).error)
    ensures MakeCup(index, position, phantom).Success? ==>
              var c := MakeCup(index, position, phantom).value;
              c.index == index && c.phantom == phantom &&
              Resolve(index, position) == Success(Resolved(c.position, c.x, c.y))
  {
  }

  /** A cup built from an index alone is never a phantom and sits where its table tuple puts it. */
  lemma IndexCupPlacement(index: int, phantom: bool)
    requires 1 <= index <= 10
    ensures MakeCup(index, Sentinel, phantom).Success?
    ensures var c := MakeCup(index, Sentinel, phantom).value;
            c.index == index && c.phantom == phantom &&
            c.position == SlotPair(IndexTable[index]) &&
            Success(Resolved(c.position, c.x, c.y)) == Resolve(index, SlotPair(IndexTable[index]))
  {
    IndexPathMatchesPairPath(index);
  }
}
