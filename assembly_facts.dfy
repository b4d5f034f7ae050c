/**
 * What BeerPongConfig's assembly promises about the cup list: the default
 * table, the order and length of the list, which cups are phantoms, and the
 * ways a `positions` or `phantoms` list is refused.
 */
module AssemblyFacts {
  import opened Wrappers
  import opened Positions
  import opened Cups
  import opened Config

  /** The length of an optional list, 0 when it is not given. */
  function Len<T>(xs: Option<seq<T>>): nat {
    if xs.None? then 0 else |xs.value|
  }

  /** Collect succeeds exactly when every element builds a cup. */
  lemma CollectSucceeds<T>(xs: seq<T>, make: T -> Result<CupValue, Error>)
    requires forall k :: 0 <= k < |xs| ==> make(xs[k]).Success?
    ensures Collect(xs, make).Success?
    ensures forall k :: 0 <= k < |xs| ==> Success(Collect(xs, make).value[k]) == make(xs[k])
  {
    CollectMeaning(xs, make);
  }

  /** The cups the phantom path builds, one per element, are all phantoms. */
  lemma PhantomCupsFlagged(phantoms: seq<PhantomEntry>)
    requires PhantomCups(phantoms).Success?
    ensures |PhantomCups(phantoms).value| == |phantoms|
    ensures forall k :: 0 <= k < |phantoms| ==> PhantomCups(phantoms).value[k].phantom
  {
    var make := if phantoms[0].IndexEntry? then PhantomIndexCup else PhantomPairCup;
    CollectMeaning(phantoms, make);
    var cups := PhantomCups(phantoms).value;
    forall k | 0 <= k < |phantoms|
      ensures cups[k].phantom
    {
      assert make(phantoms[k]) == Success(cups[k]);
    }
  }

  /**
   * With no argument at all the table is the ten index cups 1..10, in order,
   * none of them a phantom, each where the index table puts it.
   */
  lemma DefaultIsFullTable()
    ensures Assemble(None, None, None).Success?
    ensures var cups := Assemble(None, None, None).value;
            |cups| == 10 &&
            forall k :: 0 <= k < 10 ==>
              cups[k].index == k + 1 && !cups[k].phantom &&
              cups[k].position == SlotPair(IndexTable[k + 1])
  {
    var xs := AllIndices();
    forall k | 0 <= k < |xs|
      ensures IndexCup(xs[k]).Success?
    {
      IndexCupPlacement(xs[k], false);
    }
    CollectSucceeds(xs, IndexCup);
    var cups := Assemble(None, None, None).value;
    forall k | 0 <= k < 10
      ensures cups[k].index == k + 1 && !cups[k].phantom &&
              cups[k].position == SlotPair(IndexTable[k + 1])
    {
      IndexCupPlacement(k + 1, false);
      assert Success(cups[k]) == IndexCup(k + 1);
    }
  }

  /** The cups of `indices=`: one per index, in order, none a phantom. */
  lemma IndexPartCups(indices: Option<seq<int>>)
    requires IndexPart(indices).Success?
    ensures var a := IndexPart(indices).value;
            |a| == Len(indices) &&
            forall k :: 0 <= k < |a| ==> Success(a[k]) == IndexCup(indices.value[k]) && !a[k].phantom
  {
    if indices.Some? {
      CollectMeaning(indices.value, IndexCup);
    }
  }

  /** The cups of `positions=`: one per tuple, in order, none a phantom. */
  lemma PositionPartCups(positions: Option<seq<Pair>>)
    requires PositionPart(positions).Success?
    ensures var b := PositionPart(positions).value;
            |b| == Len(positions) &&
            forall k :: 0 <= k < |b| ==> Success(b[k]) == PositionCup(positions.value[k]) && !b[k].phantom
  {
    if positions.Some? {
      CollectMeaning(positions.value, PositionCup);
    }
  }

  /** Given any argument, the list is the three parts joined, in argument order. */
  lemma AssembledParts(indices: Option<seq<int>>, positions: Option<seq<Pair>>,
                       phantoms: Option<seq<PhantomEntry>>)
    requires indices.Some? || positions.Some? || phantoms.Some?
    requires Assemble(indices, positions, phantoms).Success?
    ensures IndexPart(indices).Success? && PositionPart(positions).Success? && PhantomPart(phantoms).Success?
    ensures Assemble(indices, positions, phantoms).value ==
              IndexPart(indices).value + PositionPart(positions).value + PhantomPart(phantoms).value
  {
  }

  /**
   * Given any argument, the list is as long as the three lists together: no
   * default cups are added.
   */
  lemma AssembledLength(indices: Option<seq<int>>, positions: Option<seq<Pair>>,
                        phantoms: Option<seq<PhantomEntry>>)
    requires indices.Some? || positions.Some? || phantoms.Some?
    requires Assemble(indices, positions, phantoms).Success?
    ensures |Assemble(indices, positions, phantoms).value| == Len(indices) + Len(positions) + Len(phantoms)
  {
    AssembledParts(indices, positions, phantoms);
    IndexPartCups(indices);
    PositionPartCups(positions);
    if phantoms.Some? {
      PhantomCupsFlagged(phantoms.value);
    }
  }

  /** Given any argument, the list starts with the index cups, in input order. */
  lemma AssembledIndexCupsFirst(indices: Option<seq<int>>, positions: Option<seq<Pair>>,
                                phantoms: Option<seq<PhantomEntry>>)
    requires indices.Some? || positions.Some? || phantoms.Some?
    requires Assemble(indices, positions, phantoms).Success?
    ensures var cups := Assemble(indices, positions, phantoms).value;
            Len(indices) <= |cups| &&
            forall k :: 0 <= k < Len(indices) ==> Success(cups[k]) == IndexCup(indices.value[k])
  {
    AssembledParts(indices, positions, phantoms);
    var cups, a := Assemble(indices, positions, phantoms).value, IndexPart(indices).value;
    IndexPartCups(indices);
    assert forall k :: 0 <= k < |a| ==> cups[k] == a[k];
  }

  /** Given any argument, the position cups follow the index cups, in input order. */
  lemma AssembledPositionCupsSecond(indices: Option<seq<int>>, positions: Option<seq<Pair>>,
                                    phantoms: Option<seq<PhantomEntry>>)
    requires indices.Some? || positions.Some? || phantoms.Some?
    requires Assemble(indices, positions, phantoms).Success?
    ensures var cups := Assemble(indices, positions, phantoms).value;
            var i := Len(indices);
            i + Len(positions) <= |cups| &&
            forall k :: 0 <= k < Len(positions) ==> Success(cups[i + k]) == PositionCup(positions.value[k])
  {
    AssembledParts(indices, positions, phantoms);
    IndexPartCups(indices);
    if positions.Some? {
      CollectInMiddle(Assemble(indices, positions, phantoms).value, IndexPart(indices).value,
                      PhantomPart(phantoms).value, positions.value, PositionCup);
    }
  }

  /** A successful Collect placed after a prefix a: its cups sit at |a| + k. */
  lemma CollectInMiddle<T>(cups: seq<CupValue>, a: seq<CupValue>, c: seq<CupValue>,
                           xs: seq<T>, make: T -> Result<CupValue, Error>)
    requires Collect(xs, make).Success?
    requires cups == a + Collect(xs, make).value + c
    ensures |a| + |xs| <= |cups|
    ensures forall k :: 0 <= k < |xs| ==> Success(cups[|a| + k]) == make(xs[k])
  {
    CollectMeaning(xs, make);
    var b := Collect(xs, make).value;
    assert forall k :: 0 <= k < |b| ==> cups[|a| + k] == b[k];
  }

  /** Exactly the cups built from the phantom list are phantoms. */
  lemma AssembledPhantomFlags(indices: Option<seq<int>>, positions: Option<seq<Pair>>,
                              phantoms: Option<seq<PhantomEntry>>)
    requires indices.Some? || positions.Some? || phantoms.Some?
    requires Assemble(indices, positions, phantoms).Success?
    ensures var cups := Assemble(indices, positions, phantoms).value;
            var n := Len(indices) + Len(positions);
            (forall k :: 0 <= k < n ==> !cups[k].phantom) &&
            (forall k :: n <= k < |cups| ==> cups[k].phantom)
  {
    AssembledParts(indices, positions, phantoms);
    IndexPartCups(indices);
    PositionPartCups(positions);
    if phantoms.Some? {
      PhantomCupsFlagged(phantoms.value);
    }
    JoinedThree(Assemble(indices, positions, phantoms).value,
                IndexPart(indices).value, PositionPart(positions).value, PhantomPart(phantoms).value);
  }

  lemma JoinedThree(cups: seq<CupValue>, a: seq<CupValue>, b: seq<CupValue>, c: seq<CupValue>)
    requires cups == a + b + c
    ensures |cups| == |a| + |b| + |c|
    ensures forall k :: 0 <= k < |a| ==> cups[k] == a[k]
    ensures forall k :: 0 <= k < |b| ==> cups[|a| + k] == b[k]
    ensures forall k :: |a| + |b| <= k < |cups| ==> cups[k] == c[k - |a| - |b|]
  {
  }

  /** A warning is all the cup count ever causes: any number of valid indices is accepted. */
  lemma CountOnlyWarns(indices: seq<int>)
    requires forall k :: 0 <= k < |indices| ==> 1 <= indices[k] <= 10
    ensures Assemble(Some(indices), None, None).Success?
    ensures |Assemble(Some(indices), None, None).value| == |indices|
  {
    forall k | 0 <= k < |indices|
      ensures IndexCup(indices[k]).Success?
    {
      IndexCupPlacement(indices[k], false);
    }
    CollectSucceeds(indices, IndexCup);
    assert Assemble(Some(indices), None, None).value == IndexPart(Some(indices)).value + [] + [];
  }

  /** `phantoms=[1, ..., 10]` alone gives the ten table cups, all of them phantoms. */
  lemma PhantomFullTable()
    ensures var phantoms := seq(10, k => IndexEntry(k + 1));
            Assemble(None, None, Some(phantoms)).Success? &&
            var cups := Assemble(None, None, Some(phantoms)).value;
            |cups| == 10 &&
            forall k :: 0 <= k < 10 ==> cups[k].index == k + 1 && cups[k].phantom
  {
    var phantoms := seq(10, k => IndexEntry(k + 1));
    forall k | 0 <= k < 10
      ensures PhantomIndexCup(phantoms[k]).Success?
    {
      IndexCupPlacement(k + 1, true);
    }
    CollectSucceeds(phantoms, PhantomIndexCup);
    var cups := Assemble(None, None, Some(phantoms)).value;
    assert cups == [] + [] + Collect(phantoms, PhantomIndexCup).value;
    forall k | 0 <= k < 10
      ensures cups[k].index == k + 1 && cups[k].phantom
    {
      IndexCupPlacement(k + 1, true);
      assert Success(cups[k]) == PhantomIndexCup(phantoms[k]);
    }
  }

  /** An empty phantom list fails at `phantoms[0]`. */
  lemma EmptyPhantomsFail(indices: Option<seq<int>>, positions: Option<seq<Pair>>)
    ensures PhantomPart(Some([])) == Failure(IndexError)
    ensures Assemble(indices, positions, Some([])).Failure?
  {
  }

  /** A phantom list whose first element is neither an int nor a tuple is a ValueError. */
  lemma OtherPhantomsRefused(phantoms: seq<PhantomEntry>)
    requires |phantoms| > 0 && phantoms[0].OtherEntry?
    ensures PhantomPart(Some(phantoms)) == Failure(ValueError(NotIndicesOrPositions))
  {
  }

  /** `BeerPongCup(index)`: a KeyError outside 1..10, else a non-phantom cup at its table tuple. */
  lemma IndexCupMeaning(index: int)
    ensures IndexCup(index).Success? <==> 1 <= index <= 10
    ensures IndexCup(index).Failure? ==> IndexCup(index).error == KeyError
    ensures IndexCup(index).Success? ==>
              var c := IndexCup(index).value;
              c.index == index && !c.phantom && c.position == SlotPair(IndexTable[index])
  {
  }

  /**
   * `BeerPongCup(-1, (x, y))`: the sentinel fails the lookup of -1, any other
   * tuple is validated; a cup that is built has a float component, index -1,
   * the given tuple, and is no phantom.
   */
  lemma PositionCupMeaning(p: Pair)
    ensures IsSentinel(p) ==> PositionCup(p) == Failure(KeyError)
    ensures !IsSentinel(p) ==> (PositionCup(p).Success? <==> CheckPosition(-1, p).None?)
    ensures PositionCup(p).Success? ==>
              var c := PositionCup(p).value;
              !p.AllInt() && c.index == -1 && !c.phantom && c.position == p
  {
    if p.AllInt() {
      MinusOneRefusesIntPairs(p);
    }
  }

  /** An element of an int phantom list: a non-int fails the lookup, an int builds a flagged cup. */
  lemma PhantomIndexCupMeaning(e: PhantomEntry)
    ensures !e.IndexEntry? ==> PhantomIndexCup(e) == Failure(KeyError)
    ensures e.IndexEntry? ==> (PhantomIndexCup(e).Success? <==> 1 <= e.index <= 10)
    ensures PhantomIndexCup(e).Success? ==>
              var c := PhantomIndexCup(e).value;
              c.phantom && c.index == e.index && c.position == SlotPair(IndexTable[e.index])
  {
  }

  /** An element of a tuple phantom list: a non-tuple fails to unpack, a tuple builds a flagged cup. */
  lemma PhantomPairCupMeaning(e: PhantomEntry)
    ensures !e.PairEntry? ==> PhantomPairCup(e) == Failure(TypeError)
    ensures e.PairEntry? && IsSentinel(e.pair) ==> PhantomPairCup(e) == Failure(KeyError)
    ensures PhantomPairCup(e).Success? ==>
              var c := PhantomPairCup(e).value;
              !e.pair.AllInt() && c.phantom && c.index == -1 && c.position == e.pair
  {
    if e.PairEntry? && e.pair.AllInt() {
      MinusOneRefusesIntPairs(e.pair);
    }
  }

  /**
   * In an int phantom list whose elements before j all build, a non-int
   * element j raises KeyError.
   */
  lemma MixedIntPhantomsKeyError(phantoms: seq<PhantomEntry>, j: nat)
    requires j < |phantoms| && phantoms[0].IndexEntry? && !phantoms[j].IndexEntry?
    requires forall i :: 0 <= i < j ==> PhantomIndexCup(phantoms[i]).Success?
    ensures PhantomCups(phantoms) == Failure(KeyError)
  {
    CollectSucceeds(phantoms[..j], PhantomIndexCup);
    CollectStopsAt(phantoms, PhantomIndexCup, j);
  }

  /**
   * In a tuple phantom list whose elements before j all build, a non-tuple
   * element j raises TypeError.
   */
  lemma MixedPairPhantomsTypeError(phantoms: seq<PhantomEntry>, j: nat)
    requires j < |phantoms| && phantoms[0].PairEntry? && !phantoms[j].PairEntry?
    requires forall i :: 0 <= i < j ==> PhantomPairCup(phantoms[i]).Success?
    ensures PhantomCups(phantoms) == Failure(TypeError)
  {
    CollectSucceeds(phantoms[..j], PhantomPairCup);
    CollectStopsAt(phantoms, PhantomPairCup, j);
  }

  /** A phantom list mixing ints with other kinds of element is refused. */
  lemma MixedPhantomsRefused(phantoms: seq<PhantomEntry>, j: nat)
    requires |phantoms| > 0 && j < |phantoms|
    requires phantoms[0].IndexEntry? != phantoms[j].IndexEntry?
    ensures PhantomCups(phantoms).Failure?
  {
    CollectMeaning(phantoms, PhantomIndexCup);
    CollectMeaning(phantoms, PhantomPairCup);
    if phantoms[0].IndexEntry? {
      assert PhantomIndexCup(phantoms[j]).Failure?;
    } else if phantoms[0].PairEntry? {
      assert PhantomPairCup(phantoms[j]).Failure?;
    }
  }

  /**
   * An all-int tuple given through `positions=` is always refused: the cup is
   * built with index -1, which no integer slot carries.
   */
  lemma IntPositionRefused(positions: seq<Pair>, j: nat)
    requires j < |positions| && positions[j].AllInt()
    ensures PositionPart(Some(positions)).Failure?
  {
    MinusOneRefusesIntPairs(positions[j]);
    CollectMeaning(positions, PositionCup);
    assert PositionCup(positions[j]).Failure?;
  }

  /** The same holds for an all-int tuple in a tuple phantom list. */
  lemma IntPhantomPositionRefused(phantoms: seq<PhantomEntry>, j: nat)
    requires |phantoms| > 0 && phantoms[0].PairEntry?
    requires j < |phantoms| && phantoms[j].PairEntry? && phantoms[j].pair.AllInt()
    ensures PhantomCups(phantoms).Failure?
  {
    MinusOneRefusesIntPairs(phantoms[j].pair);
    CollectMeaning(phantoms, PhantomPairCup);
    assert PhantomPairCup(phantoms[j]).Failure?;
  }

  /** A failing part fails the whole construction. */
  lemma FailingPartFailsAll(indices: Option<seq<int>>, positions: Option<seq<Pair>>,
                            phantoms: Option<seq<PhantomEntry>>)
    requires IndexPart(indices).Failure? || PositionPart(positions).Failure? ||
             PhantomPart(phantoms).Failure?
    ensures Assemble(indices, positions, phantoms).Failure?
  {
  }
}
