/**
 * BeerPongConfig: assembles the cup list of one table from optional lists of
 * indices, positions and phantoms, in that order, falling back to the full
 * ten-cup table when none of the three is given.
 */
module Config {
  import opened Wrappers
  import opened Positions
  import opened Cups

  /**
   * One element of a `phantoms` list, by Python type: an int, a tuple, or any
   * other value (taken to be one, like None, that is neither a table key nor
   * unpackable into two).
   */
  datatype PhantomEntry = IndexEntry(index: int) | PairEntry(pair: Pair) | OtherEntry

  /** The non-fatal diagnostic printed at the end of construction. */
  datatype Warning = NoWarning | NoCups | MoreThanTen

  // ---------------------------------------------------------------------
  // Specification of the builders
  // ---------------------------------------------------------------------

  /**
   * Build one cup per element, in order, stopping at the first element whose
   * construction raises: the `for ... append` loops of the builders.
   */
  function Collect<T>(xs: seq<T>, make: T -> Result<CupValue, Error>): (r: Result<seq<CupValue>, Error>)
    ensures r.Success? ==> |r.value| == |xs|
    decreases |xs|
  {
    if xs == [] then Success([])
    else
      match Collect(xs[..|xs| - 1], make)
      case Failure(e) => Failure(e)
      case Success(cups) =>
        match make(xs[|xs| - 1])
        case Failure(e) => Failure(e)
        case Success(c) => Success(cups + [c])
  }

  /**
   * What Collect means: on success one cup per element, the k-th built from
   * the k-th element; on failure the error of the first element that raised.
   */
  lemma {:induction false} CollectMeaning<T>(xs: seq<T>, make: T -> Result<CupValue, Error>)
    ensures var r := Collect(xs, make);
            (r.Success? ==> forall k :: 0 <= k < |xs| ==> make(xs[k]) == Success(r.value[k])) &&
            (r.Failure? <==> exists k :: 0 <= k < |xs| && make(xs[k]).Failure?) &&
            (r.Failure? ==>
               exists k :: 0 <= k < |xs| && make(xs[k]) == Failure(r.error) &&
                           forall j :: 0 <= j < k ==> make(xs[j]).Success?)
    decreases |xs|
  {
    if xs != [] {
      var front := xs[..|xs| - 1];
      CollectMeaning(front, make);
      assert forall k :: 0 <= k < |front| ==> front[k] == xs[k];
    }
  }

  /** `_init_indices` per element: `BeerPongCup(index)`. */
  function IndexCup(index: int): Result<CupValue, Error> {
    MakeCup(index, Sentinel, false)
  }

  /** `_init_positions` per element: `BeerPongCup(-1, (x, y))`. */
  function PositionCup(p: Pair): Result<CupValue, Error> {
    MakeCup(-1, p, false)
  }

  /** Phantom list whose first element is an int: each element is used as an index. */
  function PhantomIndexCup(e: PhantomEntry): Result<CupValue, Error> {
    match e
    case IndexEntry(index) => MakeCup(index, Sentinel, true)
    case _ => Failure(KeyError)
  }

  /** Phantom list whose first element is a tuple: each element is unpacked into (x, y). */
  function PhantomPairCup(e: PhantomEntry): Result<CupValue, Error> {
    match e
    case PairEntry(p) => MakeCup(-1, p, true)
    case _ => Failure(TypeError)
  }

  /** `_init_phantoms`: the kind of list is decided by its first element. */
  function PhantomCups(phantoms: seq<PhantomEntry>): Result<seq<CupValue>, Error> {
    if |phantoms| == 0 then Failure(IndexError)
    else match phantoms[0]
      case IndexEntry(_) => Collect(phantoms, PhantomIndexCup)
      case PairEntry(_) => Collect(phantoms, PhantomPairCup)
      case OtherEntry => Failure(ValueError(NotIndicesOrPositions))
  }

  /**
   * `range(1, 11)`: every key of the index table, each once, in increasing
   * order, so `_complete_table` never fails its lookup.
   */
  function AllIndices(): (s: seq<int>)
    ensures forall k :: 0 <= k < |s| ==> s[k] in IndexTable
    ensures forall j, k :: 0 <= j < k < |s| ==> s[j] < s[k]
    ensures forall i :: i in IndexTable ==> i in s
  {
    TableKeys();
    var s := seq(10, k => k + 1);
    assert forall i :: i in IndexTable ==> i in s by {
      forall i | i in IndexTable
        ensures i in s
      {
        assert s[i - 1] == i;
      }
    }
    s
  }

  /** `_complete_table`. */
  function FullTable(): Result<seq<CupValue>, Error> {
    Collect(AllIndices(), IndexCup)
  }

  /** The cups of `indices=`, none when it is not given. */
  function IndexPart(indices: Option<seq<int>>): Result<seq<CupValue>, Error> {
    if indices.None? then Success([]) else Collect(indices.value, IndexCup)
  }

  /** The cups of `positions=`, none when it is not given. */
  function PositionPart(positions: Option<seq<Pair>>): Result<seq<CupValue>, Error> {
    if positions.None? then Success([]) else Collect(positions.value, PositionCup)
  }

  /** The cups of `phantoms=`, none when it is not given. */
  function PhantomPart(phantoms: Option<seq<PhantomEntry>>): Result<seq<CupValue>, Error> {
    if phantoms.None? then Success([]) else PhantomCups(phantoms.value)
  }

  /** Run one builder after another: the first exception wins, else the lists are joined. */
  function Chain(first: Result<seq<CupValue>, Error>, second: Result<seq<CupValue>, Error>)
    : Result<seq<CupValue>, Error>
  {
    match first
    case Failure(e) => Failure(e)
    case Success(a) =>
      match second
      case Failure(e) => Failure(e)
      case Success(b) => Success(a + b)
  }

  /** The cup list `BeerPongConfig.__init__` builds, or the exception it raises. */
  function Assemble(indices: Option<seq<int>>, positions: Option<seq<Pair>>, phantoms: Option<seq<PhantomEntry>>)
    : Result<seq<CupValue>, Error>
  {
    if indices.None? && positions.None? && phantoms.None? then FullTable()
    else Chain(Chain(IndexPart(indices), PositionPart(positions)), PhantomPart(phantoms))
  }

  /** The warning for a list of `n` cups; it never turns into a failure. */
  function WarningFor(n: nat): (w: Warning)
    ensures w == NoCups <==> n == 0
    ensures w == MoreThanTen <==> n > 10
    ensures w == NoWarning <==> 1 <= n <= 10
  {
    if n == 0 then NoCups else if n > 10 then MoreThanTen else NoWarning
  }

  /** The states of a list of cups. */
  function Values(cups: seq<BeerPongCup>): (vs: seq<CupValue>)
    reads cups
    ensures |vs| == |cups|
  {
    if cups == [] then [] else Values(cups[..|cups| - 1]) + [cups[|cups| - 1].Value()]
  }

  lemma {:induction false} ValuesConcat(a: seq<BeerPongCup>, b: seq<BeerPongCup>)
    ensures Values(a + b) == Values(a) + Values(b)
    decreases |b|
  {
    if b == [] {
      assert a + b == a;
    } else {
      var front := b[..|b| - 1];
      assert (a + b)[..|a + b| - 1] == a + front;
      ValuesConcat(a, front);
    }
  }

  /** The k-th state is the state of the k-th cup. */
  lemma {:induction false} ValuesAt(cups: seq<BeerPongCup>)
    ensures forall k :: 0 <= k < |cups| ==> Values(cups)[k] == cups[k].Value()
    decreases |cups|
  {
    if cups != [] {
      var front := cups[..|cups| - 1];
      ValuesAt(front);
      assert forall k :: 0 <= k < |front| ==> front[k] == cups[k];
    }
  }

  /** No cup object occurs twice in the list. */
  predicate Distinct(cups: seq<BeerPongCup>) {
    forall j, k :: 0 <= j < k < |cups| ==> cups[j] != cups[k]
  }

  lemma DistinctJoin(a: seq<BeerPongCup>, b: seq<BeerPongCup>)
    requires Distinct(a) && Distinct(b)
    requires forall c :: c in b ==> c !in a
    ensures Distinct(a + b)
  {
    forall j, k | 0 <= j < k < |a + b|
      ensures (a + b)[j] != (a + b)[k]
    {
      if j < |a| <= k {
        assert (a + b)[k] == b[k - |a|] && (a + b)[j] == a[j];
        assert b[k - |a|] in b;
      }
    }
  }

  // ---------------------------------------------------------------------
  // The configuration object
  // ---------------------------------------------------------------------

  class BeerPongConfig {
    var title: string
    var cups: seq<BeerPongCup>
    var warning: Warning

    constructor (title: string)
      ensures this.title == title && cups == []
    {
      this.title := title;
      cups := [];
    }

    /** `self.cups.extend(more)` */
    method Extend(more: seq<BeerPongCup>)
      modifies this`cups
      ensures cups == old(cups) + more
    {
      cups := cups + more;
    }

    /** The closing length check, recorded instead of printed. */
    method Warn()
      modifies this`warning
      ensures warning == WarningFor(|cups|)
    {
      if |cups| == 0 {
        warning := NoCups;
      } else if |cups| > 10 {
        warning := MoreThanTen;
      } else {
        warning := NoWarning;
      }
    }

    /** `_init_indices` */
    static method InitIndices(indices: seq<int>) returns (r: Result<seq<BeerPongCup>, Error>)
      ensures r.Failure? ==> Collect(indices, IndexCup) == Failure(r.error)
      ensures r.Success? ==> Collect(indices, IndexCup) == Success(Values(r.value))
      ensures r.Success? ==> Distinct(r.value) && forall c :: c in r.value ==> fresh(c)
    {
      var made: seq<BeerPongCup> := [];
      for i := 0 to |indices|
        invariant |made| == i && forall k :: 0 <= k < i ==> IndexCup(indices[k]) == Success(made[k].Value())
        invariant Distinct(made) && forall c :: c in made ==> fresh(c)
      {
        var cup := BeerPongCup.New(indices[i], Sentinel);
        if cup.Failure? {
          CollectFailsAt(indices, IndexCup, i);
          return Failure(cup.error);
        }
        DistinctJoin(made, [cup.value]);
        made := made + [cup.value];
      }
      ValuesAt(made);
      CollectFrom(indices, IndexCup, Values(made));
      return Success(made);
    }

    /** `_init_positions` */
    static method InitPositions(positions: seq<Pair>) returns (r: Result<seq<BeerPongCup>, Error>)
      ensures r.Failure? ==> Collect(positions, PositionCup) == Failure(r.error)
      ensures r.Success? ==> Collect(positions, PositionCup) == Success(Values(r.value))
      ensures r.Success? ==> Distinct(r.value) && forall c :: c in r.value ==> fresh(c)
    {
      var made: seq<BeerPongCup> := [];
      for i := 0 to |positions|
        invariant |made| == i && forall k :: 0 <= k < i ==> PositionCup(positions[k]) == Success(made[k].Value())
        invariant Distinct(made) && forall c :: c in made ==> fresh(c)
      {
        var cup := BeerPongCup.New(-1, positions[i]);
        if cup.Failure? {
          CollectFailsAt(positions, PositionCup, i);
          return Failure(cup.error);
        }
        DistinctJoin(made, [cup.value]);
        made := made + [cup.value];
      }
      ValuesAt(made);
      CollectFrom(positions, PositionCup, Values(made));
      return Success(made);
    }

    /** `_init_phantoms`: the type of the first element picks one of two loops. */
    static method InitPhantoms(phantoms: seq<PhantomEntry>) returns (r: Result<seq<BeerPongCup>, Error>)
      ensures r.Failure? ==> PhantomCups(phantoms) == Failure(r.error)
      ensures r.Success? ==> PhantomCups(phantoms) == Success(Values(r.value))
      ensures r.Success? ==> Distinct(r.value) && forall c :: c in r.value ==> fresh(c)
    {
      if |phantoms| == 0 {
        return Failure(IndexError);
      }
      match phantoms[0]
      case IndexEntry(_) =>
        r := PhantomIndices(phantoms);
      case PairEntry(_) =>
        r := PhantomPositions(phantoms);
      case OtherEntry =>
        r := Failure(ValueError(NotIndicesOrPositions));
    }

    /** `cup = BeerPongCup(index, position); cup.phantom = True` */
    static method NewPhantom(index: int, position: Pair) returns (r: Result<BeerPongCup, Error>)
      ensures r.Failure? ==> MakeCup(index, position, true) == Failure(r.error)
      ensures r.Success? ==> fresh(r.value) && MakeCup(index, position, true) == Success(r.value.Value())
    {
      r := BeerPongCup.New(index, position);
      if r.Success? {
        r.value.phantom := true;
      }
    }

    /** The loop of `_init_phantoms` over a list taken to hold indices. */
    static method PhantomIndices(phantoms: seq<PhantomEntry>) returns (r: Result<seq<BeerPongCup>, Error>)
      ensures r.Failure? ==> Collect(phantoms, PhantomIndexCup) == Failure(r.error)
      ensures r.Success? ==> Collect(phantoms, PhantomIndexCup) == Success(Values(r.value))
      ensures r.Success? ==> Distinct(r.value) && forall c :: c in r.value ==> fresh(c)
    {
      var made: seq<BeerPongCup> := [];
      for i := 0 to |phantoms|
        invariant |made| == i && forall k :: 0 <= k < i ==> PhantomIndexCup(phantoms[k]) == Success(made[k].Value())
        invariant Distinct(made) && forall c :: c in made ==> fresh(c)
      {
        if !phantoms[i].IndexEntry? {
          CollectFailsAt(phantoms, PhantomIndexCup, i);
          return Failure(KeyError);
        }
        var cup := NewPhantom(phantoms[i].index, Sentinel);
        if cup.Failure? {
          CollectFailsAt(phantoms, PhantomIndexCup, i);
          return Failure(cup.error);
        }
        DistinctJoin(made, [cup.value]);
        made := made + [cup.value];
      }
      ValuesAt(made);
      CollectFrom(phantoms, PhantomIndexCup, Values(made));
      return Success(made);
    }

    /** The loop of `_init_phantoms` over a list taken to hold (x, y) tuples. */
    static method PhantomPositions(phantoms: seq<PhantomEntry>) returns (r: Result<seq<BeerPongCup>, Error>)
      ensures r.Failure? ==> Collect(phantoms, PhantomPairCup) == Failure(r.error)
      ensures r.Success? ==> Collect(phantoms, PhantomPairCup) == Success(Values(r.value))
      ensures r.Success? ==> Distinct(r.value) && forall c :: c in r.value ==> fresh(c)
    {
      var made: seq<BeerPongCup> := [];
      for i := 0 to |phantoms|
        invariant |made| == i && forall k :: 0 <= k < i ==> PhantomPairCup(phantoms[k]) == Success(made[k].Value())
        invariant Distinct(made) && forall c :: c in made ==> fresh(c)
      {
        if !phantoms[i].PairEntry? {
          CollectFailsAt(phantoms, PhantomPairCup, i);
          return Failure(TypeError);
        }
        var cup := NewPhantom(-1, phantoms[i].pair);
        if cup.Failure? {
          CollectFailsAt(phantoms, PhantomPairCup, i);
          return Failure(cup.error);
        }
        DistinctJoin(made, [cup.value]);
        made := made + [cup.value];
      }
      ValuesAt(made);
      CollectFrom(phantoms, PhantomPairCup, Values(made));
      return Success(made);
    }

    /** `_complete_table`: the ten cups of the full table, which cannot raise. */
    static method CompleteTable() returns (made: seq<BeerPongCup>)
      ensures FullTable() == Success(Values(made))
      ensures Distinct(made) && forall c :: c in made ==> fresh(c)
    {
      made := [];
      for i := 1 to 11
        invariant |made| == i - 1
        invariant forall k :: 0 <= k < |made| ==> IndexCup(k + 1) == Success(made[k].Value())
        invariant Distinct(made) && forall c :: c in made ==> fresh(c)
      {
        var cup := BeerPongCup.New(i, Sentinel);
        if cup.Failure? {
          assert false;
        }
        DistinctJoin(made, [cup.value]);
        made := made + [cup.value];
      }
      ValuesAt(made);
      FullTableFrom(Values(made));
    }

    /** `self.cups.extend(self._init_indices(indices))` */
    method AddIndices(indices: seq<int>) returns (failure: Option<Error>)
      requires Distinct(cups)
      modifies this`cups
      ensures match IndexPart(Some(indices))
              case Failure(e) => failure == Some(e) && cups == old(cups)
              case Success(part) => failure == None && Values(cups) == old(Values(cups)) + part
      ensures Distinct(cups) && |old(cups)| <= |cups| && cups[..|old(cups)|] == old(cups)
      ensures forall c :: c in cups ==> c in old(cups) || fresh(c)
    {
      var made := InitIndices(indices);
      if made.Failure? {
        return Some(made.error);
      }
      ValuesConcat(cups, made.value);
      DistinctJoin(cups, made.value);
      Extend(made.value);
      return None;
    }

    /** `self.cups.extend(self._init_positions(positions))` */
    method AddPositions(positions: seq<Pair>) returns (failure: Option<Error>)
      requires Distinct(cups)
      modifies this`cups
      ensures match PositionPart(Some(positions))
              case Failure(e) => failure == Some(e) && cups == old(cups)
              case Success(part) => failure == None && Values(cups) == old(Values(cups)) + part
      ensures Distinct(cups) && |old(cups)| <= |cups| && cups[..|old(cups)|] == old(cups)
      ensures forall c :: c in cups ==> c in old(cups) || fresh(c)
    {
      var made := InitPositions(positions);
      if made.Failure? {
        return Some(made.error);
      }
      ValuesConcat(cups, made.value);
      DistinctJoin(cups, made.value);
      Extend(made.value);
      return None;
    }

    /** `self.cups.extend(self._init_phantoms(phantoms))` */
    method AddPhantoms(phantoms: seq<PhantomEntry>) returns (failure: Option<Error>)
      requires Distinct(cups)
      modifies this`cups
      ensures match PhantomPart(Some(phantoms))
              case Failure(e) => failure == Some(e) && cups == old(cups)
              case Success(part) => failure == None && Values(cups) == old(Values(cups)) + part
      ensures Distinct(cups) && |old(cups)| <= |cups| && cups[..|old(cups)|] == old(cups)
      ensures forall c :: c in cups ==> c in old(cups) || fresh(c)
    {
      var made := InitPhantoms(phantoms);
      if made.Failure? {
        return Some(made.error);
      }
      ValuesConcat(cups, made.value);
      DistinctJoin(cups, made.value);
      Extend(made.value);
      return None;
    }

    /** `self.cups.extend(self._complete_table())` */
    method AddFullTable()
      requires Distinct(cups)
      modifies this`cups
      ensures FullTable().Success? && Values(cups) == old(Values(cups)) + FullTable().value
      ensures Distinct(cups) && |old(cups)| <= |cups| && cups[..|old(cups)|] == old(cups)
      ensures forall c :: c in cups ==> c in old(cups) || fresh(c)
    {
      var made := CompleteTable();
      ValuesConcat(cups, made);
      DistinctJoin(cups, made);
      Extend(made);
    }

    /**
     * The three optional builders of `__init__`, in order, when at least one
     * list is given; the first exception wins.
     */
    method AddParts(indices: Option<seq<int>>, positions: Option<seq<Pair>>, phantoms: Option<seq<PhantomEntry>>)
      returns (failure: Option<Error>)
      requires indices.Some? || positions.Some? || phantoms.Some?
      requires cups == []
      modifies this`cups
      ensures failure.Some? ==> Assemble(indices, positions, phantoms) == Failure(failure.value)
      ensures failure.None? ==> Assemble(indices, positions, phantoms) == Success(Values(cups))
      ensures failure.None? ==> Distinct(cups) && forall c :: c in cups ==> fresh(c)
    {
      ghost var partA: seq<CupValue> := [];
      if indices.Some? {
        ghost var before := cups;
        failure := AddIndices(indices.value);
        if failure.None? {
          forall c | c in cups
            ensures c in before || fresh(c)
          {
          }
        }
        if failure.Some? {
          return;
        }
        partA := IndexPart(indices).value;
      }
      assert IndexPart(indices) == Success(partA) && Values(cups) == partA;
      ghost var partB: seq<CupValue> := [];
      if positions.Some? {
        ghost var before := cups;
        failure := AddPositions(positions.value);
        if failure.None? {
          forall c | c in cups
            ensures c in before || fresh(c)
          {
          }
        }
        if failure.Some? {
          return;
        }
        partB := PositionPart(positions).value;
      }
      assert PositionPart(positions) == Success(partB) && Values(cups) == partA + partB;
      ghost var partC: seq<CupValue> := [];
      if phantoms.Some? {
        ghost var before := cups;
        failure := AddPhantoms(phantoms.value);
        if failure.None? {
          forall c | c in cups
            ensures c in before || fresh(c)
          {
          }
        }
        if failure.Some? {
          return;
        }
        partC := PhantomPart(phantoms).value;
      }
      assert PhantomPart(phantoms) == Success(partC) && Values(cups) == partA + partB + partC;
      failure := None;
    }

    /** The body of `__init__` that fills `self.cups`, including the raising paths. */
    method Fill(indices: Option<seq<int>>, positions: Option<seq<Pair>>, phantoms: Option<seq<PhantomEntry>>)
      returns (failure: Option<Error>)
      requires cups == []
      modifies this`cups
      ensures failure.Some? ==> Assemble(indices, positions, phantoms) == Failure(failure.value)
      ensures failure.None? ==> Assemble(indices, positions, phantoms) == Success(Values(cups))
      ensures failure.None? ==> Distinct(cups) && forall c :: c in cups ==> fresh(c)
    {
      if indices.Some? || positions.Some? || phantoms.Some? {
        failure := AddParts(indices, positions, phantoms);
      } else {
        assert Values(cups) == [];
        AddFullTable();
        assert [] + FullTable().value == FullTable().value;
        failure := None;
      }
    }

    /** `BeerPongConfig(title, indices, positions, phantoms)`, including the raising paths. */
    static method New(title: string, indices: Option<seq<int>>, positions: Option<seq<Pair>>,
                      phantoms: Option<seq<PhantomEntry>>)
      returns (r: Result<BeerPongConfig, Error>)
      ensures r.Failure? ==> Assemble(indices, positions, phantoms) == Failure(r.error)
      ensures r.Success? ==>
                fresh(r.value) && r.value.title == title &&
                Assemble(indices, positions, phantoms) == Success(Values(r.value.cups)) &&
                r.value.warning == WarningFor(|r.value.cups|)
      ensures r.Success? ==>
                Distinct(r.value.cups) && forall c :: c in r.value.cups ==> fresh(c)
    {
      var config := new BeerPongConfig(title);
      var failure := config.Fill(indices, positions, phantoms);
      if failure.Some? {
        return Failure(failure.value);
      }
      ghost var final := Values(config.cups);
      config.Warn();
      assert Values(config.cups) == final;
      return Success(config);
    }
  }

  /** Ten cups, the k-th built from index k + 1, are the full table. */
  lemma FullTableFrom(vs: seq<CupValue>)
    requires |vs| == 10
    requires forall k :: 0 <= k < 10 ==> IndexCup(k + 1) == Success(vs[k])
    ensures FullTable() == Success(vs)
  {
    var all := AllIndices();
    assert forall k :: 0 <= k < |all| ==> all[k] == k + 1;
    CollectFrom(all, IndexCup, vs);
  }

  /** Cups built one per element, in order, are what Collect builds. */
  lemma CollectFrom<T>(xs: seq<T>, make: T -> Result<CupValue, Error>, vs: seq<CupValue>)
    requires |vs| == |xs|
    requires forall k :: 0 <= k < |xs| ==> make(xs[k]) == Success(vs[k])
    ensures Collect(xs, make) == Success(vs)
  {
    CollectMeaning(xs, make);
    assert Collect(xs, make).value == vs;
  }

  /** When every element before i builds and element i raises, Collect raises that. */
  lemma CollectFailsAt<T>(xs: seq<T>, make: T -> Result<CupValue, Error>, i: nat)
    requires i < |xs|
    requires forall k :: 0 <= k < i ==> make(xs[k]).Success?
    requires make(xs[i]).Failure?
    ensures Collect(xs, make) == Failure(make(xs[i]).error)
  {
    CollectMeaning(xs[..i], make);
    CollectStopsAt(xs, make, i);
  }

  /** When building stops at element i, the specification fails with that element's error. */
  lemma CollectStopsAt<T>(xs: seq<T>, make: T -> Result<CupValue, Error>, i: nat)
    requires i < |xs|
    requires Collect(xs[..i], make).Success?
    requires make(xs[i]).Failure?
    ensures Collect(xs, make) == Failure(make(xs[i]).error)
    decreases |xs|
  {
    var front := xs[..|xs| - 1];
    if i < |xs| - 1 {
      assert front[..i] == xs[..i];
      CollectStopsAt(front, make, i);
    } else {
      assert front == xs[..i];
    }
  }
}
