/**
 * Enumerable instances and the per-class array that maps indices to them.
 * The array keeps PHP's semantics: keys in insertion order, and assigning to a key that is
 * already present replaces its value in place.
 */
module Values {
  import opened Wrappers
  import opened Declarations

  /**
   * One enumerable instance. `cls` is the class `new static()` instantiated and `index` is set
   * right after construction and never again. The constructor is protected and there is no
   * clone, sleep or wakeup operation, so the only instances are those createEnum makes.
   */
  class Enumerable {
    const cls: string
    const index: Index

    constructor (cls: string, index: Index)
      ensures this.cls == cls && this.index == index
    {
      this.cls := cls;
      this.index := index;
    }

    /** getIndex() */
    function GetIndex(): Index
    {
      index
    }
  }

  /** The array of one enumerable class: the keys in insertion order, and the value under each key. */
  datatype Values = Values(order: seq<Index>, at: map<Index, Enumerable>)

  /** Every key appears once in the order, the order lists exactly the keys, and every value carries its key. */
  ghost predicate WellFormed(v: Values)
  {
    && (forall i, j :: 0 <= i < j < |v.order| ==> v.order[i] != v.order[j])
    && (forall k :: k in v.at <==> k in v.order)
    && (forall k :: k in v.at ==> v.at[k].index == k)
  }

  function Empty(): (v: Values)
    ensures WellFormed(v) && v.at == map[]
  {
    Values([], map[])
  }

  /** `$values[$k] = $o`: a present key keeps its position, a new key goes last. */
  function Put(v: Values, k: Index, o: Enumerable): (r: Values)
    ensures WellFormed(v) && o.index == k ==> WellFormed(r)
    ensures r.at == v.at[k := o]
    ensures k in v.at ==> r.order == v.order
    ensures k !in v.at ==> r.order == v.order + [k]
  {
    Values(if k in v.at then v.order else v.order + [k], v.at[k := o])
  }

  /** The array initialisation builds: each minted instance stored under its own index, in mint order. */
  function Store(minted: seq<Enumerable>): (r: Values)
    ensures WellFormed(r)
    decreases |minted|
  {
    if minted == [] then Empty()
    else
      var o := minted[|minted| - 1];
      Put(Store(minted[..|minted| - 1]), o.index, o)
  }

  /** getValue apart from its call into getValues: the stored instance, or OutOfBoundsException naming class and index. */
  function Lookup(cls: string, v: Values, k: Index): (r: Result<Enumerable, Error>)
    ensures r.Ok? <==> k in v.at
    ensures r.Ok? ==> r.value == v.at[k] && (WellFormed(v) ==> r.value.GetIndex() == k)
    ensures r.Err? ==> r.error == OutOfBoundsException(cls, k)
  {
    if k in v.at then Ok(v.at[k]) else Err(OutOfBoundsException(cls, k))
  }

  /** Looking an instance up by its own index gives back that very instance. */
  lemma LookupRoundTrip(cls: string, v: Values, o: Enumerable)
    requires WellFormed(v) && o in v.at.Values
    ensures Lookup(cls, v, o.GetIndex()) == Ok(o)
  {
    var k :| k in v.at && v.at[k] == o;
  }

  /** The keys of the array are exactly the indices of the minted instances. */
  lemma {:induction false} StoreKeys(minted: seq<Enumerable>)
    ensures Store(minted).at.Keys == set i | 0 <= i < |minted| :: minted[i].index
    decreases |minted|
  {
    if minted != [] {
      var front, o := minted[..|minted| - 1], minted[|minted| - 1];
      StoreKeys(front);
      assert (set i | 0 <= i < |minted| :: minted[i].index) == (set i | 0 <= i < |front| :: front[i].index) + {o.index};
    }
  }

  /** Every value of the array is one of the minted instances. */
  lemma {:induction false} StoreValues(minted: seq<Enumerable>)
    ensures Store(minted).at.Values <= set i | 0 <= i < |minted| :: minted[i]
    decreases |minted|
  {
    if minted != [] {
      var front, o := minted[..|minted| - 1], minted[|minted| - 1];
      StoreValues(front);
      assert (set i | 0 <= i < |minted| :: minted[i]) == (set i | 0 <= i < |front| :: front[i]) + {o};
    }
  }

  /** Instances minted of one class fill an array of that class only. */
  lemma {:induction false} StoreClass(minted: seq<Enumerable>, cls: string)
    requires forall i :: 0 <= i < |minted| ==> minted[i].cls == cls
    ensures forall k :: k in Store(minted).at ==> Store(minted).at[k].cls == cls
    decreases |minted|
  {
    if minted != [] {
      StoreClass(minted[..|minted| - 1], cls);
    }
  }

  /** When two minted instances share an index, the later one is what the array keeps. */
  lemma {:induction false} StoreLastWins(minted: seq<Enumerable>, j: nat)
    requires j < |minted|
    requires forall i :: j < i < |minted| ==> minted[i].index != minted[j].index
    ensures minted[j].index in Store(minted).at && Store(minted).at[minted[j].index] == minted[j]
    decreases |minted|
  {
    if j < |minted| - 1 {
      StoreLastWins(minted[..|minted| - 1], j);
    }
  }

  /** Minted instances with pairwise distinct indices are stored one key each, in mint order. */
  lemma {:induction false} StoreDistinct(minted: seq<Enumerable>)
    requires forall i, j :: 0 <= i < j < |minted| ==> minted[i].index != minted[j].index
    ensures |Store(minted).order| == |minted|
    ensures forall i :: 0 <= i < |minted| ==> Store(minted).order[i] == minted[i].index
    decreases |minted|
  {
    if minted != [] {
      var front, o := minted[..|minted| - 1], minted[|minted| - 1];
      StoreDistinct(front);
      var sf := Store(front);
      forall i | 0 <= i < |sf.order|
        ensures sf.order[i] != o.index
      {
        assert sf.order[i] == minted[i].index;
      }
      assert o.index !in sf.at;
      assert Store(minted).order == sf.order + [o.index];
    }
  }

  /** Minted instances with pairwise distinct indices can each be found under their own index. */
  lemma StoreDistinctLookup(minted: seq<Enumerable>)
    requires forall i, j :: 0 <= i < j < |minted| ==> minted[i].index != minted[j].index
    ensures forall i :: 0 <= i < |minted| ==> minted[i].index in Store(minted).at && Store(minted).at[minted[i].index] == minted[i]
  {
    forall i | 0 <= i < |minted|
      ensures minted[i].index in Store(minted).at && Store(minted).at[minted[i].index] == minted[i]
    {
      StoreLastWins(minted, i);
    }
  }

  /** A key already stored stays where it is: storing more instances never moves it. */
  lemma {:induction false} StorePrefixOrder(minted: seq<Enumerable>, n: nat)
    requires n <= |minted|
    ensures |Store(minted[..n]).order| <= |Store(minted).order|
    ensures Store(minted).order[..|Store(minted[..n]).order|] == Store(minted[..n]).order
    decreases |minted| - n
  {
    if n == |minted| {
      assert minted[..n] == minted;
    } else {
      var front := minted[..|minted| - 1];
      assert front[..n] == minted[..n];
      StorePrefixOrder(front, n);
      StoreStepOrder(minted);
      PrefixOfPrefix(Store(minted[..n]).order, Store(front).order, Store(minted).order);
    }
  }

  /** Storing one more instance keeps the keys already in the order where they are. */
  lemma StoreStepOrder(minted: seq<Enumerable>)
    requires minted != []
    ensures |Store(minted[..|minted| - 1]).order| <= |Store(minted).order|
    ensures Store(minted).order[..|Store(minted[..|minted| - 1]).order|] == Store(minted[..|minted| - 1]).order
  {
    var o := minted[|minted| - 1];
    assert Store(minted) == Put(Store(minted[..|minted| - 1]), o.index, o);
  }

  /** A prefix of a prefix is a prefix. */
  lemma PrefixOfPrefix<T>(a: seq<T>, b: seq<T>, c: seq<T>)
    requires |a| <= |b| && b[..|a|] == a
    requires |b| <= |c| && c[..|b|] == b
    ensures |a| <= |c| && c[..|a|] == a
  {
    assert c[..|a|] == c[..|b|][..|a|];
  }
}
