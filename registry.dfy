/**
 * The static state of Enumerable and the operations over it: the cache of initialised classes,
 * the global initialisation flag, getValues, getValue, createEnum and initializeEnum with its
 * loop over the factories, and reflection's invoke of one factory.
 */
module Enumerables {
  import opened Wrappers
  import opened Declarations
  import opened Values

  /** What a static method call hands back. */
  datatype Returned = Instance(value: Enumerable) | NotEnumerable

  /** The loaded classes: each under its own name, and every class a createEnum body names is loaded. */
  ghost predicate Loaded(classes: map<string, ClassDesc>)
  {
    forall n :: n in classes ==>
      && classes[n].name == n
      && forall m :: m in classes[n].methods && m.body.CreateEnum? ==> m.body.owner in classes
  }

  /** The cache only holds loaded classes, and each cached array is well formed. */
  ghost predicate Consistent(classes: map<string, ClassDesc>, enums: map<string, Values>)
  {
    && Loaded(classes)
    && enums.Keys <= classes.Keys
    && forall n :: n in enums ==> WellFormed(enums[n])
  }

  /** Storing a well-formed array for a loaded class keeps the cache consistent. */
  lemma StoreConsistent(classes: map<string, ClassDesc>, enums: map<string, Values>, name: string, v: Values)
    requires Consistent(classes, enums) && name in classes && WellFormed(v)
    ensures Consistent(classes, enums[name := v])
  {
  }

  /** The objects minted by a pass are, one by one, the instances its plan produces. */
  ghost predicate Mints(minted: seq<Enumerable>, produced: seq<Produced>)
  {
    && |minted| == |produced|
    && forall i :: 0 <= i < |produced| ==> minted[i].cls == produced[i].owner && minted[i].index == produced[i].index
  }

  /** The objects minted by a pass are pairwise different objects. */
  ghost predicate Distinct(minted: seq<Enumerable>)
  {
    forall i, j :: 0 <= i < j < |minted| ==> minted[i] != minted[j]
  }

  /** Either a thrown error, or an instance wrapped as what a factory call returns. */
  function AsReturned(r: Result<Enumerable, Error>): Result<Returned, Error>
  {
    match r
    case Ok(o) => Ok(Instance(o))
    case Err(e) => Err(e)
  }

  class Registry {
    /** The loaded enumerable classes, by name. */
    const classes: map<string, ClassDesc>
    /** `self::$enums`: class name to the array of its instances. */
    var enums: map<string, Values>
    /** `self::$initializationState`: one flag for all classes. */
    var initializationState: bool

    ghost predicate Valid()
      reads this
    {
      Consistent(classes, enums)
    }

    constructor (classes: map<string, ClassDesc>)
      requires Loaded(classes)
      ensures Valid() && this.classes == classes
      ensures enums == map[] && !initializationState
    {
      this.classes := classes;
      enums := map[];
      initializationState := false;
    }

    /** How initializeEnum(name) changes the cache, given the objects it minted. */
    ghost predicate Initialized(before: map<string, Values>, after: map<string, Values>, name: string, minted: seq<Enumerable>)
      requires name in classes
    {
      match Plan(classes[name])
      case Rejected(_) => after == before && minted == []
      case Runs(p, _) => Mints(minted, p) && after == before[name := Store(minted)]
    }

    /** How getValues(name) changes the cache: not at all when the class is cached, else by initialisation. */
    ghost predicate Fetched(before: map<string, Values>, after: map<string, Values>, name: string, minted: seq<Enumerable>)
      requires name in classes
    {
      if name in before then after == before && minted == [] else Initialized(before, after, name, minted)
    }

    /** What getValues(name) returns or raises. */
    ghost function Fetch(before: map<string, Values>, name: string, minted: seq<Enumerable>): Result<Values, Error>
      requires name in classes
    {
      if name in before then Ok(before[name])
      else match InitError(classes[name])
        case Some(e) => Err(e)
        case None => Ok(Store(minted))
    }

    /** What getValue(name, k) returns or raises. */
    ghost function FetchValue(before: map<string, Values>, name: string, minted: seq<Enumerable>, k: Index): Result<Enumerable, Error>
      requires name in classes
    {
      match Fetch(before, name, minted)
      case Err(e) => Err(e)
      case Ok(v) => Lookup(name, v, k)
    }

    /** isEnumNotInitialized */
    function IsEnumNotInitialized(name: string): (r: bool)
      reads this
    {
      name !in enums
    }

    /** getValue: the cached instance under `k`, initialising the class first if need be. */
    method GetValue(name: string, k: Index) returns (ghost minted: seq<Enumerable>, r: Result<Enumerable, Error>)
      requires Valid() && name in classes
      modifies this
      ensures Valid()
      ensures Fetched(old(enums), enums, name, minted) && r == FetchValue(old(enums), name, minted, k)
      ensures initializationState == (if name in old(enums) then old(initializationState) else false)
      ensures forall o :: o in minted ==> fresh(o)
      ensures Distinct(minted)
      decreases |classes.Keys - enums.Keys|, 3
    {
      var values;
      minted, values := GetValues(name);
      match values
      case Err(e) =>
        r := Err(e);
      case Ok(v) =>
        r := Lookup(name, v, k);
    }

    /** getValues: the cached array of the class, initialising it on first use. */
    method GetValues(name: string) returns (ghost minted: seq<Enumerable>, r: Result<Values, Error>)
      requires Valid() && name in classes
      modifies this
      ensures Valid()
      ensures Fetched(old(enums), enums, name, minted) && r == Fetch(old(enums), name, minted)
      ensures initializationState == (if name in old(enums) then old(initializationState) else false)
      ensures IsEnumNotInitialized(name) <==> old(IsEnumNotInitialized(name)) && Plan(classes[name]).Rejected?
      ensures forall o :: o in minted ==> fresh(o)
      ensures Distinct(minted)
      decreases |classes.Keys - enums.Keys|, 2
    {
      minted := [];
      if IsEnumNotInitialized(name) {
        var err;
        minted, err := InitializeEnum(name);
        if err.Some? {
          r := Err(err.value);
          return;
        }
      }
      r := Ok(enums[name]);
    }

    /**
     * createEnum: while the flag is set, a new instance of `owner` with index `k`;
     * otherwise whatever getValue(k) gives for `owner`.
     */
    method CreateEnum(owner: string, k: Index) returns (ghost minted: seq<Enumerable>, r: Result<Enumerable, Error>)
      requires Valid() && owner in classes
      modifies this
      ensures Valid()
      ensures old(initializationState) ==>
        && enums == old(enums) && initializationState && minted == []
        && r.Ok? && fresh(r.value) && r.value.cls == owner && r.value.GetIndex() == k
      ensures !old(initializationState) ==>
        && Fetched(old(enums), enums, owner, minted) && r == FetchValue(old(enums), owner, minted, k)
        && !initializationState
      ensures forall o :: o in minted ==> fresh(o)
      ensures Distinct(minted)
      decreases |classes.Keys - enums.Keys|, if initializationState then 0 else 4
    {
      if initializationState {
        var o := new Enumerable(owner, k);
        minted, r := [], Ok(o);
      } else {
        minted, r := GetValue(owner, k);
      }
    }

    /**
     * Reflection's invoke of a static factory during initialisation, while the flag is set: a
     * createEnum body yields a new instance, a throwing body raises, any other body returns
     * something that is not an Enumerable. The cache and the flag are left as they were.
     */
    method Invoke(m: Method) returns (r: Result<Returned, Error>)
      requires Valid() && initializationState && (m.body.CreateEnum? ==> m.body.owner in classes)
      modifies this
      ensures enums == old(enums) && initializationState
      ensures m.body.Throw? ==> r == Err(Thrown(m.body.exception))
      ensures m.body.ReturnOther? ==> r == Ok(NotEnumerable)
      ensures m.body.CreateEnum? ==>
        && r.Ok? && r.value.Instance? && fresh(r.value.value)
        && r.value.value.cls == m.body.owner && r.value.value.GetIndex() == m.body.index
      decreases |classes.Keys - enums.Keys|, 5
    {
      match m.body
      case CreateEnum(owner, k) =>
        ghost var minted;
        var created;
        minted, created := CreateEnum(owner, k);
        r := AsReturned(created);
      case Throw(e) =>
        r := Err(Thrown(e));
      case ReturnOther =>
        r := Ok(NotEnumerable);
    }

    /**
     * initializeEnum: set the flag, reject a class that is not final or is Serializable, then
     * create the cache entry and invoke the factories; the flag is cleared on every exit.
     */
    method InitializeEnum(name: string) returns (ghost minted: seq<Enumerable>, err: Option<Error>)
      requires Valid() && name in classes && name !in enums
      modifies this
      ensures Valid() && !initializationState
      ensures Initialized(old(enums), enums, name, minted) && err == InitError(classes[name])
      ensures forall o :: o in minted ==> fresh(o)
      ensures Distinct(minted)
      decreases |classes.Keys - enums.Keys|, 1
    {
      initializationState := true;
      var c := classes[name];
      minted := [];
      if !c.isFinal {
        err := Some(DomainException(name, NotFinal));
      } else if c.isSerializable {
        err := Some(DomainException(name, ImplementsSerializable));
      } else {
        ghost var before := enums;
        enums := enums[name := Empty()];
        Shrinks(classes.Keys, before.Keys, name);
        minted, err := InvokeFactories(name, before);
        PlanOfRun(c, Run(c.methods).produced, err);
        StoreConsistent(classes, before, name, Store(minted));
      }
      initializationState := false;
    }

    /**
     * initializeEnum's foreach over the static methods of the class, whose cache entry has just
     * been created empty: invoke every factory in reflection order and store what it returns under
     * its own index, stopping at the first factory that fails. `before` is the cache as it was
     * before the entry was created.
     */
    method InvokeFactories(name: string, ghost before: map<string, Values>) returns (ghost minted: seq<Enumerable>, err: Option<Error>)
      requires initializationState && Consistent(classes, before) && name in classes && name !in before
      requires enums == before[name := Empty()]
      modifies this
      ensures initializationState && enums == before[name := Store(minted)]
      ensures Mints(minted, Run(classes[name].methods).produced) && err == Run(classes[name].methods).failure
      ensures forall o :: o in minted ==> fresh(o)
      ensures Distinct(minted)
      decreases |classes.Keys - enums.Keys|, 8
    {
      var c := classes[name];
      minted := [];
      var i := 0;
      ghost var produced: seq<Produced> := [];
      assert c.methods[..i] == [] && Store(minted) == Empty();
      while i < |c.methods|
        invariant 0 <= i <= |c.methods|
        invariant initializationState
        invariant Run(c.methods[..i]) == Scan(produced, None) && Mints(minted, produced)
        invariant enums == before[name := Store(minted)]
        invariant forall o :: o in minted ==> fresh(o)
        invariant Distinct(minted)
      {
        var failure;
        minted, produced, failure := InvokeFactory(name, before, i, minted, produced);
        if failure.Some? {
          err := failure;
          RunStopsAtFailure(c.methods, i + 1);
          return;
        }
        i := i + 1;
      }
      assert c.methods[..i] == c.methods;
      err := None;
    }

    /**
     * One iteration of initializeEnum's foreach, over the method at position `i`: a service
     * method is skipped, a factory is called. `before` is the cache as it was before
     * initialisation began.
     */
    method InvokeFactory(name: string, ghost before: map<string, Values>, i: nat, ghost minted: seq<Enumerable>, ghost produced: seq<Produced>)
      returns (ghost minted': seq<Enumerable>, ghost produced': seq<Produced>, failure: Option<Error>)
      requires initializationState && Consistent(classes, before) && name in classes && name !in before
      requires i < |classes[name].methods| && Run(classes[name].methods[..i]) == Scan(produced, None)
      requires enums == before[name := Store(minted)] && Mints(minted, produced)
      modifies this
      ensures initializationState && enums == before[name := Store(minted')]
      ensures Run(classes[name].methods[..i + 1]) == Scan(produced', failure)
      ensures Mints(minted', produced')
      ensures forall o :: o in minted' ==> o in minted || fresh(o)
      ensures |minted| <= |minted'| && minted'[..|minted|] == minted
      ensures failure.Some? ==> minted' == minted
      ensures Distinct(minted) ==> Distinct(minted')
      decreases |classes.Keys - enums.Keys|, 7
    {
      var m := classes[name].methods[i];
      RunExtend(classes[name].methods, i, produced);
      if IsServiceMethod(m) {
        minted', produced', failure := minted, produced, None;
      } else {
        minted', produced', failure := CallFactory(name, before, m, minted, produced);
      }
    }

    /**
     * A factory called by initialisation: invoke it, then store the instance it returns in the
     * cache entry under that instance's own index; a factory that throws, or that returns something
     * without getIndex(), stops initialisation with that error.
     */
    method CallFactory(name: string, ghost before: map<string, Values>, m: Method, ghost minted: seq<Enumerable>, ghost produced: seq<Produced>)
      returns (ghost minted': seq<Enumerable>, ghost produced': seq<Produced>, failure: Option<Error>)
      requires initializationState && Consistent(classes, before) && name in classes && name !in before
      requires m in classes[name].methods && !IsServiceMethod(m)
      requires enums == before[name := Store(minted)] && Mints(minted, produced)
      modifies this
      ensures initializationState && enums == before[name := Store(minted')]
      ensures Step(produced, m) == Scan(produced', failure) && Mints(minted', produced')
      ensures forall o :: o in minted' ==> o in minted || fresh(o)
      ensures |minted| <= |minted'| && minted'[..|minted|] == minted
      ensures failure.Some? ==> minted' == minted
      ensures Distinct(minted) ==> Distinct(minted')
      decreases |classes.Keys - enums.Keys|, 6
    {
      StoreConsistent(classes, before, name, Store(minted));
      minted', produced', failure := minted, produced, None;
      var returned := Invoke(m);
      if returned.Err? || returned.value.NotEnumerable? {
        failure := Some(if returned.Err? then returned.error else NoGetIndex(m.name));
      } else {
        var o := returned.value.value;
        assert o !in minted;
        minted', produced' := Record(name, before, minted, produced, o, Produced(m.body.owner, m.body.index));
      }
    }

    /** Store a new instance, minted as `p`, under its own index, and account for it in the pass. */
    method Record(name: string, ghost before: map<string, Values>, ghost minted: seq<Enumerable>, ghost produced: seq<Produced>, o: Enumerable, ghost p: Produced)
      returns (ghost minted': seq<Enumerable>, ghost produced': seq<Produced>)
      requires enums == before[name := Store(minted)] && Mints(minted, produced)
      requires o !in minted && o.cls == p.owner && o.index == p.index
      modifies this
      ensures enums == before[name := Store(minted')] && initializationState == old(initializationState)
      ensures minted' == minted + [o] && produced' == produced + [p] && Mints(minted', produced')
      ensures |minted| <= |minted'| && minted'[..|minted|] == minted
      ensures Distinct(minted) ==> Distinct(minted')
    {
      MintOne(minted, produced, o, p);
      if Distinct(minted) {
        MintNew(minted, o);
      }
      StoreIndexed(name, before, minted, o);
      minted', produced' := minted + [o], produced + [p];
      assert minted'[..|minted|] == minted;
    }

    /** `$values[$value->getIndex()] = $value` on the cache entry of the class being initialised. */
    method StoreIndexed(name: string, ghost before: map<string, Values>, ghost minted: seq<Enumerable>, o: Enumerable)
      requires enums == before[name := Store(minted)]
      modifies this
      ensures enums == before[name := Store(minted + [o])] && initializationState == old(initializationState)
    {
      assert Store(minted + [o]) == Put(Store(minted), o.index, o) by {
        assert (minted + [o])[..|minted|] == minted;
      }
      enums := enums[name := Put(enums[name], o.GetIndex(), o)];
      UpdateTwice(before, name, Store(minted), Store(minted + [o]));
    }

    /** Appending a newly minted object keeps the pass's bookkeeping. */
    static lemma MintOne(minted: seq<Enumerable>, produced: seq<Produced>, o: Enumerable, p: Produced)
      requires Mints(minted, produced)
      requires o.cls == p.owner && o.index == p.index
      ensures Mints(minted + [o], produced + [p])
    {
    }

    /** An object allocated after every object already minted is a new one among them. */
    static lemma MintNew(minted: seq<Enumerable>, o: Enumerable)
      requires Distinct(minted) && o !in minted
      ensures Distinct(minted + [o])
    {
    }

    static lemma UpdateTwice(m: map<string, Values>, k: string, a: Values, b: Values)
      ensures m[k := a][k := b] == m[k := b]
    {
    }

    /** Initialising a class that was not loaded before leaves one class fewer to initialise. */
    static lemma Shrinks(all: set<string>, done: set<string>, name: string)
      requires name in all && name !in done
      ensures |all - (done + {name})| < |all - done|
    {
      assert all - (done + {name}) == (all - done) - {name};
    }
  }
}
