/** Option and Result, used for lookups and for the exceptions the registry raises. */
module Wrappers {

  datatype Option<+T> = None | Some(value: T)

  datatype Result<+T, +E> = Ok(value: T) | Err(error: E)
}

/**
 * What the registry learns about an enumerable class through reflection, made explicit:
 * the class descriptor, its static methods in reflection order, and what each factory body does.
 * Also the pure plan of one initialisation pass: which instances the factories mint, in order,
 * and where the pass stops.
 */
module Declarations {
  import opened Wrappers

  /** The index an instance is registered under: a PHP integer or string array key. */
  datatype Index = Int(i: int) | Str(s: string)

  /** What calling a static method with no arguments does. */
  datatype Body =
    /** `return Owner::createEnum(index)`, directly or through another class's factory. */
    | CreateEnum(owner: string, index: Index)
    /** The body throws the named exception. */
    | Throw(exception: string)
    /** The body returns something that is not an Enumerable (a scalar, null, or any value without a `getIndex()` method). */
    | ReturnOther

  /** One static method as reflection reports it. */
  datatype Method = Method(name: string, isPublic: bool, body: Body)

  /** An enumerable class: its name, its modifiers and its static methods in reflection order. */
  datatype ClassDesc = ClassDesc(name: string, isFinal: bool, isSerializable: bool, methods: seq<Method>)

  datatype DomainReason = NotFinal | ImplementsSerializable

  /** The exceptions and errors that leave the registry. */
  datatype Error =
    /** DomainException raised by the final/Serializable checks of initialisation. */
    | DomainException(cls: string, reason: DomainReason)
    /** OutOfBoundsException raised by getValue. */
    | OutOfBoundsException(cls: string, index: Index)
    /** An exception thrown by a factory body, propagated unchanged. */
    | Thrown(exception: string)
    /** The error of calling getIndex() on what a factory returned when that is not an Enumerable, tagged with the factory's name. */
    | NoGetIndex(factory: string)

  /** The short names of the public static methods that are not factories. */
  function ServiceMethods(): seq<string>
  {
    ["getValue", "getValues"]
  }

  /** A static method that initialisation must not invoke. */
  predicate IsServiceMethod(m: Method)
  {
    !m.isPublic || m.name in ServiceMethods()
  }

  /** The static methods that initialisation invokes, in reflection order. */
  function Factories(ms: seq<Method>): seq<Method>
    decreases |ms|
  {
    if ms == [] then []
    else
      var m := ms[|ms| - 1];
      Factories(ms[..|ms| - 1]) + (if IsServiceMethod(m) then [] else [m])
  }

  /** A method is invoked by initialisation exactly when it is public and not getValue or getValues. */
  lemma {:induction false} FactoriesExactly(ms: seq<Method>)
    ensures forall m :: m in Factories(ms) <==> m in ms && m.isPublic && m.name !in ServiceMethods()
    decreases |ms|
  {
    if ms != [] {
      var front := ms[..|ms| - 1];
      FactoriesExactly(front);
      assert ms == front + [ms[|ms| - 1]];
    }
  }

  /** Taking the factories of a concatenation is taking them piece by piece. */
  lemma {:induction false} FactoriesConcat(a: seq<Method>, b: seq<Method>)
    ensures Factories(a + b) == Factories(a) + Factories(b)
    decreases |b|
  {
    if b == [] {
      assert a + b == a;
    } else {
      var front, last, ab := b[..|b| - 1], b[|b| - 1], a + b;
      var tail := if IsServiceMethod(last) then [] else [last];
      assert ab[..|ab| - 1] == a + front && ab[|ab| - 1] == last;
      assert Factories(ab) == Factories(a + front) + tail;
      assert Factories(b) == Factories(front) + tail;
      FactoriesConcat(a, front);
      assert (Factories(a) + Factories(front)) + tail == Factories(a) + (Factories(front) + tail);
    }
  }

  /** A list of service methods yields no factory at all. */
  lemma {:induction false} FactoriesNone(ms: seq<Method>)
    requires forall m :: m in ms ==> IsServiceMethod(m)
    ensures Factories(ms) == []
    decreases |ms|
  {
    if ms != [] {
      FactoriesNone(ms[..|ms| - 1]);
    }
  }

  /** Service methods after the factories, such as the statics every enumerable inherits, change nothing. */
  lemma RunIgnoresServices(own: seq<Method>, services: seq<Method>)
    requires forall m :: m in services ==> IsServiceMethod(m)
    ensures Run(own + services) == Run(own)
  {
    RunOnlyFactories(own + services);
    FactoriesConcat(own, services);
    FactoriesNone(services);
    assert Factories(own) + [] == Factories(own);
    RunOnlyFactories(own);
  }

  /** An instance a factory mints during initialisation: the class it belongs to and its index. */
  datatype Produced = Produced(owner: string, index: Index)

  /** Where a pass over a method list stands: what was minted so far and the error that stopped it. */
  datatype Scan = Scan(produced: seq<Produced>, failure: Option<Error>)

  /** The outcome of initialising one class, up to the identity of the minted objects. */
  datatype Outlook =
    | Rejected(error: Error)
    | Runs(produced: seq<Produced>, failure: Option<Error>)

  /** One loop iteration of initialisation, given what was produced before. */
  function Step(produced: seq<Produced>, m: Method): (r: Scan)
    ensures IsServiceMethod(m) ==> r == Scan(produced, None)
    ensures r.failure.None? ==> |produced| <= |r.produced| <= |produced| + 1 && r.produced[..|produced|] == produced
    ensures r.failure.Some? ==> r.produced == produced && !IsServiceMethod(m) && !m.body.CreateEnum?
  {
    if IsServiceMethod(m) then Scan(produced, None)
    else match m.body
      case CreateEnum(owner, index) => Scan(produced + [Produced(owner, index)], None)
      case Throw(e) => Scan(produced, Some(Thrown(e)))
      case ReturnOther => Scan(produced, Some(NoGetIndex(m.name)))
  }

  /** The loop of initialisation over a method list: it goes on until a factory fails. */
  function Run(ms: seq<Method>): (r: Scan)
    decreases |ms|
  {
    if ms == [] then Scan([], None)
    else
      var prev := Run(ms[..|ms| - 1]);
      if prev.failure.Some? then prev else Step(prev.produced, ms[|ms| - 1])
  }

  /** Initialisation of a class: the two class checks in source order, then the loop. */
  function Plan(c: ClassDesc): (p: Outlook)
    ensures p.Rejected? <==> !c.isFinal || c.isSerializable
    ensures !c.isFinal ==> p == Rejected(DomainException(c.name, NotFinal))
    ensures c.isFinal && c.isSerializable ==> p == Rejected(DomainException(c.name, ImplementsSerializable))
  {
    if !c.isFinal then Rejected(DomainException(c.name, NotFinal))
    else if c.isSerializable then Rejected(DomainException(c.name, ImplementsSerializable))
    else
      var s := Run(c.methods);
      Runs(s.produced, s.failure)
  }

  /** The error initialisation of `c` raises, if any. */
  function InitError(c: ClassDesc): Option<Error>
  {
    match Plan(c)
    case Rejected(e) => Some(e)
    case Runs(_, f) => f
  }

  /** A final, non-serializable class is planned by its pass over the methods. */
  lemma PlanOfRun(c: ClassDesc, produced: seq<Produced>, failure: Option<Error>)
    requires c.isFinal && !c.isSerializable && Run(c.methods) == Scan(produced, failure)
    ensures Plan(c) == Runs(produced, failure) && InitError(c) == failure
  {
  }

  /** One more iteration of the loop: the pass over a longer prefix is one Step further. */
  lemma RunExtend(ms: seq<Method>, i: nat, produced: seq<Produced>)
    requires i < |ms| && Run(ms[..i]) == Scan(produced, None)
    ensures Run(ms[..i + 1]) == Step(produced, ms[i])
  {
    assert ms[..i + 1][..i] == ms[..i];
  }

  /** Once a prefix of the method list has failed, the rest of the list is never looked at. */
  lemma {:induction false} RunStopsAtFailure(ms: seq<Method>, i: nat)
    requires i <= |ms|
    requires Run(ms[..i]).failure.Some?
    ensures Run(ms) == Run(ms[..i])
    decreases |ms| - i
  {
    if i < |ms| {
      var front := ms[..|ms| - 1];
      assert front[..i] == ms[..i];
      RunStopsAtFailure(front, i);
    } else {
      assert ms[..i] == ms;
    }
  }

  /** Service methods are skipped: running the whole list is running its factories alone. */
  lemma {:induction false} RunOnlyFactories(ms: seq<Method>)
    ensures Run(ms) == Run(Factories(ms))
    decreases |ms|
  {
    if ms != [] {
      var front, m := ms[..|ms| - 1], ms[|ms| - 1];
      RunOnlyFactories(front);
      var fs := Factories(front);
      if !IsServiceMethod(m) {
        var ext := fs + [m];
        assert Factories(ms) == ext;
        assert ext[..|ext| - 1] == fs && ext[|ext| - 1] == m;
        assert Run(ext) == (if Run(fs).failure.Some? then Run(fs) else Step(Run(fs).produced, m));
        assert Run(ms) == (if Run(front).failure.Some? then Run(front) else Step(Run(front).produced, m));
      } else {
        assert Factories(ms) == fs;
        assert Run(ms) == (if Run(front).failure.Some? then Run(front) else Step(Run(front).produced, m));
      }
    }
  }

  /** The body of a service method never matters, because it is never invoked. */
  lemma ServiceBodyIrrelevant(ms: seq<Method>, i: nat, b: Body)
    requires i < |ms| && IsServiceMethod(ms[i])
    ensures Run(ms[i := ms[i].(body := b)]) == Run(ms)
  {
    var ms' := ms[i := ms[i].(body := b)];
    FactoriesSkipIndex(ms, i, b);
    RunOnlyFactories(ms);
    RunOnlyFactories(ms');
  }

  lemma {:induction false} FactoriesSkipIndex(ms: seq<Method>, i: nat, b: Body)
    requires i < |ms| && IsServiceMethod(ms[i])
    ensures Factories(ms[i := ms[i].(body := b)]) == Factories(ms)
    decreases |ms|
  {
    var ms' := ms[i := ms[i].(body := b)];
    if i < |ms| - 1 {
      assert ms'[..|ms'| - 1] == ms[..|ms| - 1][i := ms[i].(body := b)];
      FactoriesSkipIndex(ms[..|ms| - 1], i, b);
    } else {
      assert ms'[..|ms'| - 1] == ms[..|ms| - 1];
    }
  }

  /**
   * When every factory creates an instance, the pass does not fail and mints one instance per
   * factory, in reflection order, with the owner and index its body names.
   */
  lemma {:induction false} RunAllCreate(ms: seq<Method>)
    requires forall m :: m in ms && !IsServiceMethod(m) ==> m.body.CreateEnum?
    ensures Run(ms).failure.None?
    ensures |Run(ms).produced| == |Factories(ms)|
    ensures forall j :: 0 <= j < |Factories(ms)| ==>
      Factories(ms)[j].body.CreateEnum? &&
      Run(ms).produced[j] == Produced(Factories(ms)[j].body.owner, Factories(ms)[j].body.index)
    decreases |ms|
  {
    if ms != [] {
      var front := ms[..|ms| - 1];
      assert forall m :: m in front ==> m in ms;
      RunAllCreate(front);
    }
  }

  /**
   * The first failing factory decides the error: the factories before it have all created
   * instances, and the pass reports that factory's failure.
   */
  lemma RunFailsAt(ms: seq<Method>, j: nat)
    requires j < |ms| && !IsServiceMethod(ms[j]) && !ms[j].body.CreateEnum?
    requires forall m :: m in ms[..j] && !IsServiceMethod(m) ==> m.body.CreateEnum?
    ensures Run(ms).failure == Some(if ms[j].body.Throw? then Thrown(ms[j].body.exception) else NoGetIndex(ms[j].name))
    ensures Run(ms).produced == Run(ms[..j]).produced
  {
    RunAllCreate(ms[..j]);
    assert ms[..j + 1][..j] == ms[..j];
    RunStopsAtFailure(ms, j + 1);
  }
}
