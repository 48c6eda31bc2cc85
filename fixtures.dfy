/**
 * The enumerable classes of the package's test fixtures as class descriptors, what initialising
 * each of them plans, and client sessions against a fresh registry that show the registry's
 * promises on them: singletons, cached arrays, the foreign instance, rejected classes and the
 * partial entry left behind by a failing factory.
 */
module Fixtures {
  import opened Wrappers
  import opened Declarations
  import opened Values
  import opened Enumerables

  /**
   * The static methods every enumerable inherits from Enumerable, as reflection lists them after
   * the class's own. None is a factory, so initialisation never runs their bodies.
   */
  function Inherited(): (ms: seq<Method>)
    ensures forall m :: m in ms ==> IsServiceMethod(m) && !m.body.CreateEnum?
  {
    [ Method("getValue", true, ReturnOther), Method("getValues", true, ReturnOther)
    , Method("createEnum", false, ReturnOther), Method("initializeEnum", false, ReturnOther)
    , Method("isEnumNotInitialized", false, ReturnOther), Method("isServiceMethod", false, ReturnOther)
    , Method("getServiceMethods", false, ReturnOther) ]
  }

  /** `public static function <name>() { return self::createEnum(<index>); }` in class `owner`. */
  function Factory(owner: string, name: string, index: Index): Method
  {
    Method(name, true, CreateEnum(owner, index))
  }

  /** ColorEnum's own factories. */
  function ColorFactories(): seq<Method>
  {
    [Factory("ColorEnum", "red", Str("RED")), Factory("ColorEnum", "green", Str("GREEN")),
     Factory("ColorEnum", "blue", Str("BLUE"))]
  }

  /** ColorEnum: final, three factories with the string indices RED, GREEN and BLUE. */
  function Color(): ClassDesc
  {
    ClassDesc("ColorEnum", true, false, ColorFactories() + Inherited())
  }

  /** DuplicateIndexEnum's own factories: two that pass the same index. */
  function DuplicateFactories(): seq<Method>
  {
    [Factory("DuplicateIndexEnum", "some", Str("some_index")),
     Factory("DuplicateIndexEnum", "another", Str("some_index"))]
  }

  function DuplicateIndex(): ClassDesc
  {
    ClassDesc("DuplicateIndexEnum", true, false, DuplicateFactories() + Inherited())
  }

  /** InvalidReturnTypeEnum's one factory returns ColorEnum::red(). */
  function InvalidReturnType(): ClassDesc
  {
    ClassDesc("InvalidReturnTypeEnum", true, false, [Factory("ColorEnum", "someValue", Str("RED"))] + Inherited())
  }

  /** SerializableEnum: like ColorEnum, but it implements Serializable. */
  function SerializableColor(): ClassDesc
  {
    ClassDesc("SerializableEnum", true, true,
      [Factory("SerializableEnum", "red", Str("RED")), Factory("SerializableEnum", "green", Str("GREEN")),
       Factory("SerializableEnum", "blue", Str("BLUE"))] + Inherited())
  }

  /** A class like ColorEnum that is not declared final. */
  function NonFinal(): ClassDesc
  {
    ClassDesc("NonFinalEnum", false, false, [Factory("NonFinalEnum", "one", Int(1))] + Inherited())
  }

  /** A class whose second factory returns a scalar: `red` creates RED, `scalar` returns 1. */
  function ScalarAfterRed(): ClassDesc
  {
    ClassDesc("ScalarAfterRedEnum", true, false,
      [Factory("ScalarAfterRedEnum", "red", Str("RED")), Method("scalar", true, ReturnOther)] + Inherited())
  }

  /** A registry that has loaded `c` alone: enough for a class whose factories all create its own instances. */
  lemma LoadedAlone(c: ClassDesc)
    requires forall m :: m in c.methods && m.body.CreateEnum? ==> m.body.owner == c.name
    ensures Loaded(map[c.name := c])
  {
  }

  lemma ColorLoaded()
    ensures Loaded(map[Color().name := Color()])
  {
    LoadedAlone(Color());
  }

  /** ColorEnum is initialised by minting RED, GREEN and BLUE, in that order, without failure. */
  lemma ColorPlan()
    ensures Plan(Color()) == Runs([Produced("ColorEnum", Str("RED")), Produced("ColorEnum", Str("GREEN")),
                                   Produced("ColorEnum", Str("BLUE"))], None)
  {
    var own := ColorFactories();
    RunIgnoresServices(own, Inherited());
    assert own[..0] == [];
    RunExtend(own, 0, []);
    RunExtend(own, 1, [Produced("ColorEnum", Str("RED"))]);
    RunExtend(own, 2, [Produced("ColorEnum", Str("RED")), Produced("ColorEnum", Str("GREEN"))]);
    assert own[..3] == own;
  }

  /** DuplicateIndexEnum mints two instances under the same index, `some`'s first. */
  lemma DuplicateIndexPlan()
    ensures Plan(DuplicateIndex()) == Runs([Produced("DuplicateIndexEnum", Str("some_index")),
                                            Produced("DuplicateIndexEnum", Str("some_index"))], None)
  {
    var own := DuplicateFactories();
    RunIgnoresServices(own, Inherited());
    assert own[..0] == [];
    RunExtend(own, 0, []);
    RunExtend(own, 1, [Produced("DuplicateIndexEnum", Str("some_index"))]);
    assert own[..2] == own;
  }

  /** InvalidReturnTypeEnum's one factory mints a ColorEnum instance, and nothing rejects it. */
  lemma InvalidReturnTypePlan()
    ensures Plan(InvalidReturnType()) == Runs([Produced("ColorEnum", Str("RED"))], None)
  {
    var own := [Factory("ColorEnum", "someValue", Str("RED"))];
    RunIgnoresServices(own, Inherited());
    assert own[..0] == [];
    RunExtend(own, 0, []);
    assert own[..1] == own;
  }

  /** ScalarAfterRedEnum mints RED, then fails on the scalar that `scalar` returns. */
  lemma ScalarAfterRedPlan()
    ensures Plan(ScalarAfterRed()) == Runs([Produced("ScalarAfterRedEnum", Str("RED"))], Some(NoGetIndex("scalar")))
  {
    var own := [Factory("ScalarAfterRedEnum", "red", Str("RED")), Method("scalar", true, ReturnOther)];
    RunIgnoresServices(own, Inherited());
    assert own[..0] == [];
    RunExtend(own, 0, []);
    RunExtend(own, 1, [Produced("ScalarAfterRedEnum", Str("RED"))]);
    assert own[..2] == own;
  }

  /** What ColorEnum's factories produce, in order. */
  function ColorProduced(): seq<Produced>
  {
    [Produced("ColorEnum", Str("RED")), Produced("ColorEnum", Str("GREEN")), Produced("ColorEnum", Str("BLUE"))]
  }

  /** The array stored for ColorEnum lists RED, GREEN and BLUE in order, each a ColorEnum under its own index. */
  lemma ColorStored(minted: seq<Enumerable>)
    requires Mints(minted, ColorProduced())
    ensures Store(minted).order == [Str("RED"), Str("GREEN"), Str("BLUE")]
    ensures forall k :: k in Store(minted).at ==> Store(minted).at[k].cls == "ColorEnum" && Store(minted).at[k].GetIndex() == k
  {
    var p := ColorProduced();
    assert |minted| == 3 && minted[0].index == p[0].index && minted[1].index == p[1].index && minted[2].index == p[2].index;
    StoreDistinct(minted);
    var order := Store(minted).order;
    assert |order| == 3 && order[0] == p[0].index && order[1] == p[1].index && order[2] == p[2].index;
    assert order == [order[0], order[1], order[2]];
    forall i | 0 <= i < |minted|
      ensures minted[i].cls == "ColorEnum"
    {
      assert minted[i].cls == p[i].owner;
    }
    StoreClass(minted, "ColorEnum");
  }

  /** ColorEnum's array holds exactly the keys RED, GREEN and BLUE. */
  lemma ColorKeys(minted: seq<Enumerable>)
    requires Mints(minted, ColorProduced())
    ensures Store(minted).at.Keys == {Str("RED"), Str("GREEN"), Str("BLUE")}
  {
    ColorStored(minted);
    var v := Store(minted);
    assert forall k :: k in v.at <==> k in v.order;
  }

  /**
   * getValues() on ColorEnum: the array RED, GREEN, BLUE, in factory order, each value a ColorEnum
   * under its own index and the very object ColorEnum::red(), green() and blue() return; a second
   * call returns the same array.
   */
  method ColorEnumValues() returns (first: Result<Values, Error>, red: Result<Enumerable, Error>,
                                    green: Result<Enumerable, Error>, blue: Result<Enumerable, Error>,
                                    second: Result<Values, Error>)
    ensures first.Ok? && first.value.order == [Str("RED"), Str("GREEN"), Str("BLUE")]
    ensures first.value.at.Keys == {Str("RED"), Str("GREEN"), Str("BLUE")}
    ensures forall k :: k in first.value.at ==> first.value.at[k].cls == "ColorEnum" && first.value.at[k].GetIndex() == k
    ensures Str("RED") in first.value.at && red == Ok(first.value.at[Str("RED")])
    ensures Str("GREEN") in first.value.at && green == Ok(first.value.at[Str("GREEN")])
    ensures Str("BLUE") in first.value.at && blue == Ok(first.value.at[Str("BLUE")])
    ensures second == first
  {
    ColorLoaded();
    var registry := new Registry(map[Color().name := Color()]);
    ghost var minted;
    minted, first := registry.GetValues("ColorEnum");
    ColorPlan();
    ghost var stored := minted;
    assert first == Ok(Store(stored)) && Mints(stored, ColorProduced());
    assert registry.enums["ColorEnum"] == Store(stored);
    ColorStored(stored);
    ColorKeys(stored);
    ColorLookup(stored);
    minted, red := registry.CreateEnum("ColorEnum", Str("RED"));
    minted, green := registry.CreateEnum("ColorEnum", Str("GREEN"));
    minted, blue := registry.CreateEnum("ColorEnum", Str("BLUE"));
    minted, second := registry.GetValues("ColorEnum");
  }

  /** ColorEnum's array answers each of its three indices with the instance minted for it. */
  lemma ColorLookup(minted: seq<Enumerable>)
    requires Mints(minted, ColorProduced())
    ensures |minted| == 3
    ensures Lookup("ColorEnum", Store(minted), Str("RED")) == Ok(minted[0])
    ensures Lookup("ColorEnum", Store(minted), Str("GREEN")) == Ok(minted[1])
    ensures Lookup("ColorEnum", Store(minted), Str("BLUE")) == Ok(minted[2])
  {
    var p := ColorProduced();
    assert |minted| == 3 && minted[0].index == p[0].index && minted[1].index == p[1].index && minted[2].index == p[2].index;
    StoreDistinctLookup(minted);
  }

  /** ColorEnum's indices are strings, so no integer index is found. */
  lemma ColorLookupInt(minted: seq<Enumerable>, i: int)
    requires Mints(minted, ColorProduced())
    ensures Lookup("ColorEnum", Store(minted), Int(i)) == Err(OutOfBoundsException("ColorEnum", Int(i)))
  {
    StoreKeys(minted);
    forall j | 0 <= j < |minted|
      ensures minted[j].index != Int(i)
    {
      assert minted[j].index == ColorProduced()[j].index;
    }
  }

  /**
   * ColorEnum::red() called twice by a client returns the identical object, and ColorEnum::green()
   * a different one: the first call initialises the class, the second finds it cached.
   */
  method ColorEnumIdentity() returns (red: Result<Enumerable, Error>, redAgain: Result<Enumerable, Error>, green: Result<Enumerable, Error>)
    ensures red.Ok? && green.Ok? && redAgain == red && red.value != green.value
    ensures red.value.GetIndex() == Str("RED") && green.value.GetIndex() == Str("GREEN")
  {
    ColorLoaded();
    var registry := new Registry(map[Color().name := Color()]);
    ghost var minted;
    minted, red := registry.CreateEnum("ColorEnum", Str("RED"));
    ColorPlan();
    ghost var stored := minted;
    assert Mints(stored, ColorProduced()) && registry.enums["ColorEnum"] == Store(stored);
    ColorLookup(stored);
    minted, redAgain := registry.CreateEnum("ColorEnum", Str("RED"));
    minted, green := registry.CreateEnum("ColorEnum", Str("GREEN"));
  }

  /** ColorEnum::getValue(100): ColorEnum has no such index, so OutOfBoundsException names the class and 100. */
  method ColorEnumOutOfBounds() returns (r: Result<Enumerable, Error>)
    ensures r == Err(OutOfBoundsException("ColorEnum", Int(100)))
  {
    ColorLoaded();
    var registry := new Registry(map[Color().name := Color()]);
    ghost var minted;
    minted, r := registry.GetValue("ColorEnum", Int(100));
    ColorPlan();
    assert InitError(Color()) == None;
    assert r == Lookup("ColorEnum", Store(minted), Int(100)) && Mints(minted, ColorProduced());
    ColorLookupInt(minted, 100);
  }

  /** The array stored for DuplicateIndexEnum: one key, holding the instance the later factory minted. */
  lemma DuplicateStored(minted: seq<Enumerable>)
    requires Mints(minted, [Produced("DuplicateIndexEnum", Str("some_index")), Produced("DuplicateIndexEnum", Str("some_index"))])
    ensures |minted| == 2 && Store(minted) == Values([Str("some_index")], map[Str("some_index") := minted[1]])
  {
    assert minted[..1][..0] == [] && minted[..|minted| - 1] == minted[..1];
    assert Store(minted[..1]) == Put(Empty(), minted[0].index, minted[0]);
  }

  /**
   * getValues() on DuplicateIndexEnum is not rejected: `some` and `another` both mint an instance
   * under 'some_index', and the array keeps one key, holding `another`'s instance.
   */
  method DuplicateIndexValues() returns (ghost minted: seq<Enumerable>, values: Result<Values, Error>)
    ensures values.Ok? && values.value.order == [Str("some_index")]
    ensures Mints(minted, Run(DuplicateIndex().methods).produced) && |minted| == 2 && minted[0] != minted[1]
    ensures minted[0].GetIndex() == minted[1].GetIndex() == Str("some_index")
    ensures values == Ok(Values([Str("some_index")], map[Str("some_index") := minted[1]]))
  {
    LoadedAlone(DuplicateIndex());
    var registry := new Registry(map[DuplicateIndex().name := DuplicateIndex()]);
    minted, values := registry.GetValues("DuplicateIndexEnum");
    DuplicateIndexPlan();
    DuplicateStored(minted);
  }

  /** The array built from a single minted instance. */
  lemma StoreOne(minted: seq<Enumerable>)
    requires |minted| == 1
    ensures Store(minted) == Values([minted[0].index], map[minted[0].index := minted[0]])
  {
    assert minted[..0] == [];
  }

  /** InvalidReturnTypeEnum loaded together with ColorEnum, whose factory it calls. */
  function ForeignClasses(): (classes: map<string, ClassDesc>)
    ensures classes.Keys == {"InvalidReturnTypeEnum", "ColorEnum"} && Loaded(classes)
    ensures classes["InvalidReturnTypeEnum"] == InvalidReturnType() && classes["ColorEnum"] == Color()
  {
    map["InvalidReturnTypeEnum" := InvalidReturnType(), "ColorEnum" := Color()]
  }

  /**
   * getValues() on InvalidReturnTypeEnum stores under RED the ColorEnum instance its factory got
   * from ColorEnum::red(): the flag was set, so that call minted a new ColorEnum instance, which
   * ColorEnum's own cache never receives. ColorEnum::red() called later is another object.
   */
  method ForeignInstance() returns (values: Result<Values, Error>, red: Result<Enumerable, Error>)
    ensures values.Ok? && values.value.order == [Str("RED")] && Str("RED") in values.value.at
    ensures values.value.at[Str("RED")].cls == "ColorEnum"
    ensures red.Ok? && red.value.cls == "ColorEnum" && red.value.GetIndex() == Str("RED")
    ensures red.value != values.value.at[Str("RED")]
  {
    var registry := new Registry(ForeignClasses());
    ghost var minted;
    minted, values := registry.GetValues("InvalidReturnTypeEnum");
    InvalidReturnTypePlan();
    StoreOne(minted);
    assert registry.enums == map["InvalidReturnTypeEnum" := Store(minted)];
    var foreign := values.value.at[Str("RED")];
    minted, red := registry.CreateEnum("ColorEnum", Str("RED"));
    ColorPlan();
    ColorLookup(minted);
    assert minted[0] in minted;
    assert red == Ok(minted[0]) && minted[0] != foreign;
  }

  /** SerializableEnum::getValues() raises DomainException, and again on the next call: nothing was cached. */
  method SerializableRejected() returns (first: Result<Values, Error>, second: Result<Values, Error>, notInitialized: bool)
    ensures first == Err(DomainException("SerializableEnum", ImplementsSerializable)) && second == first
    ensures notInitialized
  {
    LoadedAlone(SerializableColor());
    var registry := new Registry(map[SerializableColor().name := SerializableColor()]);
    ghost var minted;
    minted, first := registry.GetValues("SerializableEnum");
    minted, second := registry.GetValues("SerializableEnum");
    notInitialized := registry.IsEnumNotInitialized("SerializableEnum");
  }

  /** NonFinalEnum::getValues() raises DomainException, and again on the next call: nothing was cached. */
  method NonFinalRejected() returns (first: Result<Values, Error>, second: Result<Values, Error>, notInitialized: bool)
    ensures first == Err(DomainException("NonFinalEnum", NotFinal)) && second == first
    ensures notInitialized
  {
    LoadedAlone(NonFinal());
    var registry := new Registry(map[NonFinal().name := NonFinal()]);
    ghost var minted;
    minted, first := registry.GetValues("NonFinalEnum");
    minted, second := registry.GetValues("NonFinalEnum");
    notInitialized := registry.IsEnumNotInitialized("NonFinalEnum");
  }

  /**
   * ScalarAfterRedEnum::getValues() fails on its scalar factory, but the entry created before the
   * loop stays, holding RED: the next getValues() returns that partial array without an error.
   */
  method PartialEntry() returns (first: Result<Values, Error>, second: Result<Values, Error>)
    ensures first == Err(NoGetIndex("scalar"))
    ensures second.Ok? && second.value.order == [Str("RED")] && second.value.at.Keys == {Str("RED")}
    ensures second.value.at[Str("RED")].cls == "ScalarAfterRedEnum"
  {
    LoadedAlone(ScalarAfterRed());
    var registry := new Registry(map[ScalarAfterRed().name := ScalarAfterRed()]);
    ghost var minted;
    minted, first := registry.GetValues("ScalarAfterRedEnum");
    ScalarAfterRedPlan();
    StoreOne(minted);
    minted, second := registry.GetValues("ScalarAfterRedEnum");
  }
}
