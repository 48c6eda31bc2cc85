# Enumerable registry (litgroup/enumerable) in Dafny

This project models the abstract PHP class `LitGroup\Enumerable\Enumerable`. It turns a
final class with public static factory methods into a fixed set of singleton instances, one
per index.

The registry is lazy and cached. It has two pieces of process-wide static state: the cache
`$enums` and a single flag, `$initializationState`. The first `getValues()` on a class
initialises it:

1. Set the flag.
2. Reject a class that is not final, or that implements `Serializable`.
3. Create an empty cache entry.
4. Invoke every public static method that is not `getValue` or `getValues`. Each such factory
   calls `createEnum(index)`, which mints a new instance while the flag is set.
5. Store each result under its own index.
6. Clear the flag in a `finally`.

Outside initialisation, `createEnum` goes through `getValue`. That returns the cached instance,
or raises `OutOfBoundsException`.

The files are:

- `declarations.dfy` holds the class descriptors that stand in for reflection: a class's name,
  `isFinal`, `isSerializable` and its static methods in reflection order. Each method has a name,
  a visibility and a `Body`: `CreateEnum(owner, index)`, `Throw(e)` or `ReturnOther`. The file
  also holds the pure plan of one initialisation. `Run`/`Step` is the foreach, and it stops at
  the first failing factory. `Plan` puts the two class checks in front of it.
- `values.dfy` holds the instances and the per-class PHP array. `Enumerable` is a class whose
  `cls` and `index` never change, so object identity can be stated. `Values` holds the keys in
  insertion order plus a key-to-instance map; assigning to a present key keeps its position.
  `Store` is the array an initialisation builds from the instances it minted.
- The source's small helpers are transparent functions without rows of their own; another
  member states what each promises. `Declarations.IsServiceMethod` and
  `Declarations.ServiceMethods` (isServiceMethod and getServiceMethods, src/Enumerable.php:178-192)
  are covered by `FactoriesExactly`. `Values.Enumerable.GetIndex` (lines 88-91) is covered by
  `WellFormed` (every value's index is its key) and by `CreateEnum`, `Invoke` and `Lookup`.
  `Enumerables.Registry.IsEnumNotInitialized` (lines 166-169) is covered by `GetValues`.
- `registry.dfy` holds `Registry`, a class whose mutable fields are the static cache and the
  flag. Its methods are `getValue`, `getValues`, `createEnum`, `initializeEnum` and its loop, and
  the invocation of a factory. Each method is proved against the plan. The methods are written
  with the source's mutual recursion `getValues → initializeEnum → factory → createEnum →
  getValue → getValues`, and its `decreases` clauses bound it by the classes not yet cached.
  In the model the path through a factory is never taken: a factory runs only while the flag
  is set, when createEnum mints without calling getValue. In the source that path needs a
  factory that calls getValue itself, which the model leaves out.
- `fixtures.dfy` holds the package's test fixtures as descriptors: ColorEnum, DuplicateIndexEnum,
  InvalidReturnTypeEnum, SerializableEnum, a non-final class, and one class with a failing second
  factory. It also holds client sessions against a fresh registry that exhibit the promises on
  them.

Where the package's tests expect more than `src/Enumerable.php` does, the model follows the
code. The code has no duplicate-index rejection, no rejection of another class's instance or of
a float index, no `getValueOf` and no `equals`. An entry whose initialisation failed half-way
stays in the cache, partly filled.

## Model

| member | source | states |
|---|---|---|
| Declarations.FactoriesExactly | src/Enumerable.php:144-150 | initialisation invokes a static method exactly when it is public and its short name is neither `getValue` nor `getValues` (isServiceMethod, lines 178-181), in reflection order |
| Declarations.RunOnlyFactories | src/Enumerable.php:147-150 | the loop over all static methods gives what the loop over the factories alone gives: service methods are skipped |
| Declarations.ServiceBodyIrrelevant | src/Enumerable.php:147-150 | protected `createEnum` and the private helpers are never invoked: whatever their bodies do, the outcome of initialisation is the same |
| Declarations.RunIgnoresServices | src/Enumerable.php:144-150 | the statics a class inherits from Enumerable, listed after its own, change nothing |
| Declarations.Step | src/Enumerable.php:148-154 | one iteration: a service method is skipped; a factory either adds at most one instance after the ones already produced, or stops the loop with an error and adds nothing; only a factory whose body is not a createEnum call can fail |
| Declarations.Plan | src/Enumerable.php:121-159 | a class is rejected exactly when it is not final or implements Serializable; the not-final check comes first; each raises DomainException naming the class; otherwise initialisation is the loop over its methods |
| Declarations.RunStopsAtFailure | src/Enumerable.php:147-155 | an exception from a factory ends the foreach: later methods do not matter |
| Declarations.RunAllCreate | src/Enumerable.php:147-155 | when every factory creates an instance, the loop succeeds and mints one instance per factory, in reflection order, with the owner and index that factory names |
| Declarations.RunFailsAt | src/Enumerable.php:147-155 | the first factory that does not create an instance decides the error (its own exception, or the failed `getIndex()` call on what it returned), and the instances minted before it remain |
| Values.Enumerable.constructor | src/Enumerable.php:101-102 | a new instance carries the class it was created as and the index it was given |
| Values.Put | src/Enumerable.php:154 | `$values[$k] = $o` keeps the array well formed when `$o`'s index is `$k`; the key now maps to `$o`; a present key keeps its position and a new key goes last |
| Values.Store | src/Enumerable.php:146-155 | the array built from the minted instances is well formed: each key appears once in the order, and every value's getIndex() equals its key |
| Values.StoreKeys | src/Enumerable.php:147-155 | the keys of the array are exactly the indices of the instances the factories minted |
| Values.StoreValues | src/Enumerable.php:147-155 | every value in the array is one of the instances minted |
| Values.StoreClass | src/Enumerable.php:146-155 | instances minted of one class fill an array of that class only |
| Values.StoreLastWins | src/Enumerable.php:154 | when two factories produce the same index, the later one in method order overwrites the earlier |
| Values.StoreDistinct | src/Enumerable.php:154 | with pairwise distinct indices the array lists them in factory order, one key each |
| Values.StoreDistinctLookup | src/Enumerable.php:154 | with pairwise distinct indices every minted instance is stored under its own index |
| Values.StorePrefixOrder | src/Enumerable.php:154 | storing more instances never moves a key already stored |
| Values.Lookup | src/Enumerable.php:60-66 | getValue's lookup succeeds exactly when the key is in the array, and returns the stored instance, whose getIndex() is that key; otherwise it raises OutOfBoundsException naming the class and the index |
| Values.LookupRoundTrip | src/Enumerable.php:57-67 | looking an instance up by its own getIndex() gives back that very instance |
| Enumerables.Registry.constructor | src/Enumerable.php:31-38 | the cache starts empty and the flag starts cleared |
| Enumerables.Registry.GetValues | src/Enumerable.php:74-81 | a cached class is returned as is, and the cache, the flag and every object are untouched; an uncached class is initialised once, and its array, or the exception initialisation raised, is returned; the cache stays consistent; afterwards isEnumNotInitialized (lines 166-169) is true exactly when it was before and the class was rejected, so a class that got its entry is never initialised again; the objects minted are new and pairwise different |
| Enumerables.Registry.GetValue | src/Enumerable.php:57-67 | returns exactly the instance getValues() holds under the index, or OutOfBoundsException naming the class and index, or the exception initialisation raised; the objects minted are new and pairwise different |
| Enumerables.Registry.CreateEnum | src/Enumerable.php:98-108 | while the flag is set, a new instance of the called class with the given index, and the cache is unchanged; while the flag is clear, exactly what getValue gives, minting only new, pairwise different objects |
| Enumerables.Registry.Invoke | src/Enumerable.php:153 | invoking a factory while the flag is set: a createEnum body yields a new instance of its owner with its index, a throwing body raises its exception, any other body returns something that is not an Enumerable; the cache and the flag are unchanged |
| Enumerables.Registry.InitializeEnum | src/Enumerable.php:121-159 | the flag is clear on every exit; a rejected class leaves the cache untouched; otherwise only this class's entry is written, holding the array of the instances minted (a partly filled one when a factory failed), which are new and pairwise different objects; the error is the plan's |
| Enumerables.Registry.InvokeFactories | src/Enumerable.php:147-155 | the foreach mints one new object per instance the plan produces, no two of them the same object, stores them in the entry in order, and reports the plan's failure; other entries are untouched |
| Enumerables.Registry.InvokeFactory | src/Enumerable.php:147-150 | one iteration advances the loop by exactly one step of the plan |
| Enumerables.Registry.CallFactory | src/Enumerable.php:152-154 | a factory call either stores the new instance under its own index or stops with that step's error |
| Enumerables.Registry.Record | src/Enumerable.php:152-154 | an instance that is not yet among those minted is stored under its own index and appended to the pass, which stays pairwise distinct |
| Enumerables.Registry.StoreIndexed | src/Enumerable.php:154 | storing an instance under its getIndex() extends the entry to the array of one more minted instance |
| Fixtures.ColorPlan | tests/Fixtures/ColorEnum.php:15-43 | ColorEnum's initialisation mints RED, GREEN and BLUE in that order, without error |
| Fixtures.ColorStored | tests/Fixtures/ColorEnum.php:17-43 | ColorEnum's array lists RED, GREEN, BLUE in order, each a ColorEnum under its own index |
| Fixtures.ColorKeys | tests/Fixtures/ColorEnum.php:17-43 | ColorEnum's array has exactly the keys RED, GREEN and BLUE, no others |
| Fixtures.ColorEnumValues | test/EnumerableTest.php:80-90 | ColorEnum::getValues() is the array with exactly the keys RED, GREEN, BLUE, in that order, of ColorEnum instances, each the very object ColorEnum::red(), green() and blue() then return, and a second call returns the same array |
| Fixtures.ColorEnumIdentity | test/EnumerableTest.php:49-53 | ColorEnum::red() twice gives the identical object, ColorEnum::green() a different one, each with its own index |
| Fixtures.ColorLookupInt | tests/EnumerableTest.php:65-68 | no integer index is found in ColorEnum's array |
| Fixtures.ColorEnumOutOfBounds | tests/EnumerableTest.php:65-68 | ColorEnum::getValue(100) raises OutOfBoundsException naming ColorEnum and 100 |
| Fixtures.DuplicateIndexPlan | test/Fixtures/DuplicateIndexEnum.php:15-33 | both factories of DuplicateIndexEnum mint an instance under 'some_index', and nothing fails |
| Fixtures.DuplicateIndexValues | test/Fixtures/DuplicateIndexEnum.php:22-33 | DuplicateIndexEnum::getValues() succeeds with one key; the pass minted two different objects, one per factory in method order (`some`, then `another`), and the key holds the second, `another`'s |
| Fixtures.InvalidReturnTypePlan | test/Fixtures/InvalidReturnTypeEnum.php:15-25 | InvalidReturnTypeEnum's one factory mints a ColorEnum instance, and nothing rejects it |
| Fixtures.ForeignInstance | test/Fixtures/InvalidReturnTypeEnum.php:22-25 | InvalidReturnTypeEnum's array holds a ColorEnum instance under RED, minted while the flag was set and never cached for ColorEnum; ColorEnum::red() later returns a different object |
| Fixtures.SerializableRejected | tests/Fixtures/SerializableEnum.php:15 | SerializableEnum::getValues() raises DomainException, the same on a second call, and the class stays uninitialised |
| Fixtures.NonFinalRejected | src/Enumerable.php:128-132 | a non-final class raises DomainException on each getValues() and stays uninitialised |
| Fixtures.ScalarAfterRedPlan | src/Enumerable.php:147-155 | a class whose second factory returns a scalar mints RED and then fails on the getIndex() call |
| Fixtures.PartialEntry | src/Enumerable.php:146-158 | that class's first getValues() raises, but the entry created before the loop stays, so the second getValues() returns the partial array whose only key is RED |

## Left out

- Reflection (`ReflectionClass`, `getMethods`, `invoke`, at src/Enumerable.php:125, 144 and 153) is replaced by explicit class descriptors. The methods are in sequence order, taken as reflection's order; a class's own statics come before the inherited ones.
- A factory's body is one of three shapes: `return Owner::createEnum(index)`, a throw, or a return of something without `getIndex()`. A factory that calls `getValue`/`getValues` of any class during initialisation is not modelled; the nested `finally` would clear the global flag in the middle of the outer loop.
- The class table is fixed: every class named is loaded (`Registry` requires it). Autoloading a missing class, and its failure, are not modelled.
- The protected constructor and the private `__clone`, `__sleep` and `__wakeup` (src/Enumerable.php:194-198) are modelled only as the absence of any copy or serialise operation on `Enumerable`.
- PHP array-key coercion (a float or numeric string becoming an integer key) is not modelled: indices are integers or strings, and equal only when they are the same constructor and value.
- Exception messages are not formatted with sprintf. DomainException carries the class name, OutOfBoundsException the class name and the index, a thrown exception only its own description, and the failed `getIndex()` call the factory's name.
- The error raised by calling `getIndex()` on a non-Enumerable is modelled as `NoGetIndex(factory)`. The factory name is the model's own tag: PHP's `Error` names neither the factory nor the class, only the failed call ("Call to a member function getIndex() on int", "Call to undefined method X::getIndex()"). It is an exception that leaves the foreach and runs the `finally` at src/Enumerable.php:156-158. That is PHP 7 behaviour, where both a call on a scalar and a call of an undefined method throw `Error`; under PHP 5 both are fatal and end the script, so PartialEntry's second call would never happen. A factory that throws (`Throw` bodies) leaves the same partial entry under either version.
- Behaviour the package's tests expect but `src/Enumerable.php` does not implement is not modelled as source behaviour. This covers `getValueOf`, `equals` and its cross-type exception, rejection of duplicate indices, of float indices, of another class's instance and of a scalar return, the integer indices 0..2, and the serialisation round trip. The fixtures show what the code actually does instead: DuplicateIndexValues, ForeignInstance, PartialEntry.
- The ColorEnum that test/Fixtures/InvalidReturnTypeEnum.php and test/EnumerableTest.php use is `Test\LitGroup\Enumerable\Fixtures\ColorEnum`, and the one tests/EnumerableTest.php imports (line 14) is `LitGroup\Enumerable\Tests\Fixtures\ColorEnum`; neither is part of this model; the model uses tests/Fixtures/ColorEnum.php (namespace `Tests\...`) in place of both, assumed to declare the same constants and factories that those tests rely on.
- The non-final class and the class with a scalar second factory are stand-ins: the test fixtures NonFinalEnum and InvalidScalarReturnTypeEnum are not part of this model.
- Concurrency is not modelled; the code has one unsynchronised global flag and no threads.
