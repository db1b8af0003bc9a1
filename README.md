# config-composer: accessor synthesis, modelled in Dafny

`RuntimeConfigComposer` implements a configuration interface at run time.
The interface must be marked `@ConfigType`. Each method annotated
`@ConfigValue(atPath, mappedBy, validatedBy)` gets a generated body. That body:

1. reads the configuration at the path through a mapper;
2. casts the result to the class its return type calls for;
3. runs every declared validator on that value;
4. narrows, unboxes or reboxes the value for the declared return type.

Generated classes are named `com/mylaesoftware/<SimpleName>Impl<n>`, where
`n` comes from a per-composer counter. The static entry points `wire` and
`factory` go through a lazily created singleton composer.

This project models the behaviour of the generated bodies, not their
bytecode. The modules are:

- `JvmInts`: the narrowing primitive conversions of section 5.1.3 of the
  Java Language Specification (`byteValue`, `intValue` then `i2c`,
  `shortValue`), with the uniqueness and compatibility facts about them.
- `Values`: configuration values, `Config` as a map from paths to values,
  returned results and exceptions, and `CHECKCAST`.
- `Mappers`: the built-in mappers as typed lookups, custom mappers as
  arbitrary functions, and the `COLLECTIONS_MAPPERS` table.
- `TypeNames`: return classes, the `is*Type` predicates, and
  `getSingleTypeParameterClass` on the text of the generic return type.
- `Validation`: the validator pipeline, both as a function and as the loop
  the generated code runs.
- `Synthesis`: the dispatch of `generateConfigValueMethod`, the body it
  synthesises, and what running that body does.
- `Naming`: generated class names, with a decimal round trip that makes
  them injective in the counter.
- `Composer`: the gate of `generate` and the loop of `implementInterface`,
  method lookup on an instance, and the mutable state. That state is a
  class `RuntimeConfigComposer` holding the counter `ai`, and a class
  `Statics` holding `SINGLETON`.
- `Scenarios`: the repository's test cases, worked through the model.

Two behaviours of the code are worth stating:

- `wireConfig` calls `generate` on every call. No compiled class is cached
  per schema, so every wiring of an accepted schema consumes a new name,
  even when synthesis or binding then fails.
- There is no "unsupported type" error. Any return type the dispatch chain
  does not recognise falls through to `AnyRefM` and a cast to `Object`.

The repository's "one passing and one failing validator" fixtures
(runtime-processor/src/test/java/com/mylaesoftware/interfaces/ValidatedConfigTypes.java:27-28)
in fact declare two failing validators, so the tests that use them never run
a passing validator before a failing one. `Validation.PassThenFail` states
that case from the pipeline itself, and
`Validation.OnePassingOneFailingFixture` states what those fixtures
actually check.

## Model

| member | source | states |
|---|---|---|
| JvmInts.ByteValue | runtime-processor/src/main/java/com/mylaesoftware/RuntimeConfigComposer.java:482-498 | the byte returned is congruent to the mapped int modulo 2^8, and lies in the signed 8-bit range by its type |
| JvmInts.CharValue | runtime-processor/src/main/java/com/mylaesoftware/RuntimeConfigComposer.java:503-520 | the char returned is congruent to the int modulo 2^16, and is unsigned 16-bit by its type |
| JvmInts.ShortValue | runtime-processor/src/main/java/com/mylaesoftware/RuntimeConfigComposer.java:525-541 | the short returned is congruent to the int modulo 2^16, and is signed 16-bit by its type |
| JvmInts.ByteValueUnique | runtime-processor/src/main/java/com/mylaesoftware/RuntimeConfigComposer.java:482-498 | the byte conversion is the only signed 8-bit value congruent to the int, so it is exactly "low 8 bits, sign-extended" |
| JvmInts.CharValueUnique | runtime-processor/src/main/java/com/mylaesoftware/RuntimeConfigComposer.java:503-520 | the char conversion is the only unsigned 16-bit value congruent to the int: "low 16 bits, unsigned" |
| JvmInts.ShortValueUnique | runtime-processor/src/main/java/com/mylaesoftware/RuntimeConfigComposer.java:525-541 | the short conversion is the only signed 16-bit value congruent to the int: "low 16 bits, sign-extended" |
| JvmInts.NarrowingKeepsInRangeValues | runtime-processor/src/main/java/com/mylaesoftware/RuntimeConfigComposer.java:482-541 | a value that already fits the narrower type comes back unchanged |
| JvmInts.ShortIsSignedChar | runtime-processor/src/main/java/com/mylaesoftware/RuntimeConfigComposer.java:503-541 | the short and the char of one int hold the same 16 bits; the short reads them as signed |
| JvmInts.ByteOfShort | runtime-processor/src/main/java/com/mylaesoftware/RuntimeConfigComposer.java:482-541 | narrowing to short and then to byte gives the byte of the original int |
| JvmInts.NarrowingExamples | runtime-processor/src/test/java/com/mylaesoftware/RuntimeConfigComposerTest.java:76-95 | worked values: 300 becomes byte 44, 0x80 becomes -128, -1 becomes char 0xffff, 32768 becomes short -32768, and the test values 0x7f, 0x43 and 32767 are kept |
| Values.CheckCast | runtime-processor/src/main/java/com/mylaesoftware/RuntimeConfigComposer.java:668-678 | `CHECKCAST`: null and instances of the target class pass unchanged, anything else throws `ClassCastException`; `Synthesis.DefaultMapperPassesCast` shows that no default mapper's result is ever refused |
| Values.CastToObjectNeverFails | runtime-processor/src/main/java/com/mylaesoftware/RuntimeConfigComposer.java:275-281 | the cast to `Object` in the fall-through branch never fails |
| Mappers.Choose | runtime-processor/src/main/java/com/mylaesoftware/RuntimeConfigComposer.java:295-297 | `NoMapper` keeps the family default, and any other declared mapper replaces it |
| Mappers.StringElementsUseStringListM | runtime-processor/src/main/java/com/mylaesoftware/RuntimeConfigComposer.java:63-73 | `COLLECTIONS_MAPPERS` (the constant `Mappers.CollectionsMappers`, with all eight entries) maps `String` elements to `StringListM` |
| Mappers.Accepts | runtime-processor/src/main/java/com/mylaesoftware/RuntimeConfigComposer.java:668-678 | the value shape each built-in mapper reads; `Mappers.ApplyMapper` states that a value of another shape fails as wrong type |
| Mappers.AcceptsElement | runtime-processor/src/main/java/com/mylaesoftware/RuntimeConfigComposer.java:63-73 | the element shape each list mapper of `COLLECTIONS_MAPPERS` reads; `Scenarios.StringListScenario` shows a non-string element refused |
| Mappers.ApplyMapper | runtime-processor/src/main/java/com/mylaesoftware/RuntimeConfigComposer.java:668-678 | a built-in mapper fails as missing exactly when the path is absent; it returns the stored value only when that value has the mapper's type, and otherwise fails as wrong type |
| Mappers.BuiltInMapperReadsOnlyItsPath | runtime-processor/src/main/java/com/mylaesoftware/RuntimeConfigComposer.java:668-678 | a built-in mapper's result depends only on the value at its own path |
| TypeNames.IsIreturnType | runtime-processor/src/main/java/com/mylaesoftware/RuntimeConfigComposer.java:153-157 | byte, char, short, int and their boxes; `Synthesis.FamilyOfClassifies` states they take the int-family branch |
| TypeNames.IsJreturnType | runtime-processor/src/main/java/com/mylaesoftware/RuntimeConfigComposer.java:160-162 | long and `Long`; `Synthesis.FamilyOfClassifies` states they take the long branch |
| TypeNames.IsDreturnType | runtime-processor/src/main/java/com/mylaesoftware/RuntimeConfigComposer.java:164-168 | float, double and their boxes; `Synthesis.FamilyOfClassifies` states they take the floating-point branch |
| TypeNames.IsZreturnType | runtime-processor/src/main/java/com/mylaesoftware/RuntimeConfigComposer.java:170-172 | boolean and `Boolean`; `Synthesis.FamilyOfClassifies` states they take the boolean branch |
| TypeNames.IsBoxType | runtime-processor/src/main/java/com/mylaesoftware/RuntimeConfigComposer.java:174-178 | the eight wrapper classes; `Synthesis.PrimitiveAndBoxBodies` states that only the return conversion depends on it |
| TypeNames.IsByteType | runtime-processor/src/main/java/com/mylaesoftware/RuntimeConfigComposer.java:180-182 | byte and `Byte`; `Synthesis.IntegralAccessorValidatesThenNarrows` states that they return the byte of the mapped int |
| TypeNames.IsCharType | runtime-processor/src/main/java/com/mylaesoftware/RuntimeConfigComposer.java:184-186 | char and `Character`; `Synthesis.IntegralAccessorValidatesThenNarrows` states that they return the char of the mapped int |
| TypeNames.IsShortType | runtime-processor/src/main/java/com/mylaesoftware/RuntimeConfigComposer.java:188-190 | short and `Short`; `Synthesis.IntegralAccessorValidatesThenNarrows` states that they return the short of the mapped int |
| TypeNames.IsFloatType | runtime-processor/src/main/java/com/mylaesoftware/RuntimeConfigComposer.java:192-194 | float and `Float`; the float conversion is kept symbolic, as listed under Left out |
| TypeNames.IndexOf | runtime-processor/src/main/java/com/mylaesoftware/RuntimeConfigComposer.java:207-210 | `indexOf` gives -1 exactly when the character is absent; otherwise it gives a position holding the character with no earlier occurrence |
| TypeNames.SingleTypeParameter | runtime-processor/src/main/java/com/mylaesoftware/RuntimeConfigComposer.java:204-213 | no parameter exactly when `<` or `>` is missing; otherwise the text strictly between the first `<` and the first `>`; a `>` before every `<` throws exactly then |
| TypeNames.SingleTypeParameterOfGenericName | runtime-processor/src/main/java/com/mylaesoftware/RuntimeConfigComposer.java:204-213 | extraction inverts writing `List<E>`: the element name written is the one read back |
| Validation.Validate | runtime-processor/src/main/java/com/mylaesoftware/RuntimeConfigComposer.java:683-732 | succeeds exactly when the collected errors are empty, and then returns the value unchanged; otherwise it throws one exception carrying all of them |
| Validation.RunValidation | runtime-processor/src/main/java/com/mylaesoftware/RuntimeConfigComposer.java:683-776 | the loop of one `addAll` per validator followed by the `isEmpty` test yields exactly `Validate` |
| Validation.AllErrors | runtime-processor/src/main/java/com/mylaesoftware/RuntimeConfigComposer.java:699-702 | every validator's errors, concatenated in declared order; `Validation.ErrorsInDeclaredOrder` and `Validation.FailsIffSomeValidatorFails` state it |
| Validation.AllErrorsAppend | runtime-processor/src/main/java/com/mylaesoftware/RuntimeConfigComposer.java:699-702 | collecting over two runs of validators concatenates their error lists |
| Validation.ErrorsInDeclaredOrder | runtime-processor/src/main/java/com/mylaesoftware/RuntimeConfigComposer.java:699-702 | no short circuit: each validator's errors appear whole, between those of earlier and of later validators |
| Validation.FailsIffSomeValidatorFails | runtime-processor/src/main/java/com/mylaesoftware/RuntimeConfigComposer.java:683-732 | validation fails if and only if some validator reports an error |
| Validation.NoValidatorsNoCheck | runtime-processor/src/main/java/com/mylaesoftware/RuntimeConfigComposer.java:687 | with no validators declared the value passes unchecked |
| Validation.PassThenFail | runtime-processor/src/main/java/com/mylaesoftware/RuntimeConfigComposer.java:699-702 | a passing validator followed by a failing one yields exactly the failing one's error |
| Validation.OnePassingOneFailingFixture | runtime-processor/src/test/java/com/mylaesoftware/RuntimeConfigComposerTest.java:360-364 | the fixture called "one passing and one failing" declares two failing validators; its exception carries both errors, so it contains "Failure A" as the test expects |
| Validation.FailThenFail | runtime-processor/src/test/java/com/mylaesoftware/RuntimeConfigComposerTest.java:651-658 | two failing validators report both errors, in declared order |
| Synthesis.FamilyOf | runtime-processor/src/main/java/com/mylaesoftware/RuntimeConfigComposer.java:261-281 | the dispatch chain of `generateConfigValueMethod`; `Synthesis.FamilyOfClassifies` states that each branch is taken exactly for the types its test accepts, `Synthesis.FamiliesAreDisjoint` that the tests never overlap |
| Synthesis.FamilyOfClassifies | runtime-processor/src/main/java/com/mylaesoftware/RuntimeConfigComposer.java:261-281 | each branch of the dispatch chain is taken exactly for the return types its test accepts: void, String, the int family, long, float/double, boolean, List |
| Synthesis.FamiliesAreDisjoint | runtime-processor/src/main/java/com/mylaesoftware/RuntimeConfigComposer.java:153-172 | the tests `isIreturnType`, `isJreturnType`, `isDreturnType` and `isZreturnType` never overlap each other, nor void, String or List |
| Synthesis.CanonicalOf | runtime-processor/src/main/java/com/mylaesoftware/RuntimeConfigComposer.java:302-462 | the class each family's getter casts to (String, Integer, Long, Double, Boolean, List, Object); `Synthesis.DefaultMapperPerFamily` states it per family |
| Synthesis.DefaultMapper | runtime-processor/src/main/java/com/mylaesoftware/RuntimeConfigComposer.java:261-281 | each family's default mapper; `Synthesis.DefaultMapperPerFamily` and `Synthesis.ListMapperSelection` state it family by family |
| Synthesis.ConversionOf | runtime-processor/src/main/java/com/mylaesoftware/RuntimeConfigComposer.java:332-439 | the return conversion each return type gets (narrowing for byte, char, short and float, unboxing for other primitives, the reference itself for boxes and objects); `Synthesis.PrimitiveAndBoxBodies` and `Synthesis.ConversionsAgree` state how primitive and box conversions relate |
| Synthesis.DefaultListMapper | runtime-processor/src/main/java/com/mylaesoftware/RuntimeConfigComposer.java:445-477 | the default list mapper is either `AnyRefListM` or one registered in the table |
| Synthesis.SynthesizeBody | runtime-processor/src/main/java/com/mylaesoftware/RuntimeConfigComposer.java:245-285 | a void method gets a bare return; only a list accessor can fail synthesis; every getter names a real mapper |
| Synthesis.DefaultMapperPerFamily | runtime-processor/src/main/java/com/mylaesoftware/RuntimeConfigComposer.java:261-281 | with no declared mapper: String gets StringM, the int family IntM, long LongM, float/double DoubleM, boolean BooleanM and any other type AnyRefM, each with its family's cast, path and validators |
| Synthesis.ListMapperSelection | runtime-processor/src/main/java/com/mylaesoftware/RuntimeConfigComposer.java:445-477 | a raw List gets `AnyRefListM`; a registered element gets its table mapper; an unregistered one gets `AnyRefListM`; an unloadable element class fails; the cast is to `List` |
| Synthesis.CustomMapperReplacesDefault | runtime-processor/src/main/java/com/mylaesoftware/RuntimeConfigComposer.java:295-297 | a declared mapper changes only the mapper: path, cast, validators and return conversion stay, and so does success or failure |
| Synthesis.Run | runtime-processor/src/main/java/com/mylaesoftware/RuntimeConfigComposer.java:607-625 | what a synthesised body does when called; `Synthesis.RunStages` states its three stages, `Synthesis.IntegralAccessorValidatesThenNarrows` and `Synthesis.WideAccessorReturnsMappedValue` its result per family |
| Synthesis.CastValue | runtime-processor/src/main/java/com/mylaesoftware/RuntimeConfigComposer.java:668-678 | the mapped value after the cast, which the validators see; `Synthesis.RunStages` states that validation runs on it |
| Synthesis.ReturnValue | runtime-processor/src/main/java/com/mylaesoftware/RuntimeConfigComposer.java:482-600 | the return conversion of a validated value: unboxing throws on null, narrowing keeps the low bits; `Synthesis.ConversionsAgree` and `Synthesis.NullFromCustomMapper` state its behaviour |
| Synthesis.Wrap | runtime-processor/src/main/java/com/mylaesoftware/RuntimeConfigComposer.java:630-639 | a primitive result, reboxed through `valueOf` for a wrapper return type; `Synthesis.BoxedAndPrimitiveAgree` states that boxed and primitive accessors agree |
| Synthesis.DefaultMapperPassesCast | runtime-processor/src/main/java/com/mylaesoftware/RuntimeConfigComposer.java:668-678 | the cast after a default mapper never fails, so a `ClassCastException` can only come from a declared mapper |
| Synthesis.RunStages | runtime-processor/src/main/java/com/mylaesoftware/RuntimeConfigComposer.java:607-625 | a getter maps and casts, then validates that canonical value, and only then converts it for return |
| Synthesis.IntegralAccessorValidatesThenNarrows | runtime-processor/src/main/java/com/mylaesoftware/RuntimeConfigComposer.java:312-341 | an int-family accessor's validators judge the mapped `Integer` itself; only a value they pass is narrowed, and narrowing never fails |
| Synthesis.WideAccessorReturnsMappedValue | runtime-processor/src/main/java/com/mylaesoftware/RuntimeConfigComposer.java:346-440 | long, double, boolean, String, List and other accessors return the validated mapped value itself, unboxed for a primitive type |
| Synthesis.ConversionsAgree | runtime-processor/src/main/java/com/mylaesoftware/RuntimeConfigComposer.java:482-600 | on a non-null value, a primitive type's return conversion succeeds, and its box's conversion yields the box of the same primitive |
| Synthesis.BoxedAndPrimitiveAgree | runtime-processor/src/main/java/com/mylaesoftware/RuntimeConfigComposer.java:332-340 | for a non-null mapped value, the boxed accessor returns the box of what the primitive accessor returns, and both fail alike |
| Synthesis.PrimitiveAndBoxBodies | runtime-processor/src/main/java/com/mylaesoftware/RuntimeConfigComposer.java:312-440 | the bodies for a primitive type and its box differ only in the return conversion |
| Synthesis.BodiesAgree | runtime-processor/src/main/java/com/mylaesoftware/RuntimeConfigComposer.java:482-600 | two getters differing only in a primitive's and its box's conversion give the same value, boxed versus unboxed |
| Synthesis.NullFromCustomMapper | runtime-processor/src/main/java/com/mylaesoftware/RuntimeConfigComposer.java:546-561 | a null from a custom mapper makes an `int` accessor throw on unboxing, while an `Integer` accessor returns the null |
| Synthesis.RunReadsOnlyItsPath | runtime-processor/src/main/java/com/mylaesoftware/RuntimeConfigComposer.java:299-302 | two configurations that agree at an accessor's path give the same result for a built-in mapper |
| Naming.GeneratedName | runtime-processor/src/main/java/com/mylaesoftware/RuntimeConfigComposer.java:127 | `PACKAGE + "/" + simpleName + "Impl" + n`; `Naming.GeneratedNameInjective` states that names are equal exactly when simple name and counter are |
| Naming.Decimal | runtime-processor/src/main/java/com/mylaesoftware/RuntimeConfigComposer.java:127 | the counter is written as a non-empty run of digits with no leading zero |
| Naming.ParseDecimalOfDecimal | runtime-processor/src/main/java/com/mylaesoftware/RuntimeConfigComposer.java:127 | reading the digits back gives the counter value they were written from |
| Naming.CounterOfGeneratedName | runtime-processor/src/main/java/com/mylaesoftware/RuntimeConfigComposer.java:127 | a generated name carries its counter value in its trailing digits |
| Naming.GeneratedNameInjective | runtime-processor/src/main/java/com/mylaesoftware/RuntimeConfigComposer.java:127 | two generated names are equal if and only if their simple names and their counter values are |
| Composer.IsValidConfigInterface | runtime-processor/src/main/java/com/mylaesoftware/RuntimeConfigComposer.java:121-123 | an interface that carries `@ConfigType`; `Composer.CheckSchema` states that the gate passes exactly these |
| Composer.CheckSchema | runtime-processor/src/main/java/com/mylaesoftware/RuntimeConfigComposer.java:113-123 | a null class throws `NullPointerException`; a non-interface or unmarked class throws `IllegalArgumentException("Non config class")`; the gate passes exactly a marked interface |
| Composer.MethodsFor | runtime-processor/src/main/java/com/mylaesoftware/RuntimeConfigComposer.java:139-145 | one method for an annotated method, none for another; `Composer.SynthesizeAllSpec` states the result over the whole loop |
| Composer.Annotated | runtime-processor/src/main/java/com/mylaesoftware/RuntimeConfigComposer.java:139-145 | the methods kept are exactly the declared methods that carry `@ConfigValue`: every kept one is annotated and declared, and every annotated one is kept |
| Composer.AnnotatedInOrder | runtime-processor/src/main/java/com/mylaesoftware/RuntimeConfigComposer.java:139-145 | annotated methods keep their declaration order: each one follows exactly the annotated methods declared before it |
| Composer.SynthesizeAll | runtime-processor/src/main/java/com/mylaesoftware/RuntimeConfigComposer.java:139-145 | every synthesised method has a body that names a real mapper |
| Composer.SynthesizeAllSpec | runtime-processor/src/main/java/com/mylaesoftware/RuntimeConfigComposer.java:139-145 | generation fails exactly when some annotated method's body fails; on success, there is one method per annotated method, in order, with its synthesised body |
| Composer.SynthesizeAllFails | runtime-processor/src/main/java/com/mylaesoftware/RuntimeConfigComposer.java:139-145 | the loop fails if and only if some annotated method's body fails |
| Composer.SynthesizeAllFirstError | runtime-processor/src/main/java/com/mylaesoftware/RuntimeConfigComposer.java:139-145 | the error that escapes is that of the first annotated method, in declaration order, whose body fails |
| Composer.SynthesizeAllShape | runtime-processor/src/main/java/com/mylaesoftware/RuntimeConfigComposer.java:139-145 | on success, the i-th generated method is the one synthesised from the i-th annotated method |
| Composer.ImplementMethods | runtime-processor/src/main/java/com/mylaesoftware/RuntimeConfigComposer.java:139-145 | the imperative loop over the interface's methods yields exactly `SynthesizeAll` |
| Composer.SynthesisErrorPersists | runtime-processor/src/main/java/com/mylaesoftware/RuntimeConfigComposer.java:139-145 | once a prefix of the methods fails, the whole run fails with the same error |
| Composer.Generated | runtime-processor/src/main/java/com/mylaesoftware/RuntimeConfigComposer.java:113-150 | a generated class has well-formed bodies only |
| Composer.RefusalIgnoresMethods | runtime-processor/src/main/java/com/mylaesoftware/RuntimeConfigComposer.java:113-119 | an ineligible schema is refused with `IllegalArgumentException`, whatever methods it declares |
| Composer.RegenerationGivesNewName | runtime-processor/src/main/java/com/mylaesoftware/RuntimeConfigComposer.java:103-107 | generating again for the same schema gives the same methods under a different name, so nothing is cached |
| Composer.Invoke | runtime-processor/src/main/java/com/mylaesoftware/RuntimeConfigComposer.java:139-145 | calling a method on an instance; `Composer.InvokeUnannotated` and `Composer.InvokeFirstAnnotated` state what it runs |
| Composer.Bind | runtime-processor/src/main/java/com/mylaesoftware/DefaultConfigComposerFactory.java:16-23 | binding a configuration to a generated class, with `requireNonNull` on the configuration; `Composer.RuntimeConfigComposer.WireConfig` and `Scenarios.NullConfigurationScenario` state the null case |
| Composer.Lookup | runtime-processor/src/main/java/com/mylaesoftware/RuntimeConfigComposer.java:139-145 | finds nothing exactly when no method has the name; otherwise finds the first method with the name |
| Composer.GeneratedMethodAt | runtime-processor/src/main/java/com/mylaesoftware/RuntimeConfigComposer.java:139-145 | the k-th method of a generated class carries the k-th annotated method's name and its synthesised body |
| Composer.InvokeUnannotated | runtime-processor/src/main/java/com/mylaesoftware/RuntimeConfigComposer.java:139-145 | calling a name that no annotated method has is an abstract-method error |
| Composer.InvokeFirstAnnotated | runtime-processor/src/main/java/com/mylaesoftware/RuntimeConfigComposer.java:139-145 | calling a name runs the body synthesised for the first annotated method of that name, against the instance's configuration |
| Composer.GeneratedMethodsMatch | runtime-processor/src/main/java/com/mylaesoftware/RuntimeConfigComposer.java:139-145 | the generated class has one method per annotated method, with its name and synthesised body |
| Composer.LookupFirst | runtime-processor/src/main/java/com/mylaesoftware/RuntimeConfigComposer.java:139-145 | lookup returns the body of the first method carrying the name |
| Composer.FreshName | runtime-processor/src/main/java/com/mylaesoftware/RuntimeConfigComposer.java:127 | a name whose counter is the number already issued is not among them, and issuing it keeps each name's counter equal to its position |
| Composer.IssuedNamesDistinct | runtime-processor/src/main/java/com/mylaesoftware/RuntimeConfigComposer.java:79 | the names a composer has issued are pairwise distinct |
| Composer.RuntimeConfigComposer.constructor | runtime-processor/src/main/java/com/mylaesoftware/RuntimeConfigComposer.java:79-83 | a new composer starts with counter 0 and has issued no names |
| Composer.RuntimeConfigComposer.Generate | runtime-processor/src/main/java/com/mylaesoftware/RuntimeConfigComposer.java:113-150 | the result is the class for the counter value before the call; a refused schema leaves the counter alone; an accepted one advances it by one, even when synthesis then fails; a generated name was never issued before |
| Composer.RuntimeConfigComposer.WireConfig | runtime-processor/src/main/java/com/mylaesoftware/RuntimeConfigComposer.java:103-107 | generates anew, then ensures the singleton exists, then binds; a singleton created by the call starts with counter 0; a null configuration throws only after generation has consumed a name |
| Composer.Statics.constructor | runtime-processor/src/main/java/com/mylaesoftware/RuntimeConfigComposer.java:75 | `SINGLETON` starts out null |
| Composer.Statics.EnsureSingleton | runtime-processor/src/main/java/com/mylaesoftware/RuntimeConfigComposer.java:85-92 | the first call creates a fresh composer with counter 0; every later call returns that same instance |
| Composer.Statics.Wire | runtime-processor/src/main/java/com/mylaesoftware/RuntimeConfigComposer.java:94-96 | the static `wire` runs the singleton's `wireConfig`; the singleton is created at most once, and its counter advances once per accepted schema |
| Scenarios.SingleStringScenario | runtime-processor/src/test/java/com/mylaesoftware/RuntimeConfigComposerTest.java:69-74 | the single-string interface returns the stored string, fails as missing on an empty configuration, and treats an unannotated name as abstract |
| Scenarios.StringListElement | runtime-processor/src/main/java/com/mylaesoftware/RuntimeConfigComposer.java:204-213 | the element class of `java.util.List<java.lang.String>` is `java.lang.String` |
| Scenarios.StringListMapperScenario | runtime-processor/src/main/java/com/mylaesoftware/RuntimeConfigComposer.java:445-462 | a `List<String>` accessor picks `StringListM` |
| Scenarios.StringListTextScenario | runtime-processor/src/main/java/com/mylaesoftware/RuntimeConfigComposer.java:445-462 | the accessor declared with return type `List<String>` picks `StringListM` |
| Scenarios.StringListScenario | runtime-processor/src/test/java/com/mylaesoftware/RuntimeConfigComposerTest.java:284-289 | the string list comes back whole and in order; a list with a non-string element is refused |
| Scenarios.ByteValidatedBeforeNarrowing | runtime-processor/src/main/java/com/mylaesoftware/RuntimeConfigComposer.java:325-333 | the validator sees 300 and passes it, and the accessor returns byte 44; a value of 44 is refused by the same validator |
| Scenarios.CustomCharMapperScenario | runtime-processor/src/test/java/com/mylaesoftware/RuntimeConfigComposerTest.java:206-210 | a custom mapper yielding 42 makes a boxed `Character` accessor return `'*'` |
| Scenarios.RefusalScenarios | runtime-processor/src/test/java/com/mylaesoftware/RuntimeConfigComposerTest.java:40-62 | a null class, a non-interface and an unmarked interface are each refused with the right exception |
| Scenarios.NullConfigurationScenario | runtime-processor/src/test/java/com/mylaesoftware/RuntimeConfigComposerTest.java:46-50 | wiring through the static `wire` with a null configuration throws `NullPointerException` after the class was generated, so the singleton's counter has reached 1 |
| Scenarios.RewiringScenario | runtime-processor/src/main/java/com/mylaesoftware/RuntimeConfigComposer.java:94-107 | two static wirings of one schema get counter values 0 and 1, so two distinct class names |

## Left out

- ASM bytecode emission is not modelled: `ClassWriter`, stack shuffling, `visitMaxs`, the config field and the constructor. Only the behaviour of each generated method is modelled.
- Class realisation through `DefineClassStrategy`, and JVM bytecode verification of the generated class, are foreign calls and are not modelled. The model assumes that every generated class loads.
- Reflection is not modelled. A schema is a given sequence of accessor descriptors, in `getMethods()` order. A return class is a `JClass` value, and the generic return type is its text.
- Composer.Lookup: parameter lists are not modelled. A method is identified by its name alone, whereas the generated class declares each annotated method under its name and its own descriptor (RuntimeConfigComposer.java:253-259), so overloaded annotated methods are not told apart and the first of that name is found.
- Composer.Invoke: for the same reason a call names a method but not its parameter types; `Composer.InvokeFirstAnnotated` states what calling a name does, which is the source's behaviour for any schema without overloaded annotated methods.
- Interface default and static methods are not modelled separately. An unannotated method simply gets no body, and invoking it is modelled as an abstract-method error.
- Concurrency is not modelled: the `synchronized` block in `ensureSingleton` and the atomicity of `AtomicInteger`. Both are modelled sequentially.
- Composer.RuntimeConfigComposer.Generate: the counter is an unbounded `nat`. The wrap-around of `AtomicInteger` after 2^31 generations, which would produce a negative suffix, is not modelled.
- Floating point is kept symbolic. A `double` is an opaque 64-bit pattern, and `Double.floatValue` is the uninterpreted `FloatValueOf`.
- The Typesafe `Config` library is not modelled. It becomes a map from full paths to values. Its built-in mappers (`BasicMappers`, `CollectionsMappers`) become typed lookups that fail as missing or as wrong type; their real coercions, such as string-to-number parsing, are not modelled.
- The value and class types admit spellings the JVM does not have. An `Obj` value may name `java.lang.String` or a list class, and `CHECKCAST` then refuses it where the JVM would pass it. A `RefClass` may name a wrapper class, and the dispatch then sends it to the fall-through branch rather than the family of its `BoxClass`. Strings, lists and wrapper classes are meant to be written as `Str`, `ListOf` and `BoxClass`; the model promises nothing for the other spellings.
- A validator is a function from a value to its list of errors. A validator that throws or returns null is not modelled.
- `Class.forName` becomes membership in a given set of loadable class names. Its `ClassNotFoundException`, wrapped in a `RuntimeException`, becomes the single error `ClassNotFound(name)`.
- `DefaultConfigComposerFactory` (runtime-processor/src/main/java/com/mylaesoftware/DefaultConfigComposerFactory.java:16-23) is modelled only as its null check on the configuration followed by storing it. The reflective constructor call and its `[BUG]` wrapping are not modelled.
- `generateFactory` and the public static `factory` entry point are not modelled separately. They appear only as the `ensureSingleton` call inside `wireConfig`.
