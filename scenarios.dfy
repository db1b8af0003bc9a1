/**
 * Concrete schemas and configurations, worked through the model: the
 * single-string schema, a list of strings, narrowing a byte after its
 * validator has seen the full `Integer`, and the refusals of `generate`.
 */
module Scenarios {
  import opened JvmInts
  import opened Values
  import opened Mappers
  import opened TypeNames
  import opened Validation
  import opened Synthesis
  import opened Naming
  import opened Composer

  const StringAccessor := AccessorMethod("getTestPath", StringType, StringClass,
    Some(ConfigValue("test.string", NoMapper, [])))

  /** An interface with one `String` accessor at `test.string`. */
  const SingleConfigType := Schema("SingleConfigType", true, true, [StringAccessor])

  /** The single-string schema reads the string stored at its path. */
  lemma SingleStringScenario(n: nat, classPath: set<string>)
    ensures var cls := Generated(Some(SingleConfigType), n, classPath);
      && cls.Ok?
      && cls.value.name == GeneratedName("SingleConfigType", n)
      && Invoke(Instance(cls.value, map["test.string" := Str("some-test-value")]), "getTestPath")
         == Ok(Reference(Str("some-test-value")))
      && Invoke(Instance(cls.value, map[]), "getTestPath") == Err(ConfigMissing("test.string"))
      && Invoke(Instance(cls.value, map[]), "other") == Err(AbstractMethod("other"))
  {
    var body := Getter(StringM, "test.string", CanonString, [], AsReference);
    assert SynthesizeBody(StringAccessor, StringAccessor.annotation.value, classPath) == Ok(body);
    assert MethodsFor(StringAccessor, classPath) == Ok([GeneratedMethod("getTestPath", body)]);
    assert [StringAccessor][..0] == [];
    assert SynthesizeAll([], classPath) == Ok([]);
    assert SynthesizeAll([StringAccessor], classPath) == Ok([] + [GeneratedMethod("getTestPath", body)]);
  }

  /** The text of the generic return type `List<String>`. */
  const StringListText := GenericName(ListClass, StringClass, "")

  /** The element class of `java.util.List<java.lang.String>`. */
  lemma StringListElement()
    ensures SingleTypeParameter(StringListText) == Ok(Some(StringClass))
  {
    SingleTypeParameterOfGenericName(ListClass, StringClass, "");
  }

  /**
   * A list accessor at `a.b` whose generic return type names `String` as
   * its element (as `StringListText` does) picks `StringListM`.
   */
  lemma StringListMapperScenario(generic: string, classPath: set<string>)
    requires SingleTypeParameter(generic) == Ok(Some(StringClass)) && StringClass in classPath
    ensures var m := AccessorMethod("stringList", ListType, generic, Some(ConfigValue("a.b", NoMapper, [])));
      SynthesizeBody(m, m.annotation.value, classPath) == Ok(Getter(StringListM, "a.b", CanonList, [], AsReference))
  {
    StringElementsUseStringListM();
  }

  /** The `List<String>` accessor itself picks `StringListM`. */
  lemma StringListTextScenario(classPath: set<string>)
    requires StringClass in classPath
    ensures var m := AccessorMethod("stringList", ListType, StringListText, Some(ConfigValue("a.b", NoMapper, [])));
      SynthesizeBody(m, m.annotation.value, classPath) == Ok(Getter(StringListM, "a.b", CanonList, [], AsReference))
  {
    StringListElement();
    StringListMapperScenario(StringListText, classPath);
  }

  /** The string-list getter returns the configured list, in order, and refuses a non-string element. */
  lemma StringListScenario()
    ensures var b := Getter(StringListM, "a.b", CanonList, [], AsReference);
      var items := [Str("one"), Str("two"), Str("three")];
      && Run(b, map["a.b" := ListOf(items)]) == Ok(Reference(ListOf(items)))
      && Run(b, map["a.b" := ListOf([Str("one"), Box(PInt(2))])]) == Err(ConfigWrongType("a.b"))
  {
    var items := [Str("one"), Str("two"), Str("three")];
    assert Accepts(StringListM, ListOf(items));
    assert !AcceptsElement(StringListM, ListOf([Str("one"), Box(PInt(2))]).items[1]);
  }

  /** A validator that accepts exactly the `Integer` 300. */
  const Only300: Validator := v => if v == Box(PInt(300)) then [] else ["not 300"]

  /**
   * A `byte` accessor over the value 300: the validator sees 300, not the
   * narrowed byte, and passes it; the accessor then returns the low byte, 44.
   */
  lemma ByteValidatedBeforeNarrowing(classPath: set<string>)
    ensures var m := AccessorMethod("byteValue", PrimClass(ByteK), "byte", Some(ConfigValue("test.byte", NoMapper, [Only300])));
      var b := SynthesizeBody(m, m.annotation.value, classPath);
      && b.Ok?
      && Run(b.value, map["test.byte" := Box(PInt(300))]) == Ok(Primitive(PByte(44)))
      && Run(b.value, map["test.byte" := Box(PInt(44))]) == Err(ConfigValidation(["not 300"]))
  {
    var m := AccessorMethod("byteValue", PrimClass(ByteK), "byte", Some(ConfigValue("test.byte", NoMapper, [Only300])));
    assert [Only300][..0] == [];
    IntegralAccessorValidatesThenNarrows(m, m.annotation.value, classPath, map["test.byte" := Box(PInt(300))], 300);
    IntegralAccessorValidatesThenNarrows(m, m.annotation.value, classPath, map["test.byte" := Box(PInt(44))], 44);
    assert ByteValue(300) == 44;
  }

  /** A custom mapper yielding 42 makes a boxed `Character` accessor return `'*'`. */
  lemma CustomCharMapperScenario(classPath: set<string>, config: Config)
    ensures var custom := Custom("FortyTwo", (c: Config, p: string) => Ok(Box(PInt(42))));
      var m := AccessorMethod("customBoxedChar", BoxClass(CharK), "java.lang.Character",
                              Some(ConfigValue("test.char", custom, [])));
      var b := SynthesizeBody(m, m.annotation.value, classPath);
      b.Ok? && Run(b.value, config) == Ok(Reference(Box(PChar('*' as int as char16))))
  {
    var custom := Custom("FortyTwo", (c: Config, p: string) => Ok(Box(PInt(42))));
    var m := AccessorMethod("customBoxedChar", BoxClass(CharK), "java.lang.Character",
                            Some(ConfigValue("test.char", custom, [])));
    IntegralAccessorValidatesThenNarrows(m, m.annotation.value, classPath, config, 42);
  }

  /** Refusals: a null class, a class, and an interface without `@ConfigType`. */
  lemma RefusalScenarios(n: nat, classPath: set<string>)
    ensures Generated(None, n, classPath) == Err(NullPointer)
    ensures Generated(Some(SingleConfigType.(isInterface := false)), n, classPath)
         == Err(IllegalArgument("Non config class"))
    ensures Generated(Some(SingleConfigType.(configTypeMarked := false)), n, classPath)
         == Err(IllegalArgument("Non config class"))
  {
  }

  /** An interface marked `@ConfigType` that declares no methods. */
  const EmptyConfigType := Schema("EmptyConfigType", true, true, [])

  /** Wiring with a null configuration fails only after the class was generated. */
  method NullConfigurationScenario() returns (r: Result<Instance>, statics: Statics)
    ensures r == Err(NullPointer)
    ensures statics.singleton != null && statics.singleton.ai == 1
  {
    statics := new Statics();
    r := statics.Wire(Some(EmptyConfigType), None, {});
    assert Generated(Some(EmptyConfigType), 0, {}).Ok?;
  }

  /** Two wirings of the same schema through the static entry point use two class names. */
  method RewiringScenario() returns (first: Result<Instance>, second: Result<Instance>)
    ensures first.Ok? && second.Ok?
    ensures first.value.cls.name == GeneratedName("SingleConfigType", 0)
    ensures second.value.cls.name == GeneratedName("SingleConfigType", 1)
    ensures first.value.cls.name != second.value.cls.name
  {
    var statics := new Statics();
    var config := map["test.string" := Str("some-test-value")];
    SingleStringScenario(0, {});
    SingleStringScenario(1, {});
    first := statics.Wire(Some(SingleConfigType), Some(config), {});
    assert statics.singleton.ai == 1;
    second := statics.Wire(Some(SingleConfigType), Some(config), {});
    GeneratedNameInjective("SingleConfigType", 0, "SingleConfigType", 1);
  }
}
