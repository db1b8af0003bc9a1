/**
 * Accessor synthesis (`generateConfigValueMethod` and the `generate*Getter`
 * / `generate*Return` family): for one annotated interface method, the body
 * the generated class gets, and what that body does when it is called.
 *
 * A body maps the configuration with the chosen mapper, casts the result to
 * the canonical class of the return type's family, runs the validators on
 * that canonical value, and only then narrows, unboxes or reboxes it for the
 * declared return type.
 */
module Synthesis {
  import opened JvmInts
  import opened Values
  import opened Mappers
  import opened TypeNames
  import opened Validation

  /** The `@ConfigValue` annotation: path, declared mapper and validators. */
  datatype ConfigValue = ConfigValue(atPath: string, mappedBy: Mapper, validatedBy: seq<Validator>)

  /** An interface method as reflection shows it. */
  datatype AccessorMethod = AccessorMethod(
    name: string,
    returnType: JClass,         // the erased return class
    genericReturnType: string,  // the text of the generic return type
    annotation: Option<ConfigValue>)

  /** The branch of `generateConfigValueMethod` a return type takes. */
  datatype Family =
    | VoidFamily | StringFamily | IntegralFamily | LongFamily
    | FloatingFamily | BooleanFamily | ListFamily | OtherFamily

  /** The if-chain over the return type, tried in this order. */
  function FamilyOf(returnType: JClass): Family {
    if returnType == VoidClass then VoidFamily
    else if returnType == StringType then StringFamily
    else if IsIreturnType(returnType) then IntegralFamily
    else if IsJreturnType(returnType) then LongFamily
    else if IsDreturnType(returnType) then FloatingFamily
    else if IsZreturnType(returnType) then BooleanFamily
    else if returnType == ListType then ListFamily
    else OtherFamily
  }

  /** The class a family's mapped value is cast to, and validated as. */
  function CanonicalOf(f: Family): Canonical {
    match f
    case StringFamily => CanonString
    case IntegralFamily => CanonInteger
    case LongFamily => CanonLong
    case FloatingFamily => CanonDouble
    case BooleanFamily => CanonBoolean
    case ListFamily => CanonList
    case _ => CanonObject
  }

  /** How the validated value becomes the method's result. */
  datatype ReturnConversion =
    | AsReference           // ARETURN of the mapped object itself
    | Unboxed               // intValue / longValue / doubleValue / booleanValue
    | ToByte(boxed: bool)   // byteValue, then Byte.valueOf when boxed
    | ToChar(boxed: bool)   // intValue and i2c, then Character.valueOf when boxed
    | ToShort(boxed: bool)  // shortValue, then Short.valueOf when boxed
    | ToFloat(boxed: bool)  // floatValue, then Float.valueOf when boxed

  /** The return conversion each getter emits for its return type. */
  function ConversionOf(returnType: JClass): ReturnConversion {
    match FamilyOf(returnType)
    case IntegralFamily =>
      if IsByteType(returnType) then ToByte(IsBoxType(returnType))
      else if IsCharType(returnType) then ToChar(IsBoxType(returnType))
      else if IsShortType(returnType) then ToShort(IsBoxType(returnType))
      else if IsBoxType(returnType) then AsReference else Unboxed
    case FloatingFamily =>
      if IsFloatType(returnType) then ToFloat(IsBoxType(returnType))
      else if IsBoxType(returnType) then AsReference else Unboxed
    case LongFamily => if IsBoxType(returnType) then AsReference else Unboxed
    case BooleanFamily => if IsBoxType(returnType) then AsReference else Unboxed
    case _ => AsReference
  }

  /** The body synthesised for one accessor. */
  datatype Body =
    | ReturnOnly  // a void method: a bare RETURN
    | Getter(mapper: Mapper, path: string, cast: Canonical,
             validators: seq<Validator>, conversion: ReturnConversion)

  /** The list mapper `generateListGetter` picks when none is declared. */
  function DefaultListMapper(genericReturnType: string, classPath: set<string>): (r: Result<Mapper>)
    ensures r.Ok? ==> r.value == AnyRefListM || exists e :: e in CollectionsMappers && CollectionsMappers[e] == r.value
  {
    var parameter :- SingleTypeParameter(genericReturnType);
    match parameter
    case None => Ok(AnyRefListM)
    case Some(element) =>
      if element !in classPath then Err(ClassNotFound(element))  // Class.forName fails
      else if element in CollectionsMappers then Ok(CollectionsMappers[element])
      else Ok(AnyRefListM)
  }

  /** The default mapper of each family (for a list: the element's list mapper). */
  function DefaultMapper(m: AccessorMethod, classPath: set<string>): Result<Mapper> {
    match FamilyOf(m.returnType)
    case StringFamily => Ok(StringM)
    case IntegralFamily => Ok(IntM)
    case LongFamily => Ok(LongM)
    case FloatingFamily => Ok(DoubleM)
    case BooleanFamily => Ok(BooleanM)
    case ListFamily => DefaultListMapper(m.genericReturnType, classPath)
    case _ => Ok(AnyRefM)
  }

  /**
   * `generateConfigValueMethod`: a void method returns at once; otherwise a
   * getter with the declared mapper (or the family's default), the family's
   * cast, the declared validators and the type's return conversion. Only a
   * list's element class can make synthesis fail.
   */
  function SynthesizeBody(m: AccessorMethod, value: ConfigValue, classPath: set<string>): (r: Result<Body>)
    ensures FamilyOf(m.returnType) == VoidFamily ==> r == Ok(ReturnOnly)
    ensures r.Err? ==> FamilyOf(m.returnType) == ListFamily
    ensures r.Ok? && r.value.Getter? ==> !r.value.mapper.NoMapper?
  {
    var f := FamilyOf(m.returnType);
    if f == VoidFamily then Ok(ReturnOnly)
    else
      var default :- DefaultMapper(m, classPath);
      Ok(Getter(Choose(value.mappedBy, default), value.atPath, CanonicalOf(f),
                value.validatedBy, ConversionOf(m.returnType)))
  }

  /** A body whose getter names a real mapper. */
  predicate WellFormed(b: Body) {
    b.Getter? ==> !b.mapper.NoMapper?
  }

  /** What the return conversion makes of a value that passed the cast and the validators. */
  function ReturnValue(conversion: ReturnConversion, v: Value): Result<Returned> {
    match conversion
    case AsReference => Ok(Reference(v))
    case Unboxed => if v.Box? then Ok(Primitive(v.p)) else Err(NullPointer)
    case ToByte(boxed) =>
      if v.Box? && v.p.PInt? then Ok(Wrap(PByte(ByteValue(v.p.i)), boxed)) else Err(NullPointer)
    case ToChar(boxed) =>
      if v.Box? && v.p.PInt? then Ok(Wrap(PChar(CharValue(v.p.i)), boxed)) else Err(NullPointer)
    case ToShort(boxed) =>
      if v.Box? && v.p.PInt? then Ok(Wrap(PShort(ShortValue(v.p.i)), boxed)) else Err(NullPointer)
    case ToFloat(boxed) =>
      if v.Box? && v.p.PDouble? then Ok(Wrap(PFloat(FloatValueOf(v.p.d)), boxed)) else Err(NullPointer)
  }

  /** A primitive result, boxed when the declared type is a wrapper class. */
  function Wrap(p: Prim, boxed: bool): Returned {
    if boxed then Reference(Box(p)) else Primitive(p)
  }

  /** Calling a synthesised method on an instance holding `config`. */
  function Run(body: Body, config: Config): Result<Returned>
    requires WellFormed(body)
  {
    match body
    case ReturnOnly => Ok(Nothing)
    case Getter(mapper, path, cast, validators, conversion) =>
      var raw :- ApplyMapper(mapper, config, path);
      var v :- CheckCast(raw, cast);
      var checked :- Validate(v, validators);
      ReturnValue(conversion, checked)
  }

  /** The value the mapper and the cast hand to the validators. */
  function CastValue(body: Body, config: Config): Result<Value>
    requires body.Getter? && !body.mapper.NoMapper?
  {
    var raw :- ApplyMapper(body.mapper, config, body.path);
    CheckCast(raw, body.cast)
  }

  // ---------------------------------------------------------------------
  // Dispatch
  // ---------------------------------------------------------------------

  /** Each family is exactly the return types its test accepts. */
  lemma FamilyOfClassifies(returnType: JClass)
    ensures FamilyOf(returnType) == VoidFamily <==> returnType == VoidClass
    ensures FamilyOf(returnType) == StringFamily <==> returnType == StringType
    ensures FamilyOf(returnType) == IntegralFamily <==> IsIreturnType(returnType)
    ensures FamilyOf(returnType) == LongFamily <==> IsJreturnType(returnType)
    ensures FamilyOf(returnType) == FloatingFamily <==> IsDreturnType(returnType)
    ensures FamilyOf(returnType) == BooleanFamily <==> IsZreturnType(returnType)
    ensures FamilyOf(returnType) == ListFamily <==> returnType == ListType
  {
  }

  /** The families' tests never overlap, so the chain's order decides nothing twice. */
  lemma FamiliesAreDisjoint(c: JClass)
    ensures c == VoidClass ==> !IsIreturnType(c) && !IsJreturnType(c) && !IsDreturnType(c) && !IsZreturnType(c)
    ensures c == StringType || c == ListType ==>
      !IsIreturnType(c) && !IsJreturnType(c) && !IsDreturnType(c) && !IsZreturnType(c)
    ensures IsIreturnType(c) ==> !IsJreturnType(c) && !IsDreturnType(c) && !IsZreturnType(c)
    ensures IsJreturnType(c) ==> !IsDreturnType(c) && !IsZreturnType(c)
    ensures IsDreturnType(c) ==> !IsZreturnType(c)
  {
  }

  /**
   * Every non-void accessor with no declared mapper gets its family's
   * default mapper and cast: String to StringM, the int family to IntM,
   * long to LongM, float and double to DoubleM, boolean to BooleanM, List
   * to a list mapper and anything else to AnyRefM.
   */
  lemma DefaultMapperPerFamily(m: AccessorMethod, value: ConfigValue, classPath: set<string>)
    requires value.mappedBy.NoMapper?
    requires FamilyOf(m.returnType) != VoidFamily
    requires FamilyOf(m.returnType) != ListFamily
    ensures SynthesizeBody(m, value, classPath).Ok?
    ensures SynthesizeBody(m, value, classPath).value.Getter?
    ensures var b := SynthesizeBody(m, value, classPath).value;
      && b.path == value.atPath && b.validators == value.validatedBy
      && (m.returnType == StringType ==> b.mapper == StringM && b.cast == CanonString)
      && (IsIreturnType(m.returnType) ==> b.mapper == IntM && b.cast == CanonInteger)
      && (IsJreturnType(m.returnType) ==> b.mapper == LongM && b.cast == CanonLong)
      && (IsDreturnType(m.returnType) ==> b.mapper == DoubleM && b.cast == CanonDouble)
      && (IsZreturnType(m.returnType) ==> b.mapper == BooleanM && b.cast == CanonBoolean)
      && (FamilyOf(m.returnType) == OtherFamily ==> b.mapper == AnyRefM && b.cast == CanonObject)
  {
  }

  /**
   * A list accessor with no declared mapper gets the list mapper registered
   * for its element class, and `AnyRefListM` for an unregistered element or
   * a raw `List`; an element class that cannot be loaded fails synthesis.
   */
  lemma ListMapperSelection(m: AccessorMethod, value: ConfigValue, classPath: set<string>)
    requires value.mappedBy.NoMapper? && m.returnType == ListType
    ensures var p := SingleTypeParameter(m.genericReturnType);
      var r := SynthesizeBody(m, value, classPath);
      && (p.Err? ==> r == Err(StringIndexOutOfBounds))
      && (p == Ok(None) ==> r.Ok? && r.value.mapper == AnyRefListM)
      && (p.Ok? && p.value.Some? ==>
            var e := p.value.value;
            && (e !in classPath ==> r == Err(ClassNotFound(e)))
            && (e in classPath && e in CollectionsMappers ==> r.Ok? && r.value.mapper == CollectionsMappers[e])
            && (e in classPath && e !in CollectionsMappers ==> r.Ok? && r.value.mapper == AnyRefListM))
      && (r.Ok? ==> r.value.Getter? && r.value.cast == CanonList && r.value.conversion == AsReference)
  {
  }

  /**
   * A declared mapper replaces the default and nothing else: the body keeps
   * the same path, cast, validators and return conversion.
   */
  lemma CustomMapperReplacesDefault(m: AccessorMethod, value: ConfigValue, custom: Mapper, classPath: set<string>)
    requires FamilyOf(m.returnType) != VoidFamily && !custom.NoMapper?
    ensures var dflt := SynthesizeBody(m, value.(mappedBy := NoMapper), classPath);
      var decl := SynthesizeBody(m, value.(mappedBy := custom), classPath);
      && (dflt.Ok? <==> decl.Ok?)
      && (dflt.Ok? ==> decl.value == dflt.value.(mapper := custom))
  {
  }

  /**
   * The cast after a default mapper never fails: each family's default
   * mapper yields a value of the class its getter casts to. A
   * `ClassCastException` can therefore only come from a declared mapper.
   */
  lemma DefaultMapperPassesCast(m: AccessorMethod, value: ConfigValue, classPath: set<string>, config: Config)
    requires value.mappedBy.NoMapper?
    requires SynthesizeBody(m, value, classPath).Ok? && SynthesizeBody(m, value, classPath).value.Getter?
    ensures var b := SynthesizeBody(m, value, classPath).value;
      var raw := ApplyMapper(b.mapper, config, b.path);
      raw.Ok? ==> CheckCast(raw.value, b.cast) == Ok(raw.value)
  {
  }

  // ---------------------------------------------------------------------
  // Validation before narrowing
  // ---------------------------------------------------------------------

  /**
   * A getter runs in three stages: mapping and cast, the validator
   * pipeline on that canonical value, and then the return conversion.
   */
  lemma {:induction false} RunStages(body: Body, config: Config)
    requires body.Getter? && !body.mapper.NoMapper?
    ensures var c := CastValue(body, config);
      && (c.Err? ==> Run(body, config) == Err(c.error))
      && (c.Ok? && AllErrors(body.validators, c.value) != [] ==>
            Run(body, config) == Err(ConfigValidation(AllErrors(body.validators, c.value))))
      && (c.Ok? && AllErrors(body.validators, c.value) == [] ==>
            Run(body, config) == ReturnValue(body.conversion, c.value))
  {
    var c := CastValue(body, config);
    var raw := ApplyMapper(body.mapper, config, body.path);
    if raw.Ok? {
      assert c == CheckCast(raw.value, body.cast);
    }
  }

  /** The value an int-family return type yields for a mapped `Integer` i. */
  function IntegralResult(returnType: JClass, i: int32): Returned
    requires IsIreturnType(returnType)
  {
    var p := match returnType.kind
      case ByteK => PByte(ByteValue(i))
      case CharK => PChar(CharValue(i))
      case ShortK => PShort(ShortValue(i))
      case _ => PInt(i);
    if returnType.BoxClass? then Reference(Box(p)) else Primitive(p)
  }

  /**
   * An int-family accessor whose mapper yields the `Integer` i: the
   * validators judge i itself, and only a value they all pass is narrowed
   * (never failing) to the declared width. Holds for any mapper.
   */
  lemma IntegralAccessorValidatesThenNarrows(
    m: AccessorMethod, value: ConfigValue, classPath: set<string>, config: Config, i: int32)
    requires IsIreturnType(m.returnType)
    requires var b := SynthesizeBody(m, value, classPath);
      b.Ok? && ApplyMapper(b.value.mapper, config, value.atPath) == Ok(Box(PInt(i)))
    ensures var errors := AllErrors(value.validatedBy, Box(PInt(i)));
      Run(SynthesizeBody(m, value, classPath).value, config)
        == if errors == [] then Ok(IntegralResult(m.returnType, i))
           else Err(ConfigValidation(errors))
  {
    var b := SynthesizeBody(m, value, classPath).value;
    RunStages(b, config);
  }

  /**
   * A long, boolean or double accessor (and a String, List or other one)
   * whose mapper yields a value of its canonical class returns, once the
   * validators pass it, that very value: unboxed for a primitive type.
   */
  lemma WideAccessorReturnsMappedValue(
    m: AccessorMethod, value: ConfigValue, classPath: set<string>, config: Config, v: Value)
    requires var f := FamilyOf(m.returnType);
      f != VoidFamily && f != IntegralFamily && !IsFloatType(m.returnType)
    requires var b := SynthesizeBody(m, value, classPath);
      b.Ok? && ApplyMapper(b.value.mapper, config, value.atPath) == Ok(v)
      && IsInstance(v, CanonicalOf(FamilyOf(m.returnType)))
    ensures var errors := AllErrors(value.validatedBy, v);
      var r := Run(SynthesizeBody(m, value, classPath).value, config);
      && (errors != [] ==> r == Err(ConfigValidation(errors)))
      && ((errors == [] && (IsBoxType(m.returnType) || FamilyOf(m.returnType) in {StringFamily, ListFamily, OtherFamily}))
            ==> r == Ok(Reference(v)))
      && ((errors == [] && !IsBoxType(m.returnType) && FamilyOf(m.returnType) in {LongFamily, FloatingFamily, BooleanFamily})
            ==> r == Ok(Primitive(v.p)))
  {
    var b := SynthesizeBody(m, value, classPath).value;
    RunStages(b, config);
  }

  /**
   * On a non-null value of the family's canonical class, the conversion of
   * a primitive return type succeeds and that of its box returns the box of
   * the same primitive.
   */
  lemma ConversionsAgree(k: PrimKind, v: Value)
    requires IsInstance(v, CanonicalOf(FamilyOf(PrimClass(k))))
    ensures var rp := ReturnValue(ConversionOf(PrimClass(k)), v);
      && rp.Ok? && rp.value.Primitive?
      && ReturnValue(ConversionOf(BoxClass(k)), v) == Ok(Reference(Box(rp.value.p)))
  {
  }

  /**
   * A primitive return type and its box give the same value for any
   * non-null mapped value: the boxed accessor returns the box of what the
   * primitive one returns, and both fail alike.
   */
  lemma BoxedAndPrimitiveAgree(k: PrimKind, value: ConfigValue, classPath: set<string>, config: Config,
                               name: string, generic: string, boxedGeneric: string)
    requires var b := SynthesizeBody(AccessorMethod(name, PrimClass(k), generic, Some(value)), value, classPath);
      b.Ok? && ApplyMapper(b.value.mapper, config, value.atPath) != Ok(Null)
    ensures SynthesizeBody(AccessorMethod(name, BoxClass(k), boxedGeneric, Some(value)), value, classPath).Ok?
    ensures var p := SynthesizeBody(AccessorMethod(name, PrimClass(k), generic, Some(value)), value, classPath);
      var q := SynthesizeBody(AccessorMethod(name, BoxClass(k), boxedGeneric, Some(value)), value, classPath);
      var rp := Run(p.value, config);
      var rq := Run(q.value, config);
      && (rp.Err? <==> rq.Err?)
      && (rp.Err? ==> rp.error == rq.error)
      && (rp.Ok? ==> rp.value.Primitive? && rq.value == Reference(Box(rp.value.p)))
  {
    PrimitiveAndBoxBodies(k, value, classPath, name, generic, boxedGeneric);
    var p := SynthesizeBody(AccessorMethod(name, PrimClass(k), generic, Some(value)), value, classPath).value;
    var q := SynthesizeBody(AccessorMethod(name, BoxClass(k), boxedGeneric, Some(value)), value, classPath).value;
    BodiesAgree(k, p, q, config);
  }

  /** The bodies for a primitive type and its box differ only in the return conversion. */
  lemma PrimitiveAndBoxBodies(k: PrimKind, value: ConfigValue, classPath: set<string>, name: string,
                              generic: string, boxedGeneric: string)
    ensures var p := SynthesizeBody(AccessorMethod(name, PrimClass(k), generic, Some(value)), value, classPath);
      var q := SynthesizeBody(AccessorMethod(name, BoxClass(k), boxedGeneric, Some(value)), value, classPath);
      && p.Ok? && q.Ok? && q.value.Getter? && !q.value.mapper.NoMapper?
      && p.value == q.value.(conversion := ConversionOf(PrimClass(k)))
      && q.value.conversion == ConversionOf(BoxClass(k))
      && q.value.cast == CanonicalOf(FamilyOf(PrimClass(k))) && q.value.path == value.atPath
  {
  }

  /** Two getters that differ only in a primitive's and its box's conversion agree when run. */
  lemma BodiesAgree(k: PrimKind, p: Body, q: Body, config: Config)
    requires q.Getter? && !q.mapper.NoMapper?
    requires p == q.(conversion := ConversionOf(PrimClass(k)))
    requires q.conversion == ConversionOf(BoxClass(k)) && q.cast == CanonicalOf(FamilyOf(PrimClass(k)))
    requires ApplyMapper(q.mapper, config, q.path) != Ok(Null)
    ensures var rp := Run(p, config);
      var rq := Run(q, config);
      && (rp.Err? <==> rq.Err?)
      && (rp.Err? ==> rp.error == rq.error)
      && (rp.Ok? ==> rp.value.Primitive? && rq.value == Reference(Box(rp.value.p)))
  {
    RunStages(p, config);
    RunStages(q, config);
    var c := CastValue(p, config);
    assert c == CastValue(q, config);
    if c.Ok? && AllErrors(p.validators, c.value) == [] {
      ConversionsAgree(k, c.value);
    }
  }

  /**
   * The one place boxed and primitive accessors differ: a custom mapper that
   * returns null makes an `int` accessor throw on unboxing while an `Integer`
   * accessor returns the null.
   */
  lemma NullFromCustomMapper(value: ConfigValue, classPath: set<string>, config: Config, name: string)
    requires value.mappedBy.Custom? && value.mappedBy.apply(config, value.atPath) == Ok(Null)
    requires AllErrors(value.validatedBy, Null) == []
    ensures Run(SynthesizeBody(AccessorMethod(name, PrimClass(IntK), "int", Some(value)), value, classPath).value, config)
         == Err(NullPointer)
    ensures Run(SynthesizeBody(AccessorMethod(name, BoxClass(IntK), "java.lang.Integer", Some(value)), value, classPath).value, config)
         == Ok(Reference(Null))
  {
    RunStages(SynthesizeBody(AccessorMethod(name, PrimClass(IntK), "int", Some(value)), value, classPath).value, config);
    RunStages(SynthesizeBody(AccessorMethod(name, BoxClass(IntK), "java.lang.Integer", Some(value)), value, classPath).value, config);
  }

  /**
   * A body with a built-in mapper reads only the value at its own path: two
   * configurations that agree there give the same result.
   */
  lemma RunReadsOnlyItsPath(body: Body, c1: Config, c2: Config)
    requires body.Getter? && !body.mapper.NoMapper? && !body.mapper.Custom?
    requires body.path in c1 <==> body.path in c2
    requires body.path in c1 ==> c1[body.path] == c2[body.path]
    ensures Run(body, c1) == Run(body, c2)
  {
    BuiltInMapperReadsOnlyItsPath(body.mapper, c1, c2, body.path);
  }
}
