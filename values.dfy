/**
 * The run-time values a generated accessor handles: the objects a mapper
 * returns (`Integer`, `Long`, `Double`, `Boolean`, `String`, `List`, any other
 * object, or null), the primitives and boxes it returns, the configuration
 * the generated class holds, and the exceptions that can escape.
 */
module Values {
  import opened JvmInts

  /** An IEEE 754 double, kept as its bit pattern: no arithmetic is done on it. */
  datatype Float64 = Float64(bits: bv64)

  /** The float that `Double.floatValue()` yields for `wide`, kept symbolically. */
  datatype Float32 = FloatValueOf(wide: Float64)

  /** A JVM primitive value, one constructor per primitive type. */
  datatype Prim =
    | PByte(b: int8)
    | PChar(c: char16)
    | PShort(s: int16)
    | PInt(i: int32)
    | PLong(l: int64)
    | PFloat(f: Float32)
    | PDouble(d: Float64)
    | PBoolean(z: bool)

  /** A JVM reference: null, a string, a box around a primitive, a list, or another object. */
  datatype Value =
    | Null
    | Str(s: string)
    | Box(p: Prim)
    | ListOf(items: seq<Value>)
    | Obj(className: string, identity: nat)

  /** The configuration a generated class holds: values by configuration path. */
  type Config = map<string, Value>

  /** The classes a mapper's result is cast to (`CHECKCAST`) before validation. */
  datatype Canonical =
    | CanonString   // java.lang.String
    | CanonInteger  // java.lang.Integer
    | CanonLong     // java.lang.Long
    | CanonDouble   // java.lang.Double
    | CanonBoolean  // java.lang.Boolean
    | CanonList     // java.util.List
    | CanonObject   // java.lang.Object

  /** What a generated accessor hands back to its caller. */
  datatype Returned =
    | Nothing          // a void method
    | Primitive(p: Prim)
    | Reference(v: Value)

  /** The exceptions the modelled code can throw. */
  datatype Exc =
    | NullPointer
    | IllegalArgument(message: string)
    | ClassCast(target: Canonical)
    | ConfigMissing(path: string)
    | ConfigWrongType(path: string)
    | ConfigValidation(errors: seq<string>)
    | ClassNotFound(name: string)
    | StringIndexOutOfBounds
    | AbstractMethod(name: string)
    | MapperFailure(message: string)

  datatype Option<+T> = None | Some(value: T)

  /** A computation that returns a value or throws. */
  datatype Result<+T> = Ok(value: T) | Err(error: Exc) {
    predicate IsFailure() { Err? }

    function PropagateFailure<U>(): Result<U>
      requires Err?
    {
      Err(error)
    }

    function Extract(): T
      requires Ok?
    {
      value
    }
  }

  /** `instanceof`: whether a non-null value belongs to a canonical class. */
  predicate IsInstance(v: Value, c: Canonical) {
    match c
    case CanonString => v.Str?
    case CanonInteger => v.Box? && v.p.PInt?
    case CanonLong => v.Box? && v.p.PLong?
    case CanonDouble => v.Box? && v.p.PDouble?
    case CanonBoolean => v.Box? && v.p.PBoolean?
    case CanonList => v.ListOf?
    case CanonObject => !v.Null?
  }

  /** `CHECKCAST`: null and instances pass unchanged, anything else throws. */
  function CheckCast(v: Value, c: Canonical): (r: Result<Value>)
    ensures r.Ok? <==> v.Null? || IsInstance(v, c)
    ensures r.Ok? ==> r.value == v
    ensures r.Err? ==> r.error == ClassCast(c)
  {
    if v.Null? || IsInstance(v, c) then Ok(v) else Err(ClassCast(c))
  }

  /** Every reference passes a cast to Object. */
  lemma CastToObjectNeverFails(v: Value)
    ensures CheckCast(v, CanonObject) == Ok(v)
  {
  }
}
