/**
 * Mappers: the objects that read one configuration path and return its value.
 * The built-in mappers belong to the configuration library and are modelled
 * as typed lookups in the configuration map; a custom mapper is any function
 * of the configuration and the path.
 */
module Mappers {
  import opened Values

  /** The mapper classes a `@ConfigValue` can name or the synthesizer can pick. */
  datatype Mapper =
    | NoMapper   // the annotation's default: "no custom mapper declared"
    | StringM | IntM | LongM | DoubleM | BooleanM | AnyRefM
    | StringListM | DurationListM | BooleanListM | IntListM | LongListM
    | NumberListM | DoubleListM | ConfigListM | AnyRefListM
    | Custom(className: string, apply: (Config, string) -> Result<Value>)

  /** A declared mapper replaces the default one; `NoMapper` keeps the default. */
  function Choose(declared: Mapper, default: Mapper): (m: Mapper)
    ensures declared.NoMapper? ==> m == default
    ensures !declared.NoMapper? ==> m == declared
  {
    if declared.NoMapper? then default else declared
  }

  /** The fully qualified names of the classes `Duration` and `Config`. */
  const DurationClass := "java.time.Duration"
  const ConfigClass := "com.typesafe.config.Config"

  /** The table of list mappers by element class (`COLLECTIONS_MAPPERS`). */
  const CollectionsMappers: map<string, Mapper> := map[
    "java.lang.String" := StringListM,
    DurationClass := DurationListM,
    "java.lang.Boolean" := BooleanListM,
    "java.lang.Integer" := IntListM,
    "java.lang.Long" := LongListM,
    "java.lang.Number" := NumberListM,
    "java.lang.Double" := DoubleListM,
    ConfigClass := ConfigListM
  ]

  /** The list mapper registered for `String` elements. */
  lemma StringElementsUseStringListM()
    ensures "java.lang.String" in CollectionsMappers && CollectionsMappers["java.lang.String"] == StringListM
  {
  }

  /** Whether a configuration value is an element the given list mapper accepts. */
  predicate AcceptsElement(m: Mapper, e: Value) {
    match m
    case StringListM => e.Str?
    case DurationListM => e.Obj? && e.className == DurationClass
    case BooleanListM => e.Box? && e.p.PBoolean?
    case IntListM => e.Box? && e.p.PInt?
    case LongListM => e.Box? && e.p.PLong?
    case NumberListM => e.Box? && (e.p.PInt? || e.p.PLong? || e.p.PDouble?)
    case DoubleListM => e.Box? && e.p.PDouble?
    case ConfigListM => e.Obj? && e.className == ConfigClass
    case _ => !e.Null?
  }

  /** Whether a configuration value has the shape a built-in mapper reads. */
  predicate Accepts(m: Mapper, v: Value) {
    match m
    case StringM => v.Str?
    case IntM => v.Box? && v.p.PInt?
    case LongM => v.Box? && v.p.PLong?
    case DoubleM => v.Box? && v.p.PDouble?
    case BooleanM => v.Box? && v.p.PBoolean?
    case AnyRefM => !v.Null?
    case NoMapper => false
    case Custom(_, _) => false
    case _ => v.ListOf? && forall k :: 0 <= k < |v.items| ==> AcceptsElement(m, v.items[k])
  }

  /** `mapper.apply(config, path)`: a built-in mapper reads the value at the path. */
  function ApplyMapper(m: Mapper, config: Config, path: string): (r: Result<Value>)
    requires !m.NoMapper?
    ensures !m.Custom? ==> (path !in config <==> r == Err(ConfigMissing(path)))
    ensures !m.Custom? && r.Ok? ==> path in config && r.value == config[path] && Accepts(m, r.value)
    ensures !m.Custom? && path in config && !Accepts(m, config[path]) ==> r == Err(ConfigWrongType(path))
  {
    if m.Custom? then m.apply(config, path)
    else if path !in config then Err(ConfigMissing(path))
    else if Accepts(m, config[path]) then Ok(config[path])
    else Err(ConfigWrongType(path))
  }

  /** A built-in mapper reads nothing but the value at its own path. */
  lemma BuiltInMapperReadsOnlyItsPath(m: Mapper, c1: Config, c2: Config, path: string)
    requires !m.NoMapper? && !m.Custom?
    requires path in c1 <==> path in c2
    requires path in c1 ==> c1[path] == c2[path]
    ensures ApplyMapper(m, c1, path) == ApplyMapper(m, c2, path)
  {
  }
}
