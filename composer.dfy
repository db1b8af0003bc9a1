/**
 * The composer itself: the schema gate of `generate`, the loop of
 * `implementInterface` that synthesises one method per annotated accessor,
 * the per-composer counter that names generated classes, the lazily created
 * singleton behind the static entry points, and binding a configuration to
 * a generated class.
 */
module Composer {
  import opened Values
  import opened Mappers
  import opened Synthesis
  import opened Naming

  /** A schema interface as reflection shows it. */
  datatype Schema = Schema(
    simpleName: string,
    isInterface: bool,
    configTypeMarked: bool,     // carries `@ConfigType`
    methods: seq<AccessorMethod>)  // `getMethods()`, in the order reflection reports them

  /** One synthesised method of a generated class. */
  datatype GeneratedMethod = GeneratedMethod(name: string, body: Body)

  /** A generated class: its internal name and its synthesised methods. */
  datatype GeneratedClass = GeneratedClass(name: string, methods: seq<GeneratedMethod>)

  /** An instance of a generated class, holding its configuration. */
  datatype Instance = Instance(cls: GeneratedClass, config: Config)

  /** `isValidConfigInterface`: an interface that carries `@ConfigType`. */
  predicate IsValidConfigInterface(s: Schema) {
    s.isInterface && s.configTypeMarked
  }

  const NonConfigClass := "Non config class"

  /**
   * The checks `generate` makes before any code is produced: a null class
   * throws `NullPointerException`, and a class that is not an interface or
   * lacks `@ConfigType` throws `IllegalArgumentException`.
   */
  function CheckSchema(clz: Option<Schema>): (r: Result<Schema>)
    ensures clz.None? ==> r == Err(NullPointer)
    ensures clz.Some? && !IsValidConfigInterface(clz.value) ==> r == Err(IllegalArgument(NonConfigClass))
    ensures r.Ok? <==> clz.Some? && IsValidConfigInterface(clz.value)
    ensures r.Ok? ==> r.value == clz.value
  {
    match clz
    case None => Err(NullPointer)
    case Some(s) => if IsValidConfigInterface(s) then Ok(s) else Err(IllegalArgument(NonConfigClass))
  }

  /** The methods of the generated class contributed by one interface method. */
  function MethodsFor(m: AccessorMethod, classPath: set<string>): Result<seq<GeneratedMethod>> {
    match m.annotation
    case None => Ok([])
    case Some(value) =>
      var body :- SynthesizeBody(m, value, classPath);
      Ok([GeneratedMethod(m.name, body)])
  }

  /** The methods synthesised for a run of interface methods; the first failure aborts. */
  function SynthesizeAll(ms: seq<AccessorMethod>, classPath: set<string>): (r: Result<seq<GeneratedMethod>>)
    ensures r.Ok? ==> forall j :: 0 <= j < |r.value| ==> WellFormed(r.value[j].body)
    decreases |ms|
  {
    if ms == [] then Ok([])
    else
      var front :- SynthesizeAll(ms[..|ms| - 1], classPath);
      var last :- MethodsFor(ms[|ms| - 1], classPath);
      Ok(front + last)
  }

  /**
   * The annotated methods, in order: every method kept is annotated and
   * declared, and every annotated method is kept (`AnnotatedInOrder` adds
   * where).
   */
  function Annotated(ms: seq<AccessorMethod>): (r: seq<AccessorMethod>)
    ensures |r| <= |ms|
    ensures forall j :: 0 <= j < |r| ==> r[j].annotation.Some?
    ensures forall m :: m in r ==> m in ms
    ensures forall k :: 0 <= k < |ms| && ms[k].annotation.Some? ==> ms[k] in r
    decreases |ms|
  {
    if ms == [] then []
    else
      var front := ms[..|ms| - 1];
      var last := ms[|ms| - 1];
      assert forall k :: 0 <= k < |front| ==> front[k] == ms[k];
      Annotated(front) + (if last.annotation.Some? then [last] else [])
  }

  /**
   * Annotation order is kept: an annotated method stands in the result
   * right after the annotated methods declared before it.
   */
  lemma {:induction false} AnnotatedInOrder(ms: seq<AccessorMethod>, k: nat)
    requires k < |ms| && ms[k].annotation.Some?
    ensures |Annotated(ms[..k])| < |Annotated(ms)|
    ensures Annotated(ms)[|Annotated(ms[..k])|] == ms[k]
    decreases |ms|
  {
    var n := |ms| - 1;
    var front := ms[..n];
    assert Annotated(ms) == Annotated(front) + [ms[n]] || Annotated(ms) == Annotated(front);
    if k == n {
      assert front == ms[..k];
      assert Annotated(ms) == Annotated(front) + [ms[n]];
    } else {
      assert front[k] == ms[k] && front[..k] == ms[..k];
      AnnotatedInOrder(front, k);
    }
  }

  /** What synthesising one annotated method yields, on success. */
  ghost predicate SynthesizedFrom(g: GeneratedMethod, m: AccessorMethod, classPath: set<string>)
    requires m.annotation.Some?
  {
    var b := SynthesizeBody(m, m.annotation.value, classPath);
    b.Ok? && g == GeneratedMethod(m.name, b.value)
  }

  /**
   * Synthesis fails exactly when some annotated method's body cannot be
   * synthesised; on success the generated methods are those of the
   * annotated methods, one each, in order, and unannotated methods get none.
   */
  lemma SynthesizeAllSpec(ms: seq<AccessorMethod>, classPath: set<string>)
    ensures var r := SynthesizeAll(ms, classPath);
      && (r.Err? <==> exists k :: 0 <= k < |ms| && BodyFails(ms[k], classPath))
      && (r.Ok? ==>
            && |r.value| == |Annotated(ms)|
            && forall j :: 0 <= j < |r.value| ==> SynthesizedFrom(r.value[j], Annotated(ms)[j], classPath))
  {
    SynthesizeAllFails(ms, classPath);
    SynthesizeAllShape(ms, classPath);
  }

  /** An annotated method whose body cannot be synthesised. */
  ghost predicate BodyFails(m: AccessorMethod, classPath: set<string>) {
    m.annotation.Some? && SynthesizeBody(m, m.annotation.value, classPath).Err?
  }

  /** Some method of the run is one whose body cannot be synthesised. */
  ghost predicate SomeBodyFails(ms: seq<AccessorMethod>, classPath: set<string>) {
    exists k :: 0 <= k < |ms| && BodyFails(ms[k], classPath)
  }

  lemma {:induction false} SynthesizeAllFails(ms: seq<AccessorMethod>, classPath: set<string>)
    ensures SynthesizeAll(ms, classPath).Err? <==> SomeBodyFails(ms, classPath)
    decreases |ms|
  {
    if ms != [] {
      var n := |ms| - 1;
      var front := ms[..n];
      SynthesizeAllFails(front, classPath);
      assert MethodsFor(ms[n], classPath).Err? <==> BodyFails(ms[n], classPath);
      assert SynthesizeAll(ms, classPath).Err?
        <==> SynthesizeAll(front, classPath).Err? || MethodsFor(ms[n], classPath).Err?;
      assert SomeBodyFails(front, classPath) ==> SomeBodyFails(ms, classPath) by {
        if SomeBodyFails(front, classPath) {
          var k :| 0 <= k < |front| && BodyFails(front[k], classPath);
          assert ms[k] == front[k];
        }
      }
      assert SomeBodyFails(ms, classPath) ==> SomeBodyFails(front, classPath) || BodyFails(ms[n], classPath) by {
        if SomeBodyFails(ms, classPath) {
          var k :| 0 <= k < |ms| && BodyFails(ms[k], classPath);
          if k < n {
            assert front[k] == ms[k];
          } else {
            assert k == n;
          }
        }
      }
    }
  }

  /**
   * The error that escapes is that of the first annotated method, in
   * declaration order, whose body cannot be synthesised.
   */
  lemma {:induction false} SynthesizeAllFirstError(ms: seq<AccessorMethod>, classPath: set<string>, k: nat)
    requires k < |ms| && BodyFails(ms[k], classPath)
    requires forall i :: 0 <= i < k ==> !BodyFails(ms[i], classPath)
    ensures SynthesizeAll(ms, classPath) == Err(SynthesizeBody(ms[k], ms[k].annotation.value, classPath).error)
    decreases |ms|
  {
    var n := |ms| - 1;
    var front := ms[..n];
    if k == n {
      SynthesizeAllFails(front, classPath);
      assert !SomeBodyFails(front, classPath) by {
        forall i | 0 <= i < |front| ensures !BodyFails(front[i], classPath) {
          assert front[i] == ms[i];
        }
      }
    } else {
      assert front[k] == ms[k];
      assert forall i :: 0 <= i < k ==> front[i] == ms[i];
      SynthesizeAllFirstError(front, classPath, k);
    }
  }

  lemma {:induction false} SynthesizeAllShape(ms: seq<AccessorMethod>, classPath: set<string>)
    ensures var r := SynthesizeAll(ms, classPath);
      r.Ok? ==>
        && |r.value| == |Annotated(ms)|
        && forall j :: 0 <= j < |r.value| ==> SynthesizedFrom(r.value[j], Annotated(ms)[j], classPath)
    decreases |ms|
  {
    if ms != [] {
      var n := |ms| - 1;
      var front := ms[..n];
      SynthesizeAllShape(front, classPath);
      var r := SynthesizeAll(ms, classPath);
      var rf := SynthesizeAll(front, classPath);
      if rf.Ok? && MethodsFor(ms[n], classPath).Ok? {
        var A := Annotated(ms);
        assert A == Annotated(front) + (if ms[n].annotation.Some? then [ms[n]] else []);
        assert r.value == rf.value + MethodsFor(ms[n], classPath).value;
        forall j | 0 <= j < |r.value|
          ensures SynthesizedFrom(r.value[j], A[j], classPath)
        {
          if j < |rf.value| {
            assert r.value[j] == rf.value[j] && A[j] == Annotated(front)[j];
          }
        }
      }
    }
  }

  /**
   * `implementInterface`'s loop over the interface's methods: each method
   * with `@ConfigValue` gets a synthesised body, the others get nothing; a
   * failure stops the loop and escapes.
   */
  method ImplementMethods(ms: seq<AccessorMethod>, classPath: set<string>) returns (r: Result<seq<GeneratedMethod>>)
    ensures r == SynthesizeAll(ms, classPath)
  {
    var methods: seq<GeneratedMethod> := [];
    var i := 0;
    while i < |ms|
      invariant 0 <= i <= |ms|
      invariant SynthesizeAll(ms[..i], classPath) == Ok(methods)
    {
      assert ms[..i + 1][..i] == ms[..i];
      var m := ms[i];
      if m.annotation.Some? {
        var body := SynthesizeBody(m, m.annotation.value, classPath);
        if body.Err? {
          assert SynthesizeAll(ms[..i + 1], classPath) == Err(body.error);
          SynthesisErrorPersists(ms, i + 1, classPath);
          return Err(body.error);
        }
        assert MethodsFor(ms[..i + 1][i], classPath) == Ok([GeneratedMethod(m.name, body.value)]);
        methods := methods + [GeneratedMethod(m.name, body.value)];
      } else {
        assert MethodsFor(ms[..i + 1][i], classPath) == Ok([]);
        assert methods + [] == methods;
      }
      i := i + 1;
    }
    assert ms[..i] == ms;
    r := Ok(methods);
  }

  /** Once a prefix of the methods fails, the whole run fails with the same error. */
  lemma {:induction false} SynthesisErrorPersists(ms: seq<AccessorMethod>, i: nat, classPath: set<string>)
    requires i <= |ms| && SynthesizeAll(ms[..i], classPath).Err?
    ensures SynthesizeAll(ms, classPath) == SynthesizeAll(ms[..i], classPath)
    decreases |ms| - i
  {
    if i < |ms| {
      assert ms[..i + 1][..i] == ms[..i];
      SynthesisErrorPersists(ms, i + 1, classPath);
    } else {
      assert ms[..i] == ms;
    }
  }

  /** The class `generate` produces for a schema with counter value n. */
  function Generated(clz: Option<Schema>, n: nat, classPath: set<string>): (r: Result<GeneratedClass>)
    ensures r.Ok? ==> ClassWellFormed(r.value)
  {
    var s :- CheckSchema(clz);
    var methods :- SynthesizeAll(s.methods, classPath);
    Ok(GeneratedClass(GeneratedName(s.simpleName, n), methods))
  }

  /**
   * A schema that is not an interface or lacks `@ConfigType` is refused the
   * same way whatever methods it declares.
   */
  lemma RefusalIgnoresMethods(s: Schema, others: seq<AccessorMethod>, n: nat, classPath: set<string>)
    requires !IsValidConfigInterface(s)
    ensures Generated(Some(s), n, classPath) == Err(IllegalArgument(NonConfigClass))
    ensures Generated(Some(s.(methods := others)), n, classPath) == Generated(Some(s), n, classPath)
  {
  }

  /**
   * Generating again for the same schema gives the same methods under a
   * different name: nothing is cached between two generations.
   */
  lemma RegenerationGivesNewName(s: Schema, n1: nat, n2: nat, classPath: set<string>)
    requires n1 != n2 && Generated(Some(s), n1, classPath).Ok?
    ensures Generated(Some(s), n2, classPath).Ok?
    ensures Generated(Some(s), n1, classPath).value.methods == Generated(Some(s), n2, classPath).value.methods
    ensures Generated(Some(s), n1, classPath).value.name != Generated(Some(s), n2, classPath).value.name
  {
    GeneratedNameInjective(s.simpleName, n1, s.simpleName, n2);
  }

  /** Whether every method of a class has a body that names a real mapper. */
  predicate ClassWellFormed(c: GeneratedClass) {
    forall j :: 0 <= j < |c.methods| ==> WellFormed(c.methods[j].body)
  }

  /** The first method of the given name, if any. */
  function Lookup(methods: seq<GeneratedMethod>, name: string): (r: Option<Body>)
    ensures r.None? <==> forall j :: 0 <= j < |methods| ==> methods[j].name != name
    ensures r.Some? ==> exists j :: 0 <= j < |methods| && methods[j] == GeneratedMethod(name, r.value)
                         && forall i :: 0 <= i < j ==> methods[i].name != name
  {
    if methods == [] then None
    else if methods[0].name == name then Some(methods[0].body)
    else
      var r := Lookup(methods[1..], name);
      assert forall j :: 1 <= j < |methods| ==> methods[j] == methods[1..][j - 1];
      r
  }

  /** Calling an interface method on an instance: a method with no body is abstract. */
  function Invoke(inst: Instance, name: string): Result<Returned>
    requires ClassWellFormed(inst.cls)
  {
    match Lookup(inst.cls.methods, name)
    case None => Err(AbstractMethod(name))
    case Some(body) => Run(body, inst.config)
  }

  /** The k-th generated method is the k-th annotated method's name with its synthesised body. */
  lemma GeneratedMethodAt(s: Schema, n: nat, classPath: set<string>, k: nat)
    requires Generated(Some(s), n, classPath).Ok? && k < |Annotated(s.methods)|
    ensures var A := Annotated(s.methods);
      var methods := Generated(Some(s), n, classPath).value.methods;
      && k < |methods|
      && SynthesizeBody(A[k], A[k].annotation.value, classPath).Ok?
      && methods[k] == GeneratedMethod(A[k].name, SynthesizeBody(A[k], A[k].annotation.value, classPath).value)
  {
    GeneratedMethodsMatch(s, n, classPath);
    assert SynthesizedFrom(Generated(Some(s), n, classPath).value.methods[k], Annotated(s.methods)[k], classPath);
  }

  /** A name that no annotated method has is abstract on the generated class. */
  lemma InvokeUnannotated(s: Schema, n: nat, classPath: set<string>, config: Config, name: string)
    requires Generated(Some(s), n, classPath).Ok?
    requires forall j :: 0 <= j < |Annotated(s.methods)| ==> Annotated(s.methods)[j].name != name
    ensures Invoke(Instance(Generated(Some(s), n, classPath).value, config), name) == Err(AbstractMethod(name))
  {
    var methods := Generated(Some(s), n, classPath).value.methods;
    GeneratedMethodsMatch(s, n, classPath);
    forall j | 0 <= j < |methods|
      ensures methods[j].name != name
    {
      GeneratedMethodAt(s, n, classPath, j);
    }
  }

  /**
   * On an instance of a generated class, calling a name runs the body
   * synthesised for the first annotated method of that name.
   */
  lemma InvokeFirstAnnotated(s: Schema, n: nat, classPath: set<string>, config: Config, name: string, k: nat)
    requires Generated(Some(s), n, classPath).Ok?
    requires var A := Annotated(s.methods);
      k < |A| && A[k].name == name && forall i :: 0 <= i < k ==> A[i].name != name
    ensures var A := Annotated(s.methods);
      && SynthesizeBody(A[k], A[k].annotation.value, classPath).Ok?
      && Invoke(Instance(Generated(Some(s), n, classPath).value, config), name)
         == Run(SynthesizeBody(A[k], A[k].annotation.value, classPath).value, config)
  {
    var methods := Generated(Some(s), n, classPath).value.methods;
    GeneratedMethodAt(s, n, classPath, k);
    forall i | 0 <= i < k
      ensures methods[i].name != name
    {
      GeneratedMethodAt(s, n, classPath, i);
    }
    LookupFirst(methods, name, k);
  }

  /** The generated class has one method per annotated method, with its name and its body. */
  lemma GeneratedMethodsMatch(s: Schema, n: nat, classPath: set<string>)
    requires Generated(Some(s), n, classPath).Ok?
    ensures var methods := Generated(Some(s), n, classPath).value.methods;
      var A := Annotated(s.methods);
      && |methods| == |A|
      && forall j :: 0 <= j < |A| ==> SynthesizedFrom(methods[j], A[j], classPath)
  {
    SynthesizeAllSpec(s.methods, classPath);
  }

  /** Lookup finds the first method carrying the name. */
  lemma LookupFirst(methods: seq<GeneratedMethod>, name: string, k: nat)
    requires k < |methods| && methods[k].name == name
    requires forall i :: 0 <= i < k ==> methods[i].name != name
    ensures Lookup(methods, name) == Some(methods[k].body)
  {
  }

  /** A configuration bound to a generated class; a null configuration throws. */
  function Bind(cls: Result<GeneratedClass>, config: Option<Config>): Result<Instance> {
    var c :- cls;
    match config
    case None => Err(NullPointer)
    case Some(cfg) => Ok(Instance(c, cfg))
  }

  /**
   * A name whose counter value is the number of names issued is none of
   * them, and appending it keeps every name's counter at its position.
   */
  lemma FreshName(issued: seq<string>, name: string)
    requires forall k :: 0 <= k < |issued| ==> CounterOf(issued[k]) == k
    requires CounterOf(name) == |issued|
    ensures name !in issued
    ensures forall k :: 0 <= k < |issued + [name]| ==> CounterOf((issued + [name])[k]) == k
  {
  }

  /** Names that carry their positions as counter values are pairwise distinct. */
  lemma IssuedNamesDistinct(issued: seq<string>)
    requires forall k :: 0 <= k < |issued| ==> CounterOf(issued[k]) == k
    ensures forall i, j :: 0 <= i < j < |issued| ==> issued[i] != issued[j]
  {
  }

  /** A composer: its counter of generated classes. */
  class RuntimeConfigComposer {
    /** The `AtomicInteger` that numbers generated classes. */
    var ai: nat
    /** The names handed out so far, in order. */
    ghost var issued: seq<string>

    /** Each name issued carries its position as counter value, and the counter counts them. */
    ghost predicate Valid()
      reads this
    {
      |issued| == ai && forall k :: 0 <= k < |issued| ==> CounterOf(issued[k]) == k
    }

    constructor ()
      ensures Valid() && ai == 0 && issued == []
    {
      ai := 0;
      issued := [];
    }

    /**
     * `generate`: the gate, then `implementInterface`. The counter is taken
     * and advanced before any method is synthesised, so a schema that
     * passes the gate consumes a name even when synthesis then fails.
     */
    method Generate(clz: Option<Schema>, classPath: set<string>) returns (r: Result<GeneratedClass>)
      requires Valid()
      modifies this
      ensures Valid()
      ensures r == Generated(clz, old(ai), classPath)
      ensures CheckSchema(clz).Err? ==> ai == old(ai) && issued == old(issued)
      ensures CheckSchema(clz).Ok? ==>
        ai == old(ai) + 1 && issued == old(issued) + [GeneratedName(clz.value.simpleName, old(ai))]
      ensures r.Ok? ==> r.value.name !in old(issued)
    {
      var s := CheckSchema(clz);
      if s.Err? {
        return Err(s.error);
      }
      var iface := s.value;
      var n := ai;
      var name := GeneratedName(iface.simpleName, n);
      CounterOfGeneratedName(iface.simpleName, n);
      FreshName(issued, name);
      ai := ai + 1;
      issued := issued + [name];
      var methods := ImplementMethods(iface.methods, classPath);
      if methods.Err? {
        return Err(methods.error);
      }
      r := Ok(GeneratedClass(name, methods.value));
    }

    /**
     * `wireConfig`: generate a class, obtain a factory for it through the
     * static `factory` (which creates the singleton if there is none yet),
     * and bind the configuration, which must not be null.
     */
    method WireConfig(statics: Statics, clz: Option<Schema>, config: Option<Config>, classPath: set<string>)
      returns (r: Result<Instance>)
      requires Valid() && statics.Valid()
      modifies this, statics
      ensures Valid() && statics.Valid()
      ensures r == Bind(Generated(clz, old(ai), classPath), config)
      ensures CheckSchema(clz).Err? ==> ai == old(ai) && issued == old(issued)
      ensures CheckSchema(clz).Ok? ==>
        ai == old(ai) + 1 && issued == old(issued) + [GeneratedName(clz.value.simpleName, old(ai))]
      ensures old(statics.singleton) != null ==> statics.singleton == old(statics.singleton)
      ensures Generated(clz, old(ai), classPath).Err? ==> statics.singleton == old(statics.singleton)
      ensures Generated(clz, old(ai), classPath).Ok? && old(statics.singleton) == null ==>
        statics.singleton != null && fresh(statics.singleton) && statics.singleton.ai == 0
    {
      var cls := Generate(clz, classPath);
      if cls.Err? {
        return Err(cls.error);
      }
      var _ := statics.EnsureSingleton();
      match config
      case None => r := Err(NullPointer);
      case Some(cfg) => r := Ok(Instance(cls.value, cfg));
    }
  }

  /** The static state: `SINGLETON`, null until first needed. */
  class Statics {
    var singleton: RuntimeConfigComposer?

    ghost predicate Valid()
      reads this, singleton
    {
      singleton != null ==> singleton.Valid()
    }

    constructor ()
      ensures singleton == null
    {
      singleton := null;
    }

    /** `ensureSingleton`: the first call creates a composer with counter 0, later calls return it. */
    method EnsureSingleton() returns (c: RuntimeConfigComposer)
      requires Valid()
      modifies this
      ensures Valid() && singleton == c && c.Valid()
      ensures old(singleton) != null ==> c == old(singleton)
      ensures old(singleton) == null ==> fresh(c) && c.ai == 0 && c.issued == []
    {
      if singleton == null {
        singleton := new RuntimeConfigComposer();
      }
      c := singleton;
    }

    /** The static `wire`: the singleton's `wireConfig`. */
    method Wire(clz: Option<Schema>, config: Option<Config>, classPath: set<string>) returns (r: Result<Instance>)
      requires Valid()
      modifies this, singleton
      ensures Valid() && singleton != null
      ensures old(singleton) != null ==> singleton == old(singleton)
      ensures old(singleton) == null ==> fresh(singleton)
      ensures r == Bind(Generated(clz, if old(singleton) == null then 0 else old(singleton.ai), classPath), config)
      ensures singleton.ai == (if old(singleton) == null then 0 else old(singleton.ai))
                              + (if CheckSchema(clz).Ok? then 1 else 0)
    {
      var c := EnsureSingleton();
      r := c.WireConfig(this, clz, config, classPath);
    }
  }
}
