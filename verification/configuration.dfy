/**
 * Configuring a foreign algorithm builder from the property bag. The builder's
 * public methods are given as a table of setters; each one-argument `set…`
 * method is matched against the property named after it, and what happens to
 * it depends on the parameter's category and on the provider version.
 */
module Configuration {

  import opened Base
  import opened JavaNumbers
  import opened Errors
  import opened Properties

  /** How the parameter type of a setter is classified by the loader. */
  datatype Category =
    | IntParam                            // the parameter type is assignable to `int`
    | DoubleParam                         // assignable to `double` but not to `int`
    | EnumParam(constants: set<string>)   // an enum type with these constant names
    | OtherParam(takesInt: bool)          // operators, files, lists, …; `takesInt` when a boxed
                                          // `int` reaches the parameter, as for `Object` or `Number`

  /** The value a setter can be invoked with. */
  datatype Arg = IntArg(i: Int32) | DoubleArg(d: Double)

  /**
   * One public method of the builder: its name, whether it is accessible, its
   * parameter count, the category of its (first) parameter, and the arguments
   * it throws on.
   */
  datatype Setter = Setter(name: string, accessible: bool, arity: nat, category: Category, rejects: set<Arg>)

  /** What the loader did with one setter. A failure is caught and reported. */
  datatype Effect =
    | Untouched
    | Invoked(arg: Arg)
    | Resolved(constant: string)   // an enum constant was looked up; the setter was not called
    | CannotCall                   // a present property of a type the loader cannot pass
    | Failed

  /** A call the builder received. */
  datatype Call = Call(setter: string, arg: Arg)

  /**
   * The root provider derives the fallback iteration count with a routine that
   * is not part of this model, so its outcome is a parameter; the latest
   * provider computes it with `GetMaxIterations`.
   */
  datatype Version = Root(derived: Result<Int32, Error>) | Latest

  const MAX_ITERATIONS: string := "maxIterations"

  predicate IsUpper(c: char) { 'A' <= c <= 'Z' }

  predicate IsLower(c: char) { 'a' <= c <= 'z' }

  function ToLower(c: char): (d: char)
    ensures IsUpper(c) ==> IsLower(d) && d as int == c as int + 32
    ensures !IsUpper(c) ==> d == c
  {
    if IsUpper(c) then (c as int + 32) as char else c
  }

  function ToUpper(c: char): (d: char)
    ensures IsLower(c) ==> IsUpper(d) && d as int == c as int - 32
    ensures !IsLower(c) ==> d == c
  {
    if IsLower(c) then (c as int - 32) as char else c
  }

  predicate IsSetterName(name: string)
  {
    |name| >= 3 && name[..3] == "set"
  }

  /** Only accessible one-argument methods named `set…` are looked at. */
  predicate Considered(s: Setter)
  {
    s.accessible && s.arity == 1 && IsSetterName(s.name)
  }

  /**
   * The property a setter configures: the method name without `set`, its
   * first character lower-cased.
   */
  function PropertyName(name: string): (p: string)
    requires IsSetterName(name)
    ensures |p| == |name| - 3
    ensures |p| > 0 ==> p[0] == ToLower(name[3]) && p[1..] == name[4..]
  {
    var rest := name[3..];
    if rest == [] then [] else [ToLower(rest[0])] + rest[1..]
  }

  /** The setter name a bean-style builder uses for a property. */
  function SetterName(property: string): (name: string)
    ensures IsSetterName(name) && |name| == |property| + 3
  {
    "set" + (if property == [] then [] else [ToUpper(property[0])] + property[1..])
  }

  /**
   * The name derivation inverts the bean naming convention for every property
   * that does not itself start with a capital letter.
   */
  lemma PropertyNameInvertsSetterName(property: string)
    requires property == [] || !IsUpper(property[0])
    ensures PropertyName(SetterName(property)) == property
  {
  }

  lemma PropertyNameExample()
    ensures PropertyName("setMaxIterations") == "maxIterations"
    ensures PropertyName("set") == ""
  {
    var rest := "setMaxIterations"[3..];
    assert rest == "MaxIterations";
    assert [ToLower(rest[0])] + rest[1..] == "maxIterations";
  }

  /** Whether a reflective call with this argument can reach a parameter of this category. */
  predicate Accepts(c: Category, a: Arg)
  {
    match c
    case IntParam => a.IntArg?
    case DoubleParam => true   // an `int` argument widens to `double`
    case OtherParam(takesInt) => takesInt && a.IntArg?
    case _ => false
  }

  function Invoke(s: Setter, a: Arg): (e: Effect)
    ensures e == Invoked(a) <==> Accepts(s.category, a) && a !in s.rejects
    ensures e.Invoked? || e.Failed?
  {
    if Accepts(s.category, a) && a !in s.rejects then Invoked(a) else Failed
  }

  /** Reads the property as an `int` and invokes the setter; a parse error is a failure. */
  function InvokeInt(s: Setter, v: Result<Int32, Error>): (e: Effect)
    ensures e.Invoked? <==> v.Ok? && Invoke(s, IntArg(v.value)).Invoked?
    ensures e.Invoked? ==> e.arg == IntArg(v.value)
  {
    match v
    case Ok(i) => Invoke(s, IntArg(i))
    case Err(_) => Failed
  }

  function InvokeDouble(s: Setter, v: Result<Double, Error>): (e: Effect)
    ensures e.Invoked? <==> v.Ok? && Invoke(s, DoubleArg(v.value)).Invoked?
    ensures e.Invoked? ==> e.arg == DoubleArg(v.value)
  {
    match v
    case Ok(d) => Invoke(s, DoubleArg(d))
    case Err(_) => Failed
  }

  /** `valueOf` on the property's text; the setter itself is never called. */
  function ResolveOnly(constants: set<string>, v: Value): (e: Effect)
    ensures e.Resolved? <==> v.StrV? && v.s in constants
    ensures e.Resolved? ==> e.constant == v.s
    ensures !e.Resolved? ==> e == Failed
  {
    match ResolveEnum(v, constants)
    case Some(c) => Resolved(c)
    case None => Failed
  }

  /**
   * The latest provider's iteration count: an explicit `maxIterations` wins;
   * otherwise the evaluation budget divided by the population size, where the
   * population size falls back to the swarm size and then to 100. All three
   * reads happen before the division, so a malformed swarm size fails even
   * when a population size is given.
   */
  function GetMaxIterations(bag: Bag): (r: Result<Int32, Error>)
    ensures MAX_ITERATIONS in bag ==> (r.Ok? <==> !bag[MAX_ITERATIONS].StrV?)
    ensures MAX_ITERATIONS in bag && bag[MAX_ITERATIONS].IntV? ==> r == Ok(bag[MAX_ITERATIONS].i)
    ensures MAX_ITERATIONS in bag && bag[MAX_ITERATIONS].RealV? ==> r == Ok(DoubleToInt(bag[MAX_ITERATIONS].d))
    ensures MAX_ITERATIONS !in bag && "swarmSize" in bag && !bag["swarmSize"].IntV? ==> r.Err?
    ensures (&& MAX_ITERATIONS !in bag && "populationSize" in bag && bag["populationSize"] == IntV(0)
             && ("maxEvaluations" in bag ==> !bag["maxEvaluations"].StrV?)
             && ("swarmSize" in bag ==> bag["swarmSize"].IntV?))
            ==> r == Err(DivisionByZero)
    ensures r.Err? ==> r.error.MalformedNumber? || r.error == DivisionByZero
  {
    if MAX_ITERATIONS in bag then
      var d :- GetDouble(bag, MAX_ITERATIONS, ZERO);
      WidenNarrowFound(bag, MAX_ITERATIONS);
      Ok(DoubleToInt(d))
    else
      var maxEvaluations :- GetDoubleAsInt(bag, "maxEvaluations", 25000);
      var swarmSize :- GetInt(bag, "swarmSize", 100);
      var populationSize :- GetInt(bag, "populationSize", swarmSize);
      match IntDiv(maxEvaluations, populationSize)
      case None => Err(DivisionByZero)
      case Some(q) => Ok(q)
  }

  /**
   * With the budget and the population size given as non-negative integers
   * and the latter positive, the count is their plain quotient.
   */
  lemma GetMaxIterationsDivides(bag: Bag, evaluations: Int32, population: Int32)
    requires MAX_ITERATIONS !in bag
    requires "maxEvaluations" in bag && bag["maxEvaluations"] == IntV(evaluations) && evaluations >= 0
    requires "populationSize" in bag && bag["populationSize"] == IntV(population) && population > 0
    requires "swarmSize" in bag ==> bag["swarmSize"].IntV?
    ensures GetMaxIterations(bag) == Ok(evaluations / population)
  {
    IntDivNonNegative(evaluations, population);
  }

  /** A real budget is cast to `int` before the division. */
  lemma GetMaxIterationsCastsBudget(bag: Bag, evaluations: Double, population: Int32)
    requires MAX_ITERATIONS !in bag
    requires "maxEvaluations" in bag && bag["maxEvaluations"] == RealV(evaluations) && DoubleToInt(evaluations) >= 0
    requires "populationSize" in bag && bag["populationSize"] == IntV(population) && population > 0
    requires "swarmSize" in bag ==> bag["swarmSize"].IntV?
    ensures GetMaxIterations(bag) == Ok(DoubleToInt(evaluations) / population)
  {
    IntDivNonNegative(DoubleToInt(evaluations), population);
  }

  /**
   * Without an explicit count and with every number given as an integer, the
   * count is the budget (25000 by default) over the population size, which
   * falls back to the swarm size and then to 100.
   */
  lemma GetMaxIterationsQuotient(bag: Bag, evaluations: Int32, population: Int32)
    requires MAX_ITERATIONS !in bag
    requires "maxEvaluations" in bag ==> bag["maxEvaluations"].IntV?
    requires "populationSize" in bag ==> bag["populationSize"].IntV?
    requires "swarmSize" in bag ==> bag["swarmSize"].IntV?
    requires evaluations == (if "maxEvaluations" in bag then bag["maxEvaluations"].i else 25000) && evaluations >= 0
    requires population == (if "populationSize" in bag then bag["populationSize"].i
                            else if "swarmSize" in bag then bag["swarmSize"].i else 100)
    requires population > 0
    ensures GetMaxIterations(bag) == Ok(evaluations / population)
  {
    IntDivNonNegative(evaluations, population);
  }

  /** Without a population size the swarm size divides the budget. */
  lemma GetMaxIterationsUsesSwarmSize(bag: Bag, swarm: Int32)
    requires MAX_ITERATIONS !in bag && "maxEvaluations" !in bag && "populationSize" !in bag
    requires "swarmSize" in bag && bag["swarmSize"] == IntV(swarm) && swarm > 0
    ensures GetMaxIterations(bag) == Ok(25000 / swarm)
  {
    IntDivNonNegative(25000, swarm);
  }

  lemma GetMaxIterationsExamples()
    ensures GetMaxIterations(map[]) == Ok(250)
    ensures GetMaxIterations(map["populationSize" := IntV(50)]) == Ok(500)
    ensures GetMaxIterations(map["maxEvaluations" := IntV(10000), "swarmSize" := IntV(40)]) == Ok(250)
    ensures GetMaxIterations(map[MAX_ITERATIONS := RealV(Finite(12.9))]) == Ok(12)
    ensures GetMaxIterations(map["populationSize" := IntV(50), "swarmSize" := StrV("many")]) == Err(MalformedNumber("swarmSize"))
  {
    IntDivNonNegative(25000, 100);
    IntDivNonNegative(25000, 50);
    IntDivNonNegative(10000, 40);
  }

  /** The iteration count each provider version derives for the fallback and the factories. */
  function MaxIterationsFor(v: Version, bag: Bag): (r: Result<Int32, Error>)
    ensures v.Root? ==> r == v.derived
    ensures v.Latest? ==> r == GetMaxIterations(bag)
  {
    match v
    case Root(derived) => derived
    case Latest => GetMaxIterations(bag)
  }

  /**
   * The root provider: the int, double and enum branches each require the
   * property to be present, and the `maxIterations` fallback catches every
   * setter none of them took.
   */
  function RootEffect(derived: Result<Int32, Error>, bag: Bag, s: Setter): (e: Effect)
    requires Considered(s)
  {
    var property := PropertyName(s.name);
    if s.category.IntParam? && property in bag then InvokeInt(s, GetInt(bag, property, -1))
    else if s.category.DoubleParam? && property in bag then InvokeDouble(s, GetDouble(bag, property, Finite(-1.0)))
    else if s.category.EnumParam? && property in bag then ResolveOnly(s.category.constants, bag[property])
    else if property == MAX_ITERATIONS then InvokeInt(s, derived)
    else Untouched
  }

  /**
   * The latest provider: presence is tested first and decides between the
   * typed branches (with a diagnostic for other types) and the
   * `maxIterations` fallback.
   */
  function LatestEffect(bag: Bag, s: Setter): (e: Effect)
    requires Considered(s)
  {
    var property := PropertyName(s.name);
    if property in bag then
      match s.category
      case IntParam => InvokeInt(s, GetInt(bag, property, -1))
      case DoubleParam => InvokeDouble(s, GetDouble(bag, property, Finite(-1.0)))
      case EnumParam(constants) => ResolveOnly(constants, bag[property])
      case OtherParam(_) => CannotCall
    else if property == MAX_ITERATIONS then InvokeInt(s, GetMaxIterations(bag))
    else Untouched
  }

  /** What the loader of either version does with one method of the builder. */
  function EffectOf(v: Version, bag: Bag, s: Setter): (e: Effect)
    ensures !Considered(s) ==> e == Untouched
    ensures e.Invoked? ==> Considered(s) && Accepts(s.category, e.arg) && e.arg !in s.rejects
    ensures e.Resolved? ==> Considered(s) && s.category.EnumParam? && PropertyName(s.name) in bag
                            && bag[PropertyName(s.name)] == StrV(e.constant)
                            && e.constant in s.category.constants
    ensures e == CannotCall ==> v.Latest? && s.category.OtherParam? && PropertyName(s.name) in bag
  {
    if !Considered(s) then Untouched
    else match v
      case Root(derived) => RootEffect(derived, bag, s)
      case Latest => LatestEffect(bag, s)
  }

  /**
   * Neither version ever calls an enum setter: a present enum property only
   * looks its constant up, and the fallback's `int` cannot reach an enum
   * parameter. A setter of another type is called only by the fallback, as
   * `setMaxIterations` with the derived count.
   */
  lemma WhichSettersInvoked(v: Version, bag: Bag, s: Setter)
    ensures s.category.EnumParam? ==> !EffectOf(v, bag, s).Invoked?
    ensures var e := EffectOf(v, bag, s);
            e.Invoked? && s.category.OtherParam? ==>
              && PropertyName(s.name) == MAX_ITERATIONS
              && e.arg.IntArg?
              && MaxIterationsFor(v, bag) == Ok(e.arg.i)
  {
  }

  /** The argument is the property's value: the same integer, the same double, or an integer widened. */
  predicate FromValue(a: Arg, x: Value)
  {
    match a
    case IntArg(i) => x == IntV(i)
    case DoubleArg(d) => x == RealV(d) || (x.IntV? && d == IntToDouble(x.i))
  }

  /**
   * A present property reaches an int or double setter unchanged (a double
   * setter also takes an integer value, widened), unless the setter rejects
   * it. Every call made for a present property passes its value, except in the
   * root version for a setter of another type, which falls through to the
   * `maxIterations` fallback.
   */
  lemma PresentPropertyPassedThrough(v: Version, bag: Bag, s: Setter)
    requires Considered(s) && PropertyName(s.name) in bag
    ensures var x := bag[PropertyName(s.name)];
            && (s.category.IntParam? && x.IntV? && IntArg(x.i) !in s.rejects ==>
                  EffectOf(v, bag, s) == Invoked(IntArg(x.i)))
            && (s.category.DoubleParam? && x.RealV? && DoubleArg(x.d) !in s.rejects ==>
                  EffectOf(v, bag, s) == Invoked(DoubleArg(x.d)))
            && (s.category.DoubleParam? && x.IntV? && DoubleArg(IntToDouble(x.i)) !in s.rejects ==>
                  EffectOf(v, bag, s) == Invoked(DoubleArg(IntToDouble(x.i))))
    ensures s.category.IntParam? && !bag[PropertyName(s.name)].IntV? ==> EffectOf(v, bag, s) == Failed
    ensures EffectOf(v, bag, s).Invoked? && !(v.Root? && s.category.OtherParam?) ==>
              FromValue(EffectOf(v, bag, s).arg, bag[PropertyName(s.name)])
  {
  }

  /**
   * In the latest provider the derived iteration count is passed only when
   * `maxIterations` is absent from the bag, and only to a setter of that name.
   */
  lemma LatestFallbackOnlyWhenAbsent(bag: Bag, s: Setter)
    requires Considered(s)
    ensures var e := EffectOf(Latest, bag, s);
            e.Invoked? && PropertyName(s.name) !in bag ==>
              PropertyName(s.name) == MAX_ITERATIONS && GetMaxIterations(bag).Ok?
              && e.arg == IntArg(GetMaxIterations(bag).value)
  {
  }

  /**
   * The converse, in both versions: a `maxIterations` setter whose property is
   * absent is called with the derived count whenever the count was derived
   * and the setter can take and accepts it; otherwise it fails.
   */
  lemma FallbackInvoked(v: Version, bag: Bag, s: Setter)
    requires Considered(s) && PropertyName(s.name) == MAX_ITERATIONS && MAX_ITERATIONS !in bag
    ensures var d := MaxIterationsFor(v, bag);
            EffectOf(v, bag, s) ==
              if d.Ok? && Accepts(s.category, IntArg(d.value)) && IntArg(d.value) !in s.rejects
              then Invoked(IntArg(d.value)) else Failed
  {
  }

  /** A present enum property resolves exactly when it names a constant; any other value fails. */
  lemma PresentEnumResolved(v: Version, bag: Bag, s: Setter)
    requires Considered(s) && s.category.EnumParam? && PropertyName(s.name) in bag
    ensures var x := bag[PropertyName(s.name)];
            EffectOf(v, bag, s) == if x.StrV? && x.s in s.category.constants then Resolved(x.s) else Failed
  {
  }

  /** With only a population size of 50, the builder's `setMaxIterations` receives 500. */
  lemma LatestFallbackExample()
    ensures Applied(Latest, map["populationSize" := IntV(50)], [Setter("setMaxIterations", true, 1, IntParam, {})])
            == [Call("setMaxIterations", IntArg(500))]
  {
    PropertyNameExample();
    IntDivNonNegative(25000, 50);
  }

  /**
   * The two versions agree on every setter whose parameter is not of another
   * type, given the same derived count. For another type with the property
   * present, the root version falls through to the fallback, the latest only
   * reports it.
   */
  lemma VersionsAgreeOnTypedSetters(bag: Bag, s: Setter)
    requires !s.category.OtherParam?
    ensures EffectOf(Root(GetMaxIterations(bag)), bag, s) == EffectOf(Latest, bag, s)
  {
  }

  lemma VersionsDifferOnOtherSetters(bag: Bag, derived: Result<Int32, Error>, s: Setter)
    requires Considered(s) && s.category.OtherParam? && PropertyName(s.name) in bag
    ensures EffectOf(Latest, bag, s) == CannotCall
    ensures EffectOf(Root(derived), bag, s) ==
              if PropertyName(s.name) != MAX_ITERATIONS then Untouched
              else if derived.Ok? && s.category.takesInt && IntArg(derived.value) !in s.rejects then Invoked(IntArg(derived.value))
              else Failed
  {
  }

  /** The calls the builder receives while the loader walks its methods in order. */
  function Applied(v: Version, bag: Bag, setters: seq<Setter>): (calls: seq<Call>)
    decreases |setters|
  {
    if setters == [] then []
    else
      var s := setters[|setters| - 1];
      var earlier := Applied(v, bag, setters[..|setters| - 1]);
      match EffectOf(v, bag, s)
      case Invoked(a) => earlier + [Call(s.name, a)]
      case _ => earlier
  }

  /**
   * A setter's outcome does not depend on the setters before it: a failure is
   * caught and the walk carries on, so loading a table in two halves gives the
   * calls of each half, in order.
   */
  lemma {:induction false} AppliedAppend(v: Version, bag: Bag, a: seq<Setter>, b: seq<Setter>)
    ensures Applied(v, bag, a + b) == Applied(v, bag, a) + Applied(v, bag, b)
    decreases |b|
  {
    if b == [] {
      assert a + b == a;
    } else {
      var b' := b[..|b| - 1];
      assert (a + b)[..|a + b| - 1] == a + b';
      assert (a + b)[|a + b| - 1] == b[|b| - 1];
      AppliedAppend(v, bag, a, b');
    }
  }

  /** The builder receives a call exactly for each method whose own outcome is an invocation. */
  lemma {:induction false} AppliedExactly(v: Version, bag: Bag, setters: seq<Setter>, c: Call)
    ensures c in Applied(v, bag, setters) <==>
              exists i :: 0 <= i < |setters| && setters[i].name == c.setter && EffectOf(v, bag, setters[i]) == Invoked(c.arg)
    decreases |setters|
  {
    if setters != [] {
      var n := |setters| - 1;
      var init := setters[..n];
      AppliedExactly(v, bag, init, c);
      if c in Applied(v, bag, setters) && c !in Applied(v, bag, init) {
        assert setters[n].name == c.setter && EffectOf(v, bag, setters[n]) == Invoked(c.arg);
      }
      if exists i :: 0 <= i < |setters| && setters[i].name == c.setter && EffectOf(v, bag, setters[i]) == Invoked(c.arg) {
        var i :| 0 <= i < |setters| && setters[i].name == c.setter && EffectOf(v, bag, setters[i]) == Invoked(c.arg);
        if i < n {
          assert init[i] == setters[i];
        }
      }
    }
  }

  /** The properties whose setter failed while the loader walked the methods. */
  function FailedProperties(v: Version, bag: Bag, setters: seq<Setter>): (failed: set<string>)
    decreases |setters|
  {
    if setters == [] then {}
    else
      var s := setters[|setters| - 1];
      var earlier := FailedProperties(v, bag, setters[..|setters| - 1]);
      if EffectOf(v, bag, s) == Failed then earlier + {PropertyName(s.name)} else earlier
  }

  /** Every property whose setter failed on its own is reported failed. */
  lemma {:induction false} FailedReported(v: Version, bag: Bag, setters: seq<Setter>, i: nat)
    requires i < |setters| && EffectOf(v, bag, setters[i]) == Failed
    ensures PropertyName(setters[i].name) in FailedProperties(v, bag, setters)
    decreases |setters|
  {
    var n := |setters| - 1;
    if i < n {
      assert setters[..n][i] == setters[i];
      FailedReported(v, bag, setters[..n], i);
    }
  }

  /** Only properties whose setter failed on its own are reported failed. */
  lemma {:induction false} FailedOnlyWhenFailing(v: Version, bag: Bag, setters: seq<Setter>, p: string)
    requires p in FailedProperties(v, bag, setters)
    ensures exists i :: 0 <= i < |setters| && EffectOf(v, bag, setters[i]) == Failed && PropertyName(setters[i].name) == p
    decreases |setters|
  {
    var n := |setters| - 1;
    if p in FailedProperties(v, bag, setters[..n]) {
      FailedOnlyWhenFailing(v, bag, setters[..n], p);
      var i :| 0 <= i < n && EffectOf(v, bag, setters[..n][i]) == Failed && PropertyName(setters[..n][i].name) == p;
      assert setters[..n][i] == setters[i];
    } else {
      assert EffectOf(v, bag, setters[n]) == Failed && PropertyName(setters[n].name) == p;
    }
  }

  /**
   * The loader's walk over the builder's methods: the calls the builder
   * receives, and the properties whose setter failed.
   */
  method LoadProperties(v: Version, bag: Bag, setters: seq<Setter>) returns (calls: seq<Call>, failed: set<string>)
    ensures calls == Applied(v, bag, setters)
    ensures failed == FailedProperties(v, bag, setters)
  {
    calls, failed := [], {};
    var i := 0;
    while i < |setters|
      invariant 0 <= i <= |setters|
      invariant calls == Applied(v, bag, setters[..i])
      invariant failed == FailedProperties(v, bag, setters[..i])
    {
      var s := setters[i];
      assert setters[..i + 1][..i] == setters[..i];
      var e := EffectOf(v, bag, s);
      if e.Invoked? {
        calls := calls + [Call(s.name, e.arg)];
      } else if e == Failed {
        failed := failed + {PropertyName(s.name)};
      }
      i := i + 1;
    }
    assert setters[..i] == setters;
  }
}
