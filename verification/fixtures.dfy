/**
 The test fixture `DummyTarget`, the scenarios the repository's tests
 exercise, and one call through the current engine on the same fixture,
 stated as lemmas about both engines.
 */
module Fixtures {
  import opened Values
  import opened Targets
  import Interceptor
  import Legacy

  /** Python's binding of a call's arguments to the parameter at position
      `index` named `param`: by position, else by keyword, and a `TypeError`
      when it is given both ways or not at all. */
  function Argument(c: Call, index: nat, param: string): Outcome
  {
    if index < |c.args| then
      if param in c.kwargs then Raised(TypeError("got multiple values for argument '" + param + "'"))
      else Returned(c.args[index])
    else if param in c.kwargs then Returned(c.kwargs[param])
    else Raised(TypeError("missing a required argument: '" + param + "'"))
  }

  /** Python's `a + b` on the values the fixture uses. */
  function Plus(a: Value, b: Value): Outcome
  {
    match (a, b)
    case (Int(x), Int(y)) => Returned(Int(x + y))
    case (Str(x), Str(y)) => Returned(Str(x + y))
    case _ => Raised(TypeError("unsupported operand type(s) for +"))
  }

  /** Every method of `DummyTarget`: `(a, b)` bound from the call, returning `a + b`. */
  function Add(c: Call): Outcome
  {
    if |c.args| > 2 then Raised(TypeError("takes 2 positional arguments"))
    else if exists k :: k in c.kwargs && k != "a" && k != "b" then Raised(TypeError("got an unexpected keyword argument"))
    else
      match (Argument(c, 0, "a"), Argument(c, 1, "b"))
      case (Raised(e), _) => Raised(e)
      case (_, Raised(e)) => Raised(e)
      case (Returned(a), Returned(b)) => Plus(a, b)
  }

  /** Calling an attribute that is not callable. */
  function NotCallable(c: Call): Outcome
  {
    Raised(TypeError("object is not callable"))
  }

  /** `DummyTarget` (class or instance) with its five methods, the private
      one under its mangled name, and representatives of what it inherits
      from `object`; `add` and `inert` are the engine's bindings of `Add`
      and `NotCallable`. */
  function DummyTarget<B>(view: View, add: B, inert: B): Target<B>
  {
    Target(view, map[
      "public_method" := Member(Def, add),
      "_protected_method" := Member(Def, add),
      "_DummyTarget__private_method" := Member(Def, add),
      "static_method" := Member(StaticDef, add),
      "class_method" := Member(ClassDef, add),
      "__init__" := Member(Builtin, inert),
      "__subclasshook__" := Member(Builtin, inert),
      "__module__" := Member(Data, inert),
      "__doc__" := Member(Data, inert)])
  }

  /** `METHODS` as the fixture declares it: a list. */
  const MethodsList: seq<string> :=
    ["public_method", "_protected_method", "_DummyTarget__private_method", "static_method", "class_method"]

  /** `set(METHODS)`. */
  const Methods: set<string> :=
    {"public_method", "_protected_method", "_DummyTarget__private_method", "static_method", "class_method"}

  /** A Python `set` or `list` of strings, as far as `==` between them goes. */
  datatype Collection = PySet(elements: set<string>) | PyList(items: seq<string>)

  /** Python's `==` on these collections: a set never equals a list. */
  function PyEquals(a: Collection, b: Collection): (r: bool)
    ensures a.PySet? != b.PySet? ==> !r
    ensures a.PySet? && b.PySet? ==> (r <==> a.elements == b.elements)
  {
    match (a, b)
    case (PySet(x), PySet(y)) => x == y
    case (PyList(x), PyList(y)) => x == y
    case _ => false
  }

  /** `get_methods` on `DummyTarget` finds exactly the five methods, on the
      class and on an instance alike. */
  lemma DummyMethodsDiscovered<B>(add: B, inert: B)
    ensures GetMethods(DummyTarget(OnClass, add, inert)) == Methods
    ensures GetMethods(DummyTarget(OnInstance, add, inert)) == Methods
  {
    var c := DummyTarget(OnClass, add, inert);
    var i := DummyTarget(OnInstance, add, inert);
    assert forall n :: n in c.members ==> (n in Methods <==> Discoverable(c.members[n].kind, OnClass));
    assert forall n :: n in i.members ==> (n in Methods <==> Discoverable(i.members[n].kind, OnInstance));
  }

  /** The call `m(1, b=2)`. */
  const OneB2: Call := Call([Int(1)], map["b" := Int(2)])

  lemma AddOneB2()
    ensures Add(OneB2) == Returned(Int(3))
  {
    assert !exists k :: k in OneB2.kwargs && k != "a" && k != "b";
  }

  /** The tests' `inject`: asserts it sees `expected`, `1` and `b=2`, else raises `AssertionError`. */
  function Checker(expected: string): Legacy.Inject
  {
    (ic: Call) =>
      if |ic.args| >= 2 && ic.args[0] == Str(expected) && ic.args[1] == Int(1)
         && "b" in ic.kwargs && ic.kwargs["b"] == Int(2)
      then Returned(NoneValue)
      else Raised(Exception("AssertionError", NoneValue))
  }

  function LegacyDummy(): Target<Legacy.Binding>
  {
    DummyTarget(OnInstance, Legacy.Original(Add), Legacy.Original(NotCallable))
  }

  /** Each method of `DummyTarget` intercepted with the checking `inject`:
      `m(1, b=2)` returns 3 without blocking and `None` with blocking, and
      `inject` has been called first, with the method's name. */
  lemma LegacyInterceptDummy(name: string)
    requires name in Methods
    ensures var t := Legacy.InterceptMethod(LegacyDummy(), name, Checker(name), false);
            var r := Legacy.CallMember(t.target, name, OneB2);
            t.error.None? && r.outcome == Returned(Int(3))
            && r.trace == [Legacy.Injected(Call([Str(name), Int(1)], map["b" := Int(2)])), Legacy.Invoked(OneB2)]
    ensures var t := Legacy.InterceptMethod(LegacyDummy(), name, Checker(name), true);
            var r := Legacy.CallMember(t.target, name, OneB2);
            t.error.None? && r.outcome == Returned(NoneValue)
            && r.trace == [Legacy.Injected(Call([Str(name), Int(1)], map["b" := Int(2)]))]
  {
    AddOneB2();
    var ic := Legacy.InjectCall(name, OneB2);
    assert ic == Call([Str(name), Int(1)], map["b" := Int(2)]);
    assert Checker(name)(ic) == Returned(NoneValue);
    assert name in LegacyDummy().members && LegacyDummy().members[name].binding == Legacy.Original(Add);
    Legacy.NonBlockingReturnsOriginal(LegacyDummy(), name, Checker(name), OneB2);
    Legacy.BlockingReturnsNone(LegacyDummy(), name, Checker(name), OneB2);
  }

  /** Intercepting `foo_bar`, which `DummyTarget` lacks, raises
      `InterceptionError("Target object does not have a method 'foo_bar'.")`. */
  lemma LegacyMissingFooBar(inject: Legacy.Inject, blocking: bool)
    ensures var r := Legacy.InterceptMethod(LegacyDummy(), "foo_bar", inject, blocking);
            r.error == Some(InterceptionError("Target object does not have a method 'foo_bar'."))
            && r.target == LegacyDummy()
  {
    assert "foo_bar" !in LegacyDummy().members;
    assert MissingMemberMessage("foo_bar") == "Target object does not have a method 'foo_bar'.";
  }

  /** The tests' batch `inject`: asserts `1` and `b=2`, records the name. */
  function Recorder(): Legacy.Inject
  {
    (ic: Call) =>
      if |ic.args| >= 2 && ic.args[1] == Int(1) && "b" in ic.kwargs && ic.kwargs["b"] == Int(2)
      then Returned(NoneValue)
      else Raised(Exception("AssertionError", NoneValue))
  }

  /** Intercepting every discovered method of `DummyTarget` in blocking
      mode, then calling once with `(1, b=2)` each method discovery finds on
      the intercepted target, shows `inject` exactly the five method names. */
  lemma LegacyBatchDummy()
    ensures Methods <= LegacyDummy().members.Keys
    ensures var t := WrapEach(LegacyDummy(), Methods, Legacy.ProxyOf(Recorder(), true));
            && GetMethods(t) == Methods
            && Legacy.SeenAfterCallingEach(t, GetMethods(t), OneB2) == Methods
  {
    DummyMethodsDiscovered(Legacy.Original(Add), Legacy.Original(NotCallable));
    forall n | n in GetMethods(LegacyDummy())
      ensures !Recorder()(Legacy.InjectCall(n, OneB2)).Raised?
    {
      assert Legacy.InjectCall(n, OneB2).args[1] == Int(1);
    }
    Legacy.BatchSeesDiscovered(LegacyDummy(), Recorder(), OneB2);
  }

  /** `set(METHODS)` holds exactly the five method names. */
  lemma MethodsListAsSet()
    ensures Methods == set m | m in MethodsList
  {
  }

  /** The batch test's last assertion as written compares the set of names
      `inject` has seen with the list `METHODS`; Python's `==` makes that
      False whatever the engine did, so the test cannot pass as written. */
  lemma BatchAssertionAsWritten()
    ensures Methods <= LegacyDummy().members.Keys
    ensures var t := WrapEach(LegacyDummy(), Methods, Legacy.ProxyOf(Recorder(), true));
            !PyEquals(PySet(Legacy.SeenAfterCallingEach(t, Methods, OneB2)), PyList(MethodsList))
  {
  }

  /** The recording observer of the current engine: returns `None` and leaves the envelope as it was. */
  function Logger(): Interceptor.Observer
  {
    (info: Interceptor.InterceptInfo) => Interceptor.Reply(Returned(NoneValue), info)
  }

  /** An extra scenario: the current engine intercepting `public_method`
      without blocking, called as `public_method(1, b=2)`: the call returns
      3, the original runs once, and one envelope is recorded with the name,
      `args == (1,)`, `kwargs == {"b": 2}`, `ret_value == 3`, no exception
      and the call's clock reading. */
  lemma CurrentEngineAddScenario(now: int)
    ensures var t := DummyTarget(OnInstance, Interceptor.Original(Add), Interceptor.Original(NotCallable));
            var i := Interceptor.InterceptSingle("public_method", t, Logger(), false);
            var r := Interceptor.CallMember(i.target, "public_method", OneB2, now);
            && i.error.None?
            && r.outcome == Returned(Int(3))
            && r.trace == [Interceptor.Invoked(OneB2),
                           Interceptor.Observed(Interceptor.InterceptInfo(
                             "public_method", false, [Int(1)], map["b" := Int(2)], Int(3), None, now))]
  {
    AddOneB2();
    var t := DummyTarget(OnInstance, Interceptor.Original(Add), Interceptor.Original(NotCallable));
    assert "public_method" in t.members && t.members["public_method"].binding == Interceptor.Original(Add);
    Interceptor.NonBlockingTransparency(t, "public_method", Logger(), OneB2, now);
  }
}
