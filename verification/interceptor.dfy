/**
 The current interception engine (`interceptor.py`). A proxy hands the
 observer an `InterceptInfo` envelope. In blocking mode the observer's
 result replaces the original operation, which never runs. In non-blocking
 mode the original runs first, its result or exception is recorded in the
 envelope, and the observer is notified. The call then raises the exception
 or returns the result that the envelope holds once the observer is done.
 The observer is handed the envelope itself and may have rewritten it.

 Calling a binding yields a `Run`: the call's outcome plus the trace of what
 happened during it (originals invoked, envelopes observed), in order.
 */
module Interceptor {
  import opened Values
  import opened Targets

  /** The envelope handed to the observer on every intercepted call.
      `timestamp` is the caller-supplied clock reading of the call. */
  datatype InterceptInfo = InterceptInfo(
    name: string,
    blocking: bool,
    args: seq<Value>,
    kwargs: map<string, Value>,
    retValue: Value,
    exception: Option<Error>,
    timestamp: int)

  /** How the observer finished: it returned or raised (`outcome`), and
      `after` is the envelope as it left it. Python hands the observer the
      envelope object itself, so `after` may differ from what it was given. */
  datatype Reply = Reply(outcome: Outcome, after: InterceptInfo)

  /** The `inject` callable: receives an envelope, returns or raises. */
  type Observer = InterceptInfo -> Reply

  /** The observer leaves the recorded result and exception of `info` as it found them. */
  ghost predicate KeepsRecord(inject: Observer, info: InterceptInfo)
  {
    inject(info).after.retValue == info.retValue && inject(info).after.exception == info.exception
  }

  /** The non-blocking proxy's last step: re-raise the envelope's exception
      if one is present, else return its `ret_value`. */
  function Reraise(info: InterceptInfo): (o: Outcome)
    ensures o.Raised? <==> info.exception.Some?
    ensures o.Raised? ==> o.error == info.exception.value
    ensures o.Returned? ==> o.value == info.retValue
  {
    if info.exception.Some? then Raised(info.exception.value) else Returned(info.retValue)
  }

  /** What a name is bound to: an original operation, or a proxy installed
      under `name` that captured `fn`, whatever `getattr` returned then. */
  datatype Binding =
    | Original(op: Call -> Outcome)
    | Proxy(name: string, blocking: bool, inject: Observer, fn: Binding)

  datatype Event = Invoked(call: Call) | Observed(info: InterceptInfo)

  datatype Run = Run(outcome: Outcome, trace: seq<Event>)

  /** A freshly built envelope: the name, the mode and the caller's
      arguments, with `ret_value` and `exception` at their default `None`. */
  function Fresh(name: string, blocking: bool, c: Call, now: int): (info: InterceptInfo)
    ensures info.name == name && info.blocking == blocking && info.timestamp == now
    ensures info.args == c.args && info.kwargs == c.kwargs
    ensures info.retValue == NoneValue && info.exception == None
  {
    InterceptInfo(name, blocking, c.args, c.kwargs, NoneValue, None, now)
  }

  /** The non-blocking envelope once the original has finished with `o`:
      an exception is recorded exactly when the original raised, and
      otherwise `ret_value` holds its result, which may itself be `None`.
      Capturing an outcome and then re-raising it gives that outcome back. */
  function Recorded(name: string, c: Call, o: Outcome, now: int): (info: InterceptInfo)
    ensures Reraise(info) == o
    ensures info.name == name && !info.blocking
    ensures info.args == c.args && info.kwargs == c.kwargs && info.timestamp == now
    ensures info.exception.Some? <==> o.Raised?
    ensures o.Raised? ==> info.exception == Some(o.error) && info.retValue == NoneValue
    ensures o.Returned? ==> info.retValue == o.value
  {
    match o
    case Returned(v) => Fresh(name, false, c, now).(retValue := v)
    case Raised(e) => Fresh(name, false, c, now).(exception := Some(e))
  }

  /** Calls a binding; `now` is the clock reading every envelope of this call carries.
      The original, if it runs at all, runs first and with exactly the
      caller's arguments; everything after it is an observer notification. */
  function Invoke(b: Binding, c: Call, now: int): (r: Run)
    ensures r.trace != []
    ensures r.trace[0].Invoked? ==> r.trace[0] == Invoked(c)
    ensures forall i :: 0 < i < |r.trace| ==> r.trace[i].Observed?
    ensures b.Proxy? ==> r.trace[|r.trace| - 1].Observed?
  {
    match b
    case Original(op) => Run(op(c), [Invoked(c)])
    case Proxy(name, blocking, inject, fn) =>
      if blocking then
        var info := Fresh(name, true, c, now);
        Run(inject(info).outcome, [Observed(info)])
      else
        var inner := Invoke(fn, c, now);
        var info := Recorded(name, c, inner.outcome, now);
        var reply := inject(info);
        var outcome := if reply.outcome.Raised? then reply.outcome else Reraise(reply.after);
        Run(outcome, inner.trace + [Observed(info)])
  }

  /** Calling `target.name(*args, **kwargs)`. */
  function CallMember(t: Target<Binding>, name: string, c: Call, now: int): Run
  {
    if name in t.members then Invoke(t.members[name].binding, c, now)
    else Run(Raised(AttributeError(name)), [])
  }

  /** The proxy an install builds from a name and its previous binding `fn`. */
  function ProxyOf(inject: Observer, blocking: bool): (string, Binding) -> Binding
  {
    (name: string, fn: Binding) => Proxy(name, blocking, inject, fn)
  }

  /** `intercept_single`. A missing member raises `InterceptionError` naming
      it and leaves the target as it was; otherwise exactly `methods` is
      rebound, to a proxy over its previous binding. */
  function InterceptSingle(methods: string, t: Target<Binding>, inject: Observer, blocking: bool): (r: Installed<Binding>)
    ensures r.error.None? <==> methods in t.members
    ensures r.error.Some? ==>
              r.error == Some(InterceptionError(MissingMemberMessage(methods))) && r.target == t
    ensures r.target.view == t.view && r.target.members.Keys == t.members.Keys
    ensures r.error.None? ==>
              && r.target.members[methods].kind == Attached
              && r.target.members[methods].binding == Proxy(methods, blocking, inject, t.members[methods].binding)
    ensures forall k :: k in t.members && k != methods ==> r.target.members[k] == t.members[k]
  {
    if methods !in t.members then Installed(t, Some(InterceptionError(MissingMemberMessage(methods))))
    else Installed(SetAttr(t, methods, Member(Attached, Proxy(methods, blocking, inject, t.members[methods].binding))), None)
  }

  /** `intercept_multiple`: `intercept_single` for each name in the set, in
      the set's (unspecified) iteration order, stopping at the first
      missing name. On success every name is wrapped exactly once. On
      failure the error names a missing member, and each name processed
      before it may already be wrapped. */
  method InterceptMultiple(methods: set<string>, t: Target<Binding>, inject: Observer, blocking: bool)
    returns (r: Installed<Binding>)
    ensures r.error.None? <==> methods <= t.members.Keys
    ensures r.error.None? ==> r.target == WrapEach(t, methods, ProxyOf(inject, blocking))
    ensures r.error.Some? ==>
              exists n :: n in methods && n !in t.members
                          && r.error == Some(InterceptionError(MissingMemberMessage(n)))
    ensures r.target.view == t.view && r.target.members.Keys == t.members.Keys
    ensures forall k :: k in t.members ==>
              r.target.members[k] == t.members[k]
              || (k in methods && r.target.members[k] == Member(Attached, Proxy(k, blocking, inject, t.members[k].binding)))
  {
    var current := t;
    var todo := methods;
    while todo != {}
      invariant todo <= methods
      invariant methods - todo <= t.members.Keys
      invariant current == WrapEach(t, methods - todo, ProxyOf(inject, blocking))
      decreases todo
    {
      var name :| name in todo;
      var step := InterceptSingle(name, current, inject, blocking);
      if step.error.Some? {
        return Installed(current, step.error);
      }
      ghost var done := methods - todo;
      assert current.members[name] == t.members[name];
      todo := todo - {name};
      assert methods - todo == done + {name};
      current := step.target;
    }
    assert methods - todo == methods;
    return Installed(current, None);
  }

  /** The first argument of `intercept`, dispatched on its Python type. */
  datatype Names = Single(name: string) | Many(names: set<string>) | Unsupported(typeName: string)

  /** `intercept`: a `str` goes to `intercept_single`, a `set` to
      `intercept_multiple`, and anything else raises `NotImplementedError`
      without touching the target. */
  method Intercept(methods: Names, t: Target<Binding>, inject: Observer, blocking: bool) returns (r: Installed<Binding>)
    ensures methods.Unsupported? ==>
              r == Installed(t, Some(NotImplementedError(NotImplementedMessage(methods.typeName))))
    ensures methods.Single? ==> r == InterceptSingle(methods.name, t, inject, blocking)
    ensures methods.Many? ==> (r.error.None? <==> methods.names <= t.members.Keys)
    ensures methods.Many? && r.error.None? ==> r.target == WrapEach(t, methods.names, ProxyOf(inject, blocking))
    ensures methods.Many? && r.error.Some? ==>
              exists n :: n in methods.names && n !in t.members
                          && r.error == Some(InterceptionError(MissingMemberMessage(n)))
    ensures methods.Many? ==> r.target.view == t.view && r.target.members.Keys == t.members.Keys
    ensures methods.Many? ==>
              forall k :: k in t.members ==>
                r.target.members[k] == t.members[k]
                || (k in methods.names && r.target.members[k] == Member(Attached, Proxy(k, blocking, inject, t.members[k].binding)))
    ensures r.error.Some? && !methods.Unsupported? ==> r.error.value.InterceptionError?
  {
    match methods
    case Single(name) =>
      r := InterceptSingle(name, t, inject, blocking);
    case Many(names) =>
      r := InterceptMultiple(names, t, inject, blocking);
    case Unsupported(typeName) =>
      r := Installed(t, Some(NotImplementedError(NotImplementedMessage(typeName))));
  }

  // ---------------------------------------------------------------------
  // Call semantics of an installed proxy

  /** Blocking substitution: the original is never invoked; the observer is
      called exactly once, with the name, `blocking=True`, the caller's
      arguments and no result or exception; its outcome is the call's. */
  lemma BlockingSubstitution(t: Target<Binding>, name: string, inject: Observer, c: Call, now: int)
    requires name in t.members
    ensures var r := CallMember(InterceptSingle(name, t, inject, true).target, name, c, now);
            var info := InterceptInfo(name, true, c.args, c.kwargs, NoneValue, None, now);
            r.outcome == inject(info).outcome && r.trace == [Observed(info)]
  {
  }

  /** Non-blocking transparency: when the original returns `v` and the
      observer does not raise, the call returns `v`; the observer is called
      once, after everything the original did, with `ret_value == v` and no
      exception; what it returns is discarded. This holds for observers that
      leave `ret_value` and `exception` as they found them. */
  lemma NonBlockingTransparency(t: Target<Binding>, name: string, inject: Observer, c: Call, now: int)
    requires name in t.members
    requires Invoke(t.members[name].binding, c, now).outcome.Returned?
    requires var info := InterceptInfo(name, false, c.args, c.kwargs,
                                       Invoke(t.members[name].binding, c, now).outcome.value, None, now);
             !inject(info).outcome.Raised? && KeepsRecord(inject, info)
    ensures var original := Invoke(t.members[name].binding, c, now);
            var r := CallMember(InterceptSingle(name, t, inject, false).target, name, c, now);
            && r.outcome == original.outcome
            && r.trace == original.trace
                          + [Observed(InterceptInfo(name, false, c.args, c.kwargs, original.outcome.value, None, now))]
  {
  }

  /** Exception round trip: when the original raises `e` and the observer
      does not raise, the observer still runs, sees `exception == e` with
      `ret_value` left at `None`, and then `e` itself is raised to the caller,
      provided the observer leaves `ret_value` and `exception` as they were. */
  lemma ExceptionRoundTrip(t: Target<Binding>, name: string, inject: Observer, c: Call, now: int, e: Error)
    requires name in t.members
    requires Invoke(t.members[name].binding, c, now).outcome == Raised(e)
    requires var info := InterceptInfo(name, false, c.args, c.kwargs, NoneValue, Some(e), now);
             !inject(info).outcome.Raised? && KeepsRecord(inject, info)
    ensures var r := CallMember(InterceptSingle(name, t, inject, false).target, name, c, now);
            && r.outcome == Raised(e)
            && r.trace == Invoke(t.members[name].binding, c, now).trace
                          + [Observed(InterceptInfo(name, false, c.args, c.kwargs, NoneValue, Some(e), now))]
  {
  }

  /** Observer failure: in non-blocking mode an exception raised by the
      observer is what the call raises, replacing the original's result or
      exception alike. */
  lemma ObserverFailure(t: Target<Binding>, name: string, inject: Observer, c: Call, now: int, f: Error)
    requires name in t.members
    requires inject(Recorded(name, c, Invoke(t.members[name].binding, c, now).outcome, now)).outcome == Raised(f)
    ensures CallMember(InterceptSingle(name, t, inject, false).target, name, c, now).outcome == Raised(f)
  {
  }

  /** Observer write-back: when the observer returns normally, the call
      ends with whatever the envelope holds afterwards. An observer that sets
      `ret_value` changes the result, one that clears `exception` swallows
      the original's error, and one that sets `exception` raises that instead. */
  lemma ObserverWriteBack(t: Target<Binding>, name: string, inject: Observer, c: Call, now: int)
    requires name in t.members
    requires !inject(Recorded(name, c, Invoke(t.members[name].binding, c, now).outcome, now)).outcome.Raised?
    ensures var after := inject(Recorded(name, c, Invoke(t.members[name].binding, c, now).outcome, now)).after;
            var r := CallMember(InterceptSingle(name, t, inject, false).target, name, c, now);
            && (after.exception.Some? ==> r.outcome == Raised(after.exception.value))
            && (after.exception.None? ==> r.outcome == Returned(after.retValue))
  {
  }

  /** A missing member leaves every call on the target behaving as before. */
  lemma MissingMemberHarmless(t: Target<Binding>, name: string, inject: Observer, blocking: bool,
                              other: string, c: Call, now: int)
    requires name !in t.members
    ensures var r := InterceptSingle(name, t, inject, blocking);
            && r.error == Some(InterceptionError(MissingMemberMessage(name)))
            && CallMember(r.target, other, c, now) == CallMember(t, other, c, now)
  {
  }

  /** Installing makes the name discoverable and changes the discovery of no other name. */
  lemma DiscoveryAfterIntercept(t: Target<Binding>, name: string, inject: Observer, blocking: bool)
    requires name in t.members
    ensures GetMethods(InterceptSingle(name, t, inject, blocking).target) == GetMethods(t) + {name}
  {
    DiscoveryAfterAttach(t, name, Proxy(name, blocking, inject, t.members[name].binding));
  }

  /** Re-installing non-blocking interception on an intercepted name chains
      the proxies: the original runs once, then the first observer, then the
      second, each with its own envelope, equal apart from the timestamp
      (the model gives every envelope of one call the same clock reading), and the
      original's result is still what the caller gets, provided neither
      observer raises or rewrites the recorded result. */
  lemma ReinstallChains(t: Target<Binding>, name: string, first: Observer, second: Observer, c: Call, now: int)
    requires name in t.members
    requires var info := Recorded(name, c, Invoke(t.members[name].binding, c, now).outcome, now);
             && !first(info).outcome.Raised? && KeepsRecord(first, info)
             && !second(info).outcome.Raised? && KeepsRecord(second, info)
    ensures var original := Invoke(t.members[name].binding, c, now);
            var info := Recorded(name, c, original.outcome, now);
            var once := InterceptSingle(name, t, first, false).target;
            var r := CallMember(InterceptSingle(name, once, second, false).target, name, c, now);
            && r.outcome == original.outcome
            && r.trace == original.trace + [Observed(info), Observed(info)]
  {
    var once := InterceptSingle(name, t, first, false).target;
    var original := Invoke(t.members[name].binding, c, now);
    assert Invoke(once.members[name].binding, c, now).outcome == original.outcome;
  }

  /** A single name installed through the set form behaves as the single form. */
  lemma SingletonSetIsSingle(t: Target<Binding>, name: string, inject: Observer, blocking: bool)
    requires name in t.members
    ensures WrapEach(t, {name}, ProxyOf(inject, blocking)) == InterceptSingle(name, t, inject, blocking).target
  {
  }

  /** Batch install: after every name of a set is intercepted, one call to
      each produces a final envelope carrying that name and the call's
      blocking mode. */
  lemma BatchObservesEachName(t: Target<Binding>, names: set<string>, inject: Observer, blocking: bool,
                              c: Call, now: int)
    requires names <= t.members.Keys
    ensures forall n :: n in names ==>
              var r := CallMember(WrapEach(t, names, ProxyOf(inject, blocking)), n, c, now);
              && |r.trace| > 0
              && r.trace[|r.trace| - 1].Observed?
              && r.trace[|r.trace| - 1].info.name == n
              && r.trace[|r.trace| - 1].info.blocking == blocking
  {
  }

  // ---------------------------------------------------------------------
  // Chains of proxies

  /** A chain of non-blocking proxies, ending in an original, whose observers
      never raise and never rewrite the recorded result. */
  ghost predicate Transparent(b: Binding)
  {
    match b
    case Original(_) => true
    case Proxy(_, blocking, inject, fn) =>
      && !blocking
      && (forall info :: !inject(info).outcome.Raised? && KeepsRecord(inject, info))
      && Transparent(fn)
  }

  function Root(b: Binding): (op: Call -> Outcome)
  {
    match b
    case Original(op) => op
    case Proxy(_, _, _, fn) => Root(fn)
  }

  function Depth(b: Binding): nat
  {
    match b
    case Original(_) => 0
    case Proxy(_, _, _, fn) => 1 + Depth(fn)
  }

  /** However many times a name is re-intercepted without blocking, a call
      returns what the original operation returns, the original runs exactly
      once, and every proxy in the chain notifies its observer once. */
  lemma {:induction false} TransparentChain(b: Binding, c: Call, now: int)
    requires Transparent(b)
    ensures var r := Invoke(b, c, now);
            && r.outcome == Root(b)(c)
            && |r.trace| == Depth(b) + 1
            && r.trace[0] == Invoked(c)
  {
    match b
    case Original(_) =>
    case Proxy(name, _, inject, fn) =>
      TransparentChain(fn, c, now);
      var inner := Invoke(fn, c, now);
      var info := Recorded(name, c, inner.outcome, now);
      assert !inject(info).outcome.Raised? && KeepsRecord(inject, info);
  }
}
