/**
 The legacy interception engine (`intercept.py`). Its proxy always calls
 `inject(name, *args, **kwargs)` first. In blocking mode it then returns
 `None`; in non-blocking mode it returns whatever the captured original
 returns (or raises). An exception from `inject` ends the call at once.
 */
module Legacy {
  import opened Values
  import opened Targets

  /** The `inject` callable: called as `inject(name, *args, **kwargs)`. */
  type Inject = Call -> Outcome

  /** What a name is bound to: an original operation, or a proxy installed
      under `name` that captured `fn`, whatever `getattr` returned then. */
  datatype Binding =
    | Original(op: Call -> Outcome)
    | Proxy(name: string, blocking: bool, inject: Inject, fn: Binding)

  datatype Event = Invoked(call: Call) | Injected(call: Call)

  datatype Run = Run(outcome: Outcome, trace: seq<Event>)

  /** The call `inject` receives: the installed name, then the caller's
      positional arguments, and the caller's keyword arguments unchanged. */
  function InjectCall(name: string, c: Call): (ic: Call)
    ensures |ic.args| == |c.args| + 1 && ic.args[0] == Str(name) && ic.args[1..] == c.args
    ensures ic.kwargs == c.kwargs
  {
    Call([Str(name)] + c.args, c.kwargs)
  }

  /** Calls a binding. A proxy notifies `inject` before anything else
      happens; an original, if it runs at all, runs last and with exactly
      the caller's arguments. */
  function Invoke(b: Binding, c: Call): (r: Run)
    ensures r.trace != []
    ensures b.Proxy? ==> r.trace[0] == Injected(InjectCall(b.name, c))
    ensures forall i :: 0 <= i < |r.trace| - 1 ==> r.trace[i].Injected?
    ensures r.trace[|r.trace| - 1].Invoked? ==> r.trace[|r.trace| - 1] == Invoked(c)
  {
    match b
    case Original(op) => Run(op(c), [Invoked(c)])
    case Proxy(name, blocking, inject, fn) =>
      var notified := inject(InjectCall(name, c));
      var head := [Injected(InjectCall(name, c))];
      if notified.Raised? then Run(notified, head)
      else if blocking then Run(Returned(NoneValue), head)
      else
        var inner := Invoke(fn, c);
        Run(inner.outcome, head + inner.trace)
  }

  /** Calling `target.name(*args, **kwargs)`. */
  function CallMember(t: Target<Binding>, name: string, c: Call): Run
  {
    if name in t.members then Invoke(t.members[name].binding, c)
    else Run(Raised(AttributeError(name)), [])
  }

  /** The proxy an install builds from a name and its previous binding `fn`. */
  function ProxyOf(inject: Inject, blocking: bool): (string, Binding) -> Binding
  {
    (name: string, fn: Binding) => Proxy(name, blocking, inject, fn)
  }

  /** `intercept_method`. A missing member raises `InterceptionError` with
      the message "Target object does not have a method '<name>'." and
      leaves the target as it was; otherwise exactly `name` is rebound, to a
      proxy over its previous binding. */
  function InterceptMethod(t: Target<Binding>, name: string, inject: Inject, blocking: bool): (r: Installed<Binding>)
    ensures r.error.None? <==> name in t.members
    ensures r.error.Some? ==>
              r.error == Some(InterceptionError(MissingMemberMessage(name))) && r.target == t
    ensures r.target.view == t.view && r.target.members.Keys == t.members.Keys
    ensures r.error.None? ==>
              && r.target.members[name].kind == Attached
              && r.target.members[name].binding == Proxy(name, blocking, inject, t.members[name].binding)
    ensures forall k :: k in t.members && k != name ==> r.target.members[k] == t.members[k]
  {
    if name !in t.members then Installed(t, Some(InterceptionError(MissingMemberMessage(name))))
    else Installed(SetAttr(t, name, Member(Attached, Proxy(name, blocking, inject, t.members[name].binding))), None)
  }

  /** `intercept_methods`: `intercept_method` for each name in the set, in
      the set's (unspecified) iteration order, stopping at the first missing
      name. On success every name is wrapped exactly once; on failure the
      error names a missing member and earlier names may be wrapped. */
  method InterceptMethods(t: Target<Binding>, names: set<string>, inject: Inject, blocking: bool)
    returns (r: Installed<Binding>)
    ensures r.error.None? <==> names <= t.members.Keys
    ensures r.error.None? ==> r.target == WrapEach(t, names, ProxyOf(inject, blocking))
    ensures r.error.Some? ==>
              exists n :: n in names && n !in t.members
                          && r.error == Some(InterceptionError(MissingMemberMessage(n)))
    ensures r.target.view == t.view && r.target.members.Keys == t.members.Keys
    ensures forall k :: k in t.members ==>
              r.target.members[k] == t.members[k]
              || (k in names && r.target.members[k] == Member(Attached, Proxy(k, blocking, inject, t.members[k].binding)))
  {
    var current := t;
    var todo := names;
    while todo != {}
      invariant todo <= names
      invariant names - todo <= t.members.Keys
      invariant current == WrapEach(t, names - todo, ProxyOf(inject, blocking))
      decreases todo
    {
      var name :| name in todo;
      var step := InterceptMethod(current, name, inject, blocking);
      if step.error.Some? {
        return Installed(current, step.error);
      }
      ghost var done := names - todo;
      assert current.members[name] == t.members[name];
      todo := todo - {name};
      assert names - todo == done + {name};
      current := step.target;
    }
    assert names - todo == names;
    return Installed(current, None);
  }

  // ---------------------------------------------------------------------
  // Call semantics of an installed proxy

  /** Blocking mode: `inject` is called once with the name and the caller's
      arguments, the original is never invoked, and the call returns `None`. */
  lemma BlockingReturnsNone(t: Target<Binding>, name: string, inject: Inject, c: Call)
    requires name in t.members
    requires !inject(InjectCall(name, c)).Raised?
    ensures var r := CallMember(InterceptMethod(t, name, inject, true).target, name, c);
            r.outcome == Returned(NoneValue) && r.trace == [Injected(InjectCall(name, c))]
  {
  }

  /** Non-blocking mode: `inject` is called first, then the original with
      the same arguments, and the call ends as the original ends. */
  lemma NonBlockingReturnsOriginal(t: Target<Binding>, name: string, inject: Inject, c: Call)
    requires name in t.members
    requires !inject(InjectCall(name, c)).Raised?
    ensures var original := Invoke(t.members[name].binding, c);
            var r := CallMember(InterceptMethod(t, name, inject, false).target, name, c);
            r.outcome == original.outcome && r.trace == [Injected(InjectCall(name, c))] + original.trace
  {
  }

  /** In either mode an exception from `inject` is what the call raises,
      and the original is not invoked. */
  lemma InjectFailure(t: Target<Binding>, name: string, inject: Inject, blocking: bool, c: Call, f: Error)
    requires name in t.members
    requires inject(InjectCall(name, c)) == Raised(f)
    ensures var r := CallMember(InterceptMethod(t, name, inject, blocking).target, name, c);
            r.outcome == Raised(f) && r.trace == [Injected(InjectCall(name, c))]
  {
  }

  /** A missing member leaves every call on the target behaving as before. */
  lemma MissingMemberHarmless(t: Target<Binding>, name: string, inject: Inject, blocking: bool,
                              other: string, c: Call)
    requires name !in t.members
    ensures var r := InterceptMethod(t, name, inject, blocking);
            && r.error == Some(InterceptionError(MissingMemberMessage(name)))
            && CallMember(r.target, other, c) == CallMember(t, other, c)
  {
  }

  // ---------------------------------------------------------------------
  // Batch install over the discovered names

  /** The names `inject` was handed as its first argument, over a trace. */
  function InjectedNames(trace: seq<Event>): set<string>
  {
    set i | 0 <= i < |trace| && trace[i].Injected? && |trace[i].call.args| > 0
                             && trace[i].call.args[0].Str? :: trace[i].call.args[0].s
  }

  /** Everything `inject` has seen after one call to each of `names`. */
  function SeenAfterCallingEach(t: Target<Binding>, names: set<string>, c: Call): set<string>
  {
    set n, x | n in names && x in InjectedNames(CallMember(t, n, c).trace) :: x
  }

  /** One call to a name wrapped in blocking mode shows `inject` that name and no other. */
  lemma {:induction false} BlockingCallSeesName(t: Target<Binding>, names: set<string>, inject: Inject,
                                                n: string, c: Call)
    requires names <= t.members.Keys && n in names
    requires !inject(InjectCall(n, c)).Raised?
    ensures InjectedNames(CallMember(WrapEach(t, names, ProxyOf(inject, true)), n, c).trace) == {n}
  {
    var r := CallMember(WrapEach(t, names, ProxyOf(inject, true)), n, c);
    assert r.trace == [Injected(InjectCall(n, c))];
    assert InjectCall(n, c).args[0] == Str(n);
    assert n in InjectedNames(r.trace);
  }

  /** Batch install over discovery: intercepting every discovered method in
      blocking mode succeeds, discovery on the intercepted target finds the
      same names again, and after one call to each of them the set of names
      `inject` has seen is exactly the discovered set. */
  lemma {:induction false} BatchSeesDiscovered(t: Target<Binding>, inject: Inject, c: Call)
    requires forall n :: n in GetMethods(t) ==> !inject(InjectCall(n, c)).Raised?
    ensures GetMethods(t) <= t.members.Keys
    ensures var t' := WrapEach(t, GetMethods(t), ProxyOf(inject, true));
            && GetMethods(t') == GetMethods(t)
            && SeenAfterCallingEach(t', GetMethods(t), c) == GetMethods(t)
  {
    var names := GetMethods(t);
    var t' := WrapEach(t, names, ProxyOf(inject, true));
    forall n | n in t.members
      ensures n in GetMethods(t') <==> n in names
    {
      if n !in names {
        assert t'.members[n] == t.members[n];
      }
    }
    forall n | n in names
      ensures InjectedNames(CallMember(t', n, c).trace) == {n}
    {
      BlockingCallSeesName(t, names, inject, n, c);
    }
    forall x | x in names
      ensures x in SeenAfterCallingEach(t', names, c)
    {
      assert x in InjectedNames(CallMember(t', x, c).trace);
    }
  }

  // ---------------------------------------------------------------------
  // Chains of proxies

  /** A chain of non-blocking proxies whose `inject` never raises, ending in an original. */
  ghost predicate Transparent(b: Binding)
  {
    match b
    case Original(_) => true
    case Proxy(_, blocking, inject, fn) =>
      !blocking && (forall ic :: !inject(ic).Raised?) && Transparent(fn)
  }

  function Root(b: Binding): (op: Call -> Outcome)
  {
    match b
    case Original(op) => op
    case Proxy(_, _, _, fn) => Root(fn)
  }

  function Depth(b: Binding): nat
  {
    match b
    case Original(_) => 0
    case Proxy(_, _, _, fn) => 1 + Depth(fn)
  }

  /** However many times a name is re-intercepted without blocking, a call
      returns what the original operation returns: every `inject` in the
      chain runs before the original, which runs once, last. */
  lemma {:induction false} TransparentChain(b: Binding, c: Call)
    requires Transparent(b)
    ensures var r := Invoke(b, c);
            && r.outcome == Root(b)(c)
            && |r.trace| == Depth(b) + 1
            && r.trace[Depth(b)] == Invoked(c)
  {
    match b
    case Original(_) =>
    case Proxy(name, _, inject, fn) =>
      TransparentChain(fn, c);
      assert !inject(InjectCall(name, c)).Raised?;
  }
}
