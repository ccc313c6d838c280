# py-interceptor: a Dafny model of the method-interception engine

py-interceptor replaces named members of a Python object with proxies.
Each proxy reports every call to an observer (`inject`). In blocking mode
the observer's answer stands in for the original member. The repository
ships two engines with different call protocols, and both are modelled:

- `interceptor.py` (module `Interceptor`), the current engine. Its proxy
  hands `inject` an `InterceptInfo` envelope. In blocking mode the call
  returns what `inject` returns, and the original never runs. In
  non-blocking mode the original runs first and its result or exception
  is recorded in the envelope. Then `inject` is handed the envelope object
  itself. Finally the proxy raises the envelope's exception, or returns its
  `ret_value`, as they stand after `inject` is done, so an observer that
  writes to the envelope changes how the call ends. `intercept`
  dispatches on a `str` (`intercept_single`) or a `set`
  (`intercept_multiple`); anything else raises `NotImplementedError`.
- `intercept.py` (module `Legacy`), the engine the tests exercise. Its
  proxy always calls `inject(name, *args, **kwargs)` first. It then
  returns `None` in blocking mode, or the original's result otherwise.

Reflection becomes map operations. A target (`Targets.Target`) is a class
or an instance together with a finite map from member names to members.
Each member records how it was defined (plain `def`, `@staticmethod`,
`@classmethod`, `@property`, a function attached by `setattr`, a built-in
inherited from `object`, or data). `Targets.Seen` classifies a member the
way `inspect` does on that view, and `get_methods` keeps the functions,
bound methods and properties. Both source files define the same
`get_methods` (interceptor.py:15-22 and intercept.py:12-19), so it is
modelled once, as `Targets.GetMethods`.

Installing is a checked map update. A name's binding is either an original
operation or a `Proxy(name, blocking, inject, fn)`, where `fn` is whatever
the name was bound to when the proxy was installed. A re-installed name
therefore chains proxies, as the source does. Calling a binding
(`Interceptor.Invoke`, `Legacy.Invoke`) interprets this chain. It returns
the call's `Outcome`, either a returned value or a raised `Error`, together
with a trace of events: originals invoked, and envelopes or calls handed to
`inject`. Original operations and observers are parameters of the model:
total functions. An original maps a call to an outcome. A current-engine
observer maps an envelope to an outcome together with the envelope as it
leaves it (`Interceptor.Reply`).

Module `Fixtures` models the tests' `DummyTarget` (tests/conftest.py). The
repository's tests import only `intercept.py`, so they cover the legacy
engine only; `Fixtures` states their scenarios as lemmas about `Legacy`.
One test's final assertion cannot hold as written; see "## Findings".
`Fixtures.CurrentEngineAddScenario` is an extra scenario, not taken from
the tests: the current engine on `DummyTarget.public_method`.

Facts about the code that the contracts rely on:

- An envelope starts with `ret_value` and `exception` at `None`
  (interceptor.py:31-32). The original's result is then stored in
  `ret_value` (interceptor.py:76). An original that returns `None` leaves
  both fields at `None`. `Interceptor.Recorded` therefore states only that
  `exception` is present exactly when the original raised, and that the
  proxy's last step gives the recorded outcome back.
- `time.time_ns()` (interceptor.py:37) is a wall-clock read. No ordering of
  timestamps is claimed.
- The docstring of `intercept_single` contradicts itself.
  interceptor.py:51 says `inject` is called after the original in
  non-blocking mode, which agrees with the code. interceptor.py:57-58 says
  the original is executed after the injected function. The code runs the
  original first and the observer afterwards (interceptor.py:75-80), and
  the model follows the code.

## Model

| member | source | states |
|---|---|---|
| Values.MissingMessageRoundTrip | interceptor.py:62-66 | the `InterceptionError` message for a missing member (`MissingMemberMessage`, "Target object does not have a method '<name>'.") names it: the member name can be parsed back out of the message |
| Values.MissingMessageInjective | intercept.py:37-40 | two different missing names never give the same `InterceptionError` |
| Targets.GetMethods | interceptor.py:15-22 | discovery never finds data attributes or built-ins inherited from `object`; it always finds methods, static methods, class methods and attached functions; it finds a property exactly when the target is a class; every name found is a member |
| Targets.DiscoveryClassAndInstance | intercept.py:18-19 | a class and its instance give the same method names when the class has no property; a property is found on the class only |
| Targets.DiscoveryAfterAttach | intercept.py:48 | rebinding a name to a plain function adds exactly that name to the discovered set |
| Interceptor.Recorded | interceptor.py:74-87 | capture then rethrow: recording the original's outcome in a new envelope and then applying the proxy's last step (`Reraise`: raise the envelope's exception if any, else return its `ret_value`) gives back exactly that outcome, whether it returned `None`, another value or raised; the envelope carries the name, `blocking=False` and the caller's args and kwargs |
| Interceptor.Invoke | interceptor.py:68-87 | in any chain of proxies the original, if it runs, runs first and with exactly the caller's arguments; every later event is an observer notification, and a proxy call always ends with one |
| Interceptor.InterceptSingle | interceptor.py:62-90 | a missing name gives `InterceptionError` naming it and an unchanged target; otherwise exactly that name is rebound, to a proxy over its previous binding, and every other binding is kept |
| Interceptor.InterceptMultiple | interceptor.py:93-97 | succeeds iff every name is present, and then every name is wrapped once; on failure the error names a missing member, and every binding is either unchanged or wrapped |
| Interceptor.Intercept | interceptor.py:40-43 | a `str` is installed exactly as `intercept_single` installs it; a `set` succeeds iff every name is present, and then every name is wrapped once; when it fails, the error names a missing member, the target keeps its view and names, and every binding is unchanged or wrapped once; any other argument raises `NotImplementedError` and leaves the target unchanged; the only other error is `InterceptionError` |
| Interceptor.BlockingSubstitution | interceptor.py:70-71 | blocking: the original is never invoked; the observer is called once with a fresh envelope (`Fresh`: name, `blocking=True`, the caller's args and kwargs, the call's clock reading, no result and no exception); its outcome is the call's |
| Interceptor.NonBlockingTransparency | interceptor.py:74-87 | non-blocking, for an observer that neither raises nor rewrites `ret_value` or `exception`: the call returns exactly what the original returned; the observer runs once, after the original, with `ret_value` equal to that result and no exception; its return value is discarded |
| Interceptor.ExceptionRoundTrip | interceptor.py:75-84 | if the original raises E and the observer neither raises nor rewrites the envelope's result fields, the observer still runs and sees `exception=E` with `ret_value` None, and then E itself is raised to the caller |
| Interceptor.ObserverFailure | interceptor.py:79-80 | an exception raised by the observer in non-blocking mode is what the call raises; it replaces both the result and any captured exception |
| Interceptor.ObserverWriteBack | interceptor.py:80-87 | when the observer returns normally, the call raises the exception the envelope holds after the observer, if any, and otherwise returns the envelope's `ret_value` as the observer left it |
| Interceptor.MissingMemberHarmless | interceptor.py:62-66 | after a failed install on a missing name, every call on the target behaves exactly as before |
| Interceptor.DiscoveryAfterIntercept | interceptor.py:90 | after an install, discovery finds the intercepted name and changes for no other name |
| Interceptor.ReinstallChains | interceptor.py:64-76 | re-installing non-blocking interception wraps the earlier proxy: the original runs once, then the first observer, then the second, each with its own envelope, equal apart from the timestamp (the model gives both the call's one clock reading); when neither observer raises or rewrites the result fields, the caller still gets the original's result |
| Interceptor.SingletonSetIsSingle | interceptor.py:93-97 | installing a one-name set gives the same target as installing that name alone |
| Interceptor.BatchObservesEachName | interceptor.py:93-97 | after a batch install, one call to each name ends with an envelope carrying that name and the installed blocking mode |
| Interceptor.TransparentChain | interceptor.py:74-87 | however many non-blocking proxies (with observers that never raise and never rewrite `ret_value` or `exception`) are stacked on a name, a call returns the original's result, runs the original once, and notifies each observer once |
| Legacy.Invoke | intercept.py:42-46 | a proxy's first event is the call to `inject` with its name and the caller's arguments (`InjectCall`: the name as first positional argument, then the caller's positional arguments, keyword arguments unchanged); only the last event can be an invocation of the original, and it has exactly the caller's arguments |
| Legacy.InterceptMethod | intercept.py:37-48 | a missing name gives `InterceptionError("Target object does not have a method '<name>'.")` and an unchanged target; otherwise only that name is rebound, to a proxy over its previous binding |
| Legacy.InterceptMethods | intercept.py:66-67 | succeeds iff every name is present, and then every name is wrapped once; on failure the error names a missing member, and every binding is either unchanged or wrapped |
| Legacy.BlockingReturnsNone | intercept.py:43-45 | blocking: `inject` is called once, the original is never invoked, and the call returns `None` |
| Legacy.NonBlockingReturnsOriginal | intercept.py:42-46 | non-blocking: `inject` is called first, then the original with the same arguments, and the call ends exactly as the original ends |
| Legacy.InjectFailure | intercept.py:43-46 | in either mode an exception from `inject` is what the call raises, and the original is not invoked |
| Legacy.MissingMemberHarmless | intercept.py:37-40 | after a failed install on a missing name, every call on the target behaves exactly as before |
| Legacy.BlockingCallSeesName | intercept.py:42-45 | one call to a name wrapped in blocking mode shows `inject` that name and no other, as the first positional argument of `InjectCall` |
| Legacy.BatchSeesDiscovered | intercept.py:66-67 | after blocking interception of every discovered name, discovery on the intercepted target finds the same names, and one call to each shows `inject` exactly the discovered set of names |
| Legacy.TransparentChain | intercept.py:42-46 | however many non-blocking proxies (whose `inject` never raises) are stacked on a name, every `inject` runs before the original; the original runs once, last, and its result is returned |
| Fixtures.DummyMethodsDiscovered | tests/test_get_methods.py:7-9 | `get_methods` on `DummyTarget` gives exactly the five methods (public, protected, mangled private, static, class) on both the class and an instance |
| Fixtures.AddOneB2 | tests/conftest.py:15-16 | a `DummyTarget` method called as `m(1, b=2)` returns 3 |
| Fixtures.LegacyInterceptDummy | tests/test_interception_functions.py:7-30 | each `DummyTarget` method returns 3 for `m(1, b=2)` without blocking and `None` with blocking; in both modes `inject` is called first with `(name, 1, b=2)` |
| Fixtures.LegacyMissingFooBar | tests/test_interception_functions.py:33-36 | intercepting `foo_bar` raises `InterceptionError("Target object does not have a method 'foo_bar'.")` and leaves the target unchanged |
| Fixtures.LegacyBatchDummy | tests/test_interception_functions.py:39-56 | after blocking interception of every `DummyTarget` method, discovery on the intercepted target finds the five methods, and after one call to each the set of names `inject` has seen equals `set(METHODS)` |
| Fixtures.MethodsListAsSet | tests/conftest.py:5-11 | `set(METHODS)` is exactly the five method names |
| Fixtures.BatchAssertionAsWritten | tests/test_interception_functions.py:56 | the test's comparison of the set of seen names with the list `METHODS` is False under Python's `==` |
| Fixtures.CurrentEngineAddScenario | interceptor.py:74-87 | an extra scenario, not from the tests: the current engine intercepting `DummyTarget.public_method` without blocking, called as `public_method(1, b=2)`, returns 3 and records one envelope with the name, `args=(1,)`, `kwargs={"b": 2}`, `ret_value=3` and no exception |

## Left out

- Python reflection (`getmembers`, `getattr`, `setattr`, descriptor binding, name mangling) is replaced by the explicit member kinds of `Targets`. Mangled private names appear directly as map keys, and `Targets.Seen` stands in for what `inspect` reports.
- Properties on instances: `getattr` on an instance runs the property's getter, and `setattr` raises `AttributeError` when the property has no setter. The model does not run getters. For discovery it takes a property's value on an instance to be a non-function. Installing on a property is treated as a plain rebinding.
- `InterceptInfo.timestamp` from `time.time_ns()` is a wall-clock read. It is replaced by one clock reading per top-level call, passed in as `now` and carried by every envelope built during that call. In the source each envelope reads the clock when it is built, so the two envelopes of a re-installed name generally differ in `timestamp`; the model cannot express that difference. No ordering between timestamps is claimed.
- Observers and original operations are pure functions. The state they keep in Python (a log list, a counter) is represented by the event trace that each call returns. The one side effect the proxy reads back, an observer writing to the envelope's `ret_value` or `exception`, is modelled through `Interceptor.Reply.after`. An observer that keeps the envelope and writes to it later, after the call has ended, is not modelled.
- Exception identity, tracebacks and chaining are modelled as equality of `Error` values. `BaseException` and `Exception` are not distinguished. The `if info.exception:` test is read as "an exception was captured", since exception objects are truthy.
- Mixing the two engines on one name (a legacy proxy over a current one, or the reverse) is not modelled: each engine has its own binding type.
- Interceptor.TransparentChain: assumes that no observer in the chain ever raises or rewrites `ret_value` or `exception`. The one-level lemmas Interceptor.ObserverFailure and Interceptor.ObserverWriteBack cover observers that do.
- Interceptor.NonBlockingTransparency: holds only for an observer that leaves `ret_value` and `exception` as it found them. Interceptor.ObserverWriteBack states what happens otherwise.
- Interceptor.ExceptionRoundTrip: holds only for an observer that leaves `ret_value` and `exception` as it found them. Interceptor.ObserverWriteBack states what happens otherwise.
- Interceptor.ReinstallChains: holds only when neither observer raises or rewrites `ret_value` or `exception`.
- Legacy.TransparentChain: assumes that no `inject` in the chain ever raises, which the source does not require. Legacy.InjectFailure covers an `inject` that raises.
- `Fixtures.Add` paraphrases the messages of Python's `TypeError`s for bad argument binding. Only the error kind is modelled exactly.
- Concurrency: installation is unsynchronised in the source, and the model is sequential.
- example.py and examples/example_simple_api.py are consumers of the engine: an HTTP client and a JSON logger. They are not part of this model.

## Findings

| source | as written | input that shows it | evidently intended | confidence | as-written member | corrected member |
|---|---|---|---|---|---|---|
| tests/test_interception_functions.py:56 | `assert called_methods == METHODS` compares a `set` with the `list` from tests/conftest.py:5-11, and Python's `==` between a set and a list is always False | the `DummyTarget` batch scenario itself: `inject` sees exactly the five names, yet the comparison is False | `called_methods == set(METHODS)`, as tests/test_get_methods.py:9 writes it | not executed | Fixtures.BatchAssertionAsWritten | Fixtures.LegacyBatchDummy |
