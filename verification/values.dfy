/**
 Python values, exceptions and call shapes as the interception engines see
 them. Every invocation in this model is a `Call` (positional arguments plus
 keyword arguments) that ends in an `Outcome`: a returned value or a raised
 exception. Exception identity is modelled by value equality on `Error`.
 */
module Values {

  /** The conventional Some/None wrapper, used for Python's `Optional`. */
  datatype Option<+T> = None | Some(value: T)

  /** The Python values the model needs to name; `Obj` stands for any other object. */
  datatype Value =
    | NoneValue
    | Int(i: int)
    | Str(s: string)
    | Obj(id: nat)

  /** Exceptions. `Exception` is any exception raised by application code
      (an original operation or an observer), identified by its class name
      and argument. */
  datatype Error =
    | InterceptionError(message: string)
    | NotImplementedError(message: string)
    | AttributeError(message: string)
    | TypeError(message: string)
    | Exception(kind: string, arg: Value)

  /** How a Python call ends: it returns a value or raises an exception. */
  datatype Outcome = Returned(value: Value) | Raised(error: Error)

  /** A call's arguments: `*args` as an ordered sequence, `**kwargs` as a map. */
  datatype Call = Call(args: seq<Value>, kwargs: map<string, Value>)

  const MissingPrefix: string := "Target object does not have a method '"
  const MissingSuffix: string := "'."

  /** The message both engines put in the `InterceptionError` raised for a
      name the target does not have: the fixed text with the name quoted in it. */
  function MissingMemberMessage(name: string): (m: string)
    ensures |m| == |MissingPrefix| + |name| + |MissingSuffix|
    ensures m[..|MissingPrefix|] == MissingPrefix
    ensures m[|MissingPrefix|..|MissingPrefix| + |name|] == name
    ensures m[|MissingPrefix| + |name|..] == MissingSuffix
  {
    MissingPrefix + name + MissingSuffix
  }

  /** Recovers the member name from a missing-member message, if it is one. */
  function MissingMemberName(message: string): Option<string>
  {
    if |message| >= |MissingPrefix| + |MissingSuffix|
       && message[..|MissingPrefix|] == MissingPrefix
       && message[|message| - |MissingSuffix|..] == MissingSuffix
    then Some(message[|MissingPrefix|..|message| - |MissingSuffix|])
    else None
  }

  /** The missing-member message names the member it is about: the name can
      be read back out of it. */
  lemma {:induction false} MissingMessageRoundTrip(name: string)
    ensures MissingMemberName(MissingMemberMessage(name)) == Some(name)
  {
    var m := MissingMemberMessage(name);
    assert m[|m| - |MissingSuffix|..] == MissingSuffix;
    assert m[|MissingPrefix|..|m| - |MissingSuffix|] == name;
  }

  /** Two different missing names never produce the same error. */
  lemma {:induction false} MissingMessageInjective(a: string, b: string)
    requires MissingMemberMessage(a) == MissingMemberMessage(b)
    ensures a == b
  {
    MissingMessageRoundTrip(a);
    MissingMessageRoundTrip(b);
  }

  /** The message of the `NotImplementedError` raised by `intercept` for an
      argument that is neither a `str` nor a `set`; `typeName` is the name of
      the argument's class. */
  function NotImplementedMessage(typeName: string): string
  {
    "intercept is not implemented for <class '" + typeName + "'>"
  }
}
