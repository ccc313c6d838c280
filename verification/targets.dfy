/**
 A target object as the interception engines see it: a table from member
 names to members. Reflection (`getattr`, `setattr`, `getmembers`) becomes
 map lookup and map update. Each member records how it was defined, and the
 target records whether it is a class or an instance, so that discovery can
 classify members as `inspect` does. The binding type `B` is left generic:
 each engine supplies its own (an original operation or a proxy).
 */
module Targets {
  import opened Values

  /** How a member came to be on the target. `Attached` is a plain function
      stored directly on the target, which is what both engines install. */
  datatype Kind =
    | Def          // an ordinary `def` in the class body
    | StaticDef    // a `@staticmethod`
    | ClassDef     // a `@classmethod`
    | PropertyDef  // a `@property`
    | Attached     // a function stored on the target itself by `setattr`
    | Builtin      // a slot wrapper or built-in method inherited from `object`
    | Data         // any other attribute value

  /** Whether the target handed to the engine is the class or an instance of it. */
  datatype View = OnClass | OnInstance

  /** What `getattr` hands to `inspect`'s predicates. */
  datatype Inspected = Function | BoundMethod | PropertyObject | Other

  /** The classification `inspect` sees for a member of the given kind.
      On an instance, a property yields its computed value (here taken to be
      a non-function), and a plain `def` becomes a bound method. */
  function Seen(kind: Kind, view: View): Inspected
  {
    match kind
    case Def => if view == OnClass then Function else BoundMethod
    case StaticDef => Function
    case ClassDef => BoundMethod
    case PropertyDef => if view == OnClass then PropertyObject else Other
    case Attached => Function
    case Builtin => Other
    case Data => Other
  }

  /** The predicate handed to `getmembers`: a function, a bound method or a property. */
  predicate Discoverable(kind: Kind, view: View)
  {
    Seen(kind, view) != Other
  }

  datatype Member<B> = Member(kind: Kind, binding: B)

  datatype Target<B> = Target(view: View, members: map<string, Member<B>>)

  /** `get_methods`: the names of the members `inspect` classifies as a
      function, a bound method or a property. Data attributes and built-ins
      inherited from `object` are never found; methods, static methods, class
      methods and attached functions always are; a property is found on a
      class only, because on an instance `getattr` yields its value. */
  function GetMethods<B>(t: Target<B>): (names: set<string>)
    ensures names <= t.members.Keys
    ensures forall n :: n in t.members && t.members[n].kind in {Data, Builtin} ==> n !in names
    ensures forall n :: n in t.members && t.members[n].kind in {Def, StaticDef, ClassDef, Attached} ==> n in names
    ensures forall n :: n in t.members && t.members[n].kind == PropertyDef ==> (n in names <==> t.view == OnClass)
  {
    set n | n in t.members && Discoverable(t.members[n].kind, t.view)
  }

  /** `setattr(target, name, value)`. */
  function SetAttr<B>(t: Target<B>, name: string, m: Member<B>): (r: Target<B>)
    ensures r.view == t.view
    ensures r.members.Keys == t.members.Keys + {name}
    ensures name in r.members && r.members[name] == m
    ensures forall k :: k in t.members && k != name ==> r.members[k] == t.members[k]
  {
    t.(members := t.members[name := m])
  }

  /** What an install ends with: the target as it stands afterwards (a
      failed batch install may already have changed it) and the exception
      raised, if any. */
  datatype Installed<B> = Installed(target: Target<B>, error: Option<Error>)

  /** The target after each name in `names` (all present) has been rebound
      once, in any order, to a plain function that `wrap` builds from the
      name and its previous binding. */
  function WrapEach<B>(t: Target<B>, names: set<string>, wrap: (string, B) -> B): (r: Target<B>)
    requires names <= t.members.Keys
    ensures r.view == t.view && r.members.Keys == t.members.Keys
    ensures forall k :: k in names ==> r.members[k] == Member(Attached, wrap(k, t.members[k].binding))
    ensures forall k :: k in t.members && k !in names ==> r.members[k] == t.members[k]
  {
    Target(t.view, map k | k in t.members ::
                     if k in names then Member(Attached, wrap(k, t.members[k].binding)) else t.members[k])
  }

  /** The same target seen as an instance of its class. */
  function AsInstance<B>(t: Target<B>): Target<B>
  {
    t.(view := OnInstance)
  }

  predicate HasProperty<B>(t: Target<B>)
  {
    exists n :: n in t.members && t.members[n].kind == PropertyDef
  }

  /** Discovery gives the same names for a class and for an instance of it,
      provided the class defines no property: a property is found on the
      class only, because on an instance `getattr` yields its value. */
  lemma {:induction false} DiscoveryClassAndInstance<B>(t: Target<B>)
    requires t.view == OnClass
    ensures !HasProperty(t) ==> GetMethods(t) == GetMethods(AsInstance(t))
    ensures forall n :: n in t.members && t.members[n].kind == PropertyDef ==>
              n in GetMethods(t) && n !in GetMethods(AsInstance(t))
  {
    if !HasProperty(t) {
      forall n | n in t.members
        ensures n in GetMethods(t) <==> n in GetMethods(AsInstance(t))
      {
        assert t.members[n].kind != PropertyDef;
      }
    }
  }

  /** Rebinding a name to a plain function makes it discoverable and leaves
      the discovery of every other name as it was. */
  lemma {:induction false} DiscoveryAfterAttach<B>(t: Target<B>, name: string, b: B)
    ensures GetMethods(SetAttr(t, name, Member(Attached, b))) == GetMethods(t) + {name}
  {
    var t' := SetAttr(t, name, Member(Attached, b));
    forall n | n in GetMethods(t) + {name}
      ensures n in GetMethods(t')
    {
      if n != name {
        assert n in t.members && t'.members[n] == t.members[n];
      }
    }
  }
}
