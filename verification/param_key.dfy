/**
 * coffer.types.ParamKey_c: a key parameter of the Coffer extension. Two
 * keys are equal type objects exactly when the other object is also a
 * parameter key and their names are the same.
 */
module CofferKeys {
  import opened Diagnostics

  /** The type system a type object belongs to, by identity. */
  type TypeSystemRef = nat

  /** A parameter key: its type system, position and name. */
  datatype ParamKey = ParamKey(ts: TypeSystemRef, pos: Position, name: string)

  /** The type objects `equalsImpl` may be handed: a parameter key, or any other type object. */
  datatype TypeObject =
    | ParamKeyObject(key: ParamKey)
    | OtherTypeObject(ts: TypeSystemRef, pos: Position, name: string)

  /** `equalsImpl(o)`. */
  function EqualsImpl(k: ParamKey, o: TypeObject): (r: bool)
    ensures o.OtherTypeObject? ==> !r
  {
    match o
    case ParamKeyObject(other) => k.name == other.name
    case OtherTypeObject(_, _, _) => false
  }

  /** An object that is not a parameter key is never equal to a key, whatever its name. */
  lemma OnlyParamKeysAreEqual(k: ParamKey, o: TypeObject)
    requires EqualsImpl(k, o)
    ensures o.ParamKeyObject?
  {
  }

  /** Between parameter keys the test is string equality of the names, in both directions. */
  lemma EqualsImplIsNameEquality(k: ParamKey, k': ParamKey)
    ensures EqualsImpl(k, ParamKeyObject(k')) <==> k.name == k'.name
  {
  }

  /** Neither key's position nor type system affects the outcome. */
  lemma EqualsImplIgnoresPositionAndTypeSystem(k: ParamKey, k': ParamKey, ts1: TypeSystemRef, pos1: Position, ts2: TypeSystemRef, pos2: Position)
    ensures EqualsImpl(k, ParamKeyObject(k')) ==
      EqualsImpl(ParamKey(ts1, pos1, k.name), ParamKeyObject(ParamKey(ts2, pos2, k'.name)))
  {
  }

  /** On parameter keys, `equalsImpl` is an equivalence relation. */
  lemma EqualsImplIsEquivalence(a: ParamKey, b: ParamKey, c: ParamKey)
    ensures EqualsImpl(a, ParamKeyObject(a))
    ensures EqualsImpl(a, ParamKeyObject(b)) ==> EqualsImpl(b, ParamKeyObject(a))
    ensures EqualsImpl(a, ParamKeyObject(b)) && EqualsImpl(b, ParamKeyObject(c)) ==> EqualsImpl(a, ParamKeyObject(c))
  {
  }
}
