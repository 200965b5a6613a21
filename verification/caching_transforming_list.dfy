/**
 * polyglot.util.CachingTransformingList: a read-only view of a list through
 * a transformation, applying the transformation to each element at most
 * once and remembering the result in a cache.
 */
module CachingLists {
  import opened Wrappers
  import opened CollectionUtil

  class CachingTransformingList<T, U> {
    /** The list viewed (shared with the caller by the `List` constructor). */
    const underlying: MutableList<T>
    /** `trans.transform`; `None` stands for a `null` result. */
    const trans: T -> Option<U>
    /** One slot per underlying element; `None` is an empty (null) slot. */
    const cache: array<Option<U>>
    /** How many times `transform` has been applied. */
    ghost var transformCalls: nat

    /**
     * The cache has a slot per underlying element, and a filled slot holds
     * the transform of its element.
     */
    ghost predicate Valid()
      reads this, underlying, cache
    {
      && cache.Length == |underlying.elems|
      && forall k :: 0 <= k < cache.Length && cache[k].Some? ==> cache[k] == trans(underlying.elems[k])
    }

    /** `CachingTransformingList(List, Transformation)`: views `underlying` itself, with every slot empty. */
    constructor OfList(underlying: MutableList<T>, trans: T -> Option<U>)
      ensures this.underlying == underlying && this.trans == trans
      ensures fresh(cache) && cache.Length == |underlying.elems|
      ensures forall k :: 0 <= k < cache.Length ==> cache[k].None?
      ensures transformCalls == 0
      ensures Valid()
    {
      this.underlying := underlying;
      this.trans := trans;
      cache := new Option<U>[|underlying.elems|](_ => None);
      transformCalls := 0;
    }

    /**
     * `CachingTransformingList(Collection, Transformation)`: copies the
     * collection into a new list first, so later changes to the collection
     * are not seen.
     */
    constructor OfCollection(underlying: seq<T>, trans: T -> Option<U>)
      ensures fresh(this.underlying) && this.underlying.elems == underlying && this.trans == trans
      ensures fresh(cache) && cache.Length == |underlying|
      ensures forall k :: 0 <= k < cache.Length ==> cache[k].None?
      ensures transformCalls == 0
      ensures Valid()
    {
      this.underlying := new MutableList(underlying);
      this.trans := trans;
      cache := new Option<U>[|underlying|](_ => None);
      transformCalls := 0;
    }

    /**
     * `get(index)`: the transform of the element at `index`. A filled slot is
     * returned as it is, without applying the transformation; an empty slot
     * is filled with a new transform, which stays empty when that is null.
     * No other slot and nothing in the underlying list changes.
     */
    method Get(index: nat) returns (o: Option<U>)
      requires Valid() && index < cache.Length
      modifies cache, this`transformCalls
      ensures Valid()
      ensures o == trans(underlying.elems[index])
      ensures cache[index] == o
      ensures forall k :: 0 <= k < cache.Length && k != index ==> cache[k] == old(cache[k])
      ensures old(cache[index]).Some? ==> o == old(cache[index]) && transformCalls == old(transformCalls)
      ensures old(cache[index]).None? ==> transformCalls == old(transformCalls) + 1
    {
      o := cache[index];
      if o.None? {
        o := trans(underlying.elems[index]);
        transformCalls := transformCalls + 1;
        cache[index] := o;
      }
    }
  }

  /** Asking twice for an index whose transform is not null applies the transformation at most once. */
  method GetTwice<T, U>(l: CachingTransformingList<T, U>, index: nat) returns (o1: Option<U>, o2: Option<U>)
    requires l.Valid() && index < l.cache.Length
    modifies l.cache, l`transformCalls
    ensures o1 == o2
    ensures o1.Some? ==> l.transformCalls <= old(l.transformCalls) + 1
  {
    o1 := l.Get(index);
    o2 := l.Get(index);
  }
}
