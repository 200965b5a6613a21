/**
 * polyglot.util.CollectionUtil: list helpers used throughout the front end,
 * in particular the pointer-wise list comparison behind copy-on-write
 * reconstruction of AST nodes.
 */
module CollectionUtil {
  import opened Wrappers

  /**
   * A mutable `java.util.List` object. Its identity is the Dafny reference;
   * its contents, in iteration order, are `elems`.
   */
  class MutableList<T> {
    var elems: seq<T>

    constructor (elems: seq<T>)
      ensures this.elems == elems
    {
      this.elems := elems;
    }
  }

  /** `add(l, o)`: appends `o` to `l` in place and returns `l` itself. */
  method Add<T>(l: MutableList<T>, o: T) returns (r: MutableList<T>)
    modifies l
    ensures r == l
    ensures |l.elems| == |old(l.elems)| + 1
    ensures l.elems[..|old(l.elems)|] == old(l.elems) && l.elems[|old(l.elems)|] == o
  {
    l.elems := l.elems + [o];
    r := l;
  }

  /**
   * The comparison `equals` makes of two non-null lists: the same length and,
   * position by position, the same element (for reference elements, the same
   * object).
   */
  predicate PointerEqualElements<T(==)>(s: seq<T>, t: seq<T>) {
    |s| == |t| && forall k :: 0 <= k < |s| ==> s[k] == t[k]
  }

  /** Two sequences compare pointer-equal exactly when they are the same sequence. */
  lemma PointerEqualElementsIsEquality<T>(s: seq<T>, t: seq<T>)
    ensures PointerEqualElements(s, t) <==> s == t
  {
    if PointerEqualElements(s, t) {
      assert s == t;
    }
  }

  /** The comparison is reflexive and symmetric. */
  lemma PointerEqualElementsReflexiveSymmetric<T>(s: seq<T>, t: seq<T>)
    ensures PointerEqualElements(s, s)
    ensures PointerEqualElements(s, t) ==> PointerEqualElements(t, s)
  {
  }

  /**
   * `equals(a, b)`: true for the same list reference (both null included),
   * false when exactly one is null, and otherwise true exactly when both
   * iterators yield the same elements in the same order and run out together.
   */
  method Equals<T(==)>(a: MutableList?<T>, b: MutableList?<T>) returns (r: bool)
    ensures a == b ==> r
    ensures (a == null) != (b == null) ==> !r
    ensures a != null && b != null ==> (r <==> PointerEqualElements(a.elems, b.elems))
  {
    if a == b {
      return true;
    }
    if (a == null) != (b == null) {
      return false;
    }
    var i := 0;
    while i < |a.elems| && i < |b.elems|
      invariant 0 <= i <= |a.elems| && i <= |b.elems|
      invariant forall k :: 0 <= k < i ==> a.elems[k] == b.elems[k]
    {
      if a.elems[i] != b.elems[i] {
        return false;
      }
      i := i + 1;
    }
    r := i == |a.elems| && i == |b.elems|;
  }

  /** `list()`: the empty list. */
  function List0<T>(): (r: seq<T>)
    ensures |r| == 0
  {
    []
  }

  /** `list(o)`: the singleton list holding `o`. */
  function List1<T>(o: T): (r: seq<T>)
    ensures |r| == 1 && r[0] == o
  {
    [o]
  }

  /** `list(o1, o2)`: a fresh list built by two appends. */
  method List2<T>(o1: T, o2: T) returns (l: MutableList<T>)
    ensures fresh(l) && l.elems == [o1, o2]
  {
    l := new MutableList([]);
    l := Add(l, o1);
    l := Add(l, o2);
  }

  /** `list(o1, o2, o3)`: a fresh list built by three appends. */
  method List3<T>(o1: T, o2: T, o3: T) returns (l: MutableList<T>)
    ensures fresh(l) && l.elems == [o1, o2, o3]
  {
    l := new MutableList([]);
    l := Add(l, o1);
    l := Add(l, o2);
    l := Add(l, o3);
  }

  /** `list(o1, o2, o3, o4)`: a fresh list built by four appends. */
  method List4<T>(o1: T, o2: T, o3: T, o4: T) returns (l: MutableList<T>)
    ensures fresh(l) && l.elems == [o1, o2, o3, o4]
  {
    l := new MutableList([]);
    l := Add(l, o1);
    l := Add(l, o2);
    l := Add(l, o3);
    l := Add(l, o4);
  }

  /** `firstOrElse(l, alt)`: the first element the iterator yields, or `alt` when there is none. */
  function FirstOrElse<T>(l: seq<T>, alt: T): (r: T)
    ensures |l| > 0 ==> r == l[0]
    ensures |l| == 0 ==> r == alt
  {
    if |l| > 0 then l[0] else alt
  }

  /** `nonNullList(l)`: `l` itself when it is not null, otherwise the empty list. */
  function NonNullList<T>(l: Option<seq<T>>): (r: seq<T>)
    ensures l.Some? ==> r == l.value
    ensures l.None? ==> r == []
  {
    match l
    case Some(s) => s
    case None => []
  }

  /**
   * What `pairs(l)` yields: for each consecutive `(l[k], l[k+1])`, in order,
   * the pair, unless its first element is null. Defined on the last step so
   * that it follows the loop that builds it.
   */
  function PairsOf<T>(l: seq<Option<T>>): seq<(T, Option<T>)>
  {
    if |l| < 2 then []
    else
      var prev := l[|l| - 2];
      PairsOf(l[..|l| - 1]) + (if prev.Some? then [(prev.value, l[|l| - 1])] else [])
  }

  /**
   * `pairs(l)`: walks the list remembering the previous element and records
   * `(prev, curr)` whenever `prev` is not null.
   */
  method Pairs<T>(l: seq<Option<T>>) returns (x: seq<(T, Option<T>)>)
    ensures x == PairsOf(l)
  {
    x := [];
    var prev: Option<T> := None;
    var i := 0;
    while i < |l|
      invariant 0 <= i <= |l|
      invariant prev == if i == 0 then None else l[i - 1]
      invariant x == PairsOf(l[..i])
    {
      var curr := l[i];
      if prev.Some? {
        x := x + [(prev.value, curr)];
      }
      assert l[..i + 1][..i] == l[..i];
      prev := curr;
      i := i + 1;
    }
    assert l[..i] == l;
  }

  /**
   * A list of `n > 0` elements none of which is null gives exactly `n - 1`
   * pairs, the k-th being `(l[k], l[k+1])`.
   */
  lemma {:induction false} PairsOfNullFree<T>(l: seq<Option<T>>)
    requires |l| > 0
    requires forall k :: 0 <= k < |l| ==> l[k].Some?
    ensures |PairsOf(l)| == |l| - 1
    ensures forall k :: 0 <= k < |l| - 1 ==> PairsOf(l)[k] == (l[k].value, l[k + 1])
  {
    if |l| >= 2 {
      var init := l[..|l| - 1];
      PairsOfNullFree(init);
      assert PairsOf(l) == PairsOf(init) + [(l[|l| - 2].value, l[|l| - 1])];
    }
  }

  /** Every pair `pairs(l)` yields is a non-null element followed by its successor. */
  lemma {:induction false} PairsOfAreConsecutive<T>(l: seq<Option<T>>, p: (T, Option<T>))
    requires p in PairsOf(l)
    ensures exists k :: 0 <= k < |l| - 1 && l[k] == Some(p.0) && l[k + 1] == p.1
  {
    var init := l[..|l| - 1];
    if p in PairsOf(init) {
      PairsOfAreConsecutive(init, p);
      var k :| 0 <= k < |init| - 1 && init[k] == Some(p.0) && init[k + 1] == p.1;
      assert l[k] == Some(p.0) && l[k + 1] == p.1;
    } else {
      assert l[|l| - 2] == Some(p.0) && l[|l| - 1] == p.1;
    }
  }

  /**
   * `map(l, t)`: a new list holding `t` applied to each element of `l`, in
   * order; `l` itself is a value here and so cannot change.
   */
  method Map<T, U>(l: seq<T>, t: T -> U) returns (m: seq<U>)
    ensures |m| == |l|
    ensures forall k :: 0 <= k < |l| ==> m[k] == t(l[k])
  {
    m := [];
    var i := 0;
    while i < |l|
      invariant 0 <= i <= |l|
      invariant |m| == i
      invariant forall k :: 0 <= k < i ==> m[k] == t(l[k])
    {
      m := m + [t(l[i])];
      i := i + 1;
    }
  }
}
