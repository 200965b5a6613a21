/**
 * polyglot.ext.jl5.types.JL5ParsedClassType_c: a class type read from
 * source in the Java 5 extension, with its enum constants, annotation
 * elements and type variables.
 */
module JL5Types {
  import opened Wrappers
  import CollectionUtil

  type TypeRef = nat

  /** An enum constant: its name and ordinal. */
  datatype EnumInstance = EnumInstance(name: string, ordinal: int)

  /** A field of the class; an enum constant is a field too. */
  datatype FieldInstance = PlainField(fieldName: string) | EnumField(constant: EnumInstance)

  /** A method of the class (an annotation element is one), with its formal parameter types. */
  datatype MethodInstance = MethodInstance(name: string, formalTypes: seq<TypeRef>)

  /** A type variable of a generic class. */
  datatype TypeVariable = TypeVariable(name: string)

  /** The generic class a parameterised class type instantiates. */
  datatype PClass = PClass(id: nat)

  function EnumName(e: EnumInstance): string { e.name }

  function MethodName(m: MethodInstance): string { m.name }

  /**
   * `found` is what a first-match search of `s` by name gives: the first
   * element whose name is `name`, or none when no element has that name.
   */
  ghost predicate IsFirstNamed<T>(s: seq<T>, nameOf: T -> string, name: string, found: Option<T>) {
    match found
    case None => forall k :: 0 <= k < |s| ==> nameOf(s[k]) != name
    case Some(x) =>
      exists k :: 0 <= k < |s| && s[k] == x && nameOf(x) == name &&
        forall j :: 0 <= j < k ==> nameOf(s[j]) != name
  }

  /** The for-each loop of `enumConstantNamed` and `annotationElemNamed`: return the first match, or null. */
  method FirstNamed<T>(s: seq<T>, nameOf: T -> string, name: string) returns (r: Option<T>)
    ensures IsFirstNamed(s, nameOf, name, r)
  {
    var i := 0;
    while i < |s|
      invariant 0 <= i <= |s|
      invariant forall j :: 0 <= j < i ==> nameOf(s[j]) != name
    {
      if nameOf(s[i]) == name {
        return Some(s[i]);
      }
      i := i + 1;
    }
    return None;
  }

  /** The elements of `s` that satisfy `p`, in order. */
  function Filter<T>(s: seq<T>, p: T -> bool): (r: seq<T>)
    ensures |r| <= |s|
    ensures forall k :: 0 <= k < |r| ==> r[k] in s && p(r[k])
    ensures forall k :: 0 <= k < |s| && p(s[k]) ==> s[k] in r
  {
    if s == [] then []
    else
      var init := Filter(s[..|s| - 1], p);
      var last := s[|s| - 1];
      init + (if p(last) then [last] else [])
  }

  /** Filtering one element further extends the filtered prefix by that element when it passes. */
  lemma FilterPrefixStep<T>(s: seq<T>, p: T -> bool, i: nat)
    requires i < |s|
    ensures Filter(s[..i + 1], p) == Filter(s[..i], p) + (if p(s[i]) then [s[i]] else [])
  {
    assert s[..i + 1][..i] == s[..i];
  }

  /** Filtering by `p` and then by `q` keeps exactly the elements that pass both. */
  lemma FilterTwice<T>(s: seq<T>, p: T -> bool, q: T -> bool)
    ensures forall x :: x in Filter(Filter(s, p), q) <==> x in s && p(x) && q(x)
  {
    forall x | x in s && p(x) && q(x)
      ensures x in Filter(Filter(s, p), q)
    {
      var k :| 0 <= k < |s| && s[k] == x;
      assert x in Filter(s, p);
      var j :| 0 <= j < |Filter(s, p)| && Filter(s, p)[j] == x;
    }
  }

  /** Whether a method is named `name`. */
  function NamedAs(name: string): MethodInstance -> bool
  {
    (m: MethodInstance) => m.name == name
  }

  /** Whether a procedure has formals matching `formals` (`pi.hasFormals(formals)`, a type-system query). */
  function HasFormalsOf(hasFormals: (MethodInstance, seq<TypeRef>) -> bool, formals: seq<TypeRef>): MethodInstance -> bool
  {
    (pi: MethodInstance) => hasFormals(pi, formals)
  }

  /** Joins `xs` with `sep` between neighbours. Defined on the last element, as a left-to-right loop builds it. */
  function Join(xs: seq<string>, sep: string): string
  {
    if xs == [] then ""
    else if |xs| == 1 then xs[0]
    else Join(xs[..|xs| - 1], sep) + sep + xs[|xs| - 1]
  }

  /** Each variable rendered by `show`, in order. */
  function Shown(vars: seq<TypeVariable>, show: TypeVariable -> string): seq<string>
  {
    seq(|vars|, k requires 0 <= k < |vars| => show(vars[k]))
  }

  /**
   * The loop shared by `toString` and `translate`: `base` alone when there
   * are no type variables, otherwise `base<v1SEPv2...>` with each variable
   * rendered by `show`.
   */
  method Render(base: string, vars: seq<TypeVariable>, show: TypeVariable -> string, sep: string) returns (s: string)
    ensures vars == [] ==> s == base
    ensures vars != [] ==>
      s == base + "<" + Join(Shown(vars, show), sep) + ">"
  {
    if vars == [] {
      return base;
    }
    ghost var shown := Shown(vars, show);
    s := base + "<";
    var i := 0;
    while i < |vars|
      invariant 0 <= i <= |vars|
      invariant s == base + "<" + Join(shown[..i], sep) + (if 0 < i < |vars| then sep else "")
    {
      assert shown[..i + 1][..i] == shown[..i];
      s := s + show(vars[i]);
      if i + 1 < |vars| {
        s := s + sep;
      }
      i := i + 1;
    }
    assert shown[..i] == shown;
    s := s + ">";
  }

  /** The type-system queries the implicit-cast chain uses. */
  datatype TypeQueries = TypeQueries(
    isSubtype: (TypeRef, TypeRef) -> bool,
    isPrimitive: TypeRef -> bool,
    primitiveTypeOfWrapper: TypeRef -> Option<TypeRef>,
    implicitCastValidChain: (TypeRef, TypeRef) -> Option<seq<TypeRef>>)

  /**
   * `isImplicitCastValidChainImpl(toType)` for the class type `self`:
   * `[self, toType]` when `self` is a subtype; when `toType` is primitive and
   * `self` unboxes to a primitive that casts on to it, that chain with `self`
   * in front; otherwise null. A chain always starts at `self`.
   */
  function ImplicitCastValidChain(q: TypeQueries, self: TypeRef, toType: TypeRef): (chain: Option<seq<TypeRef>>)
    ensures chain.Some? ==> |chain.value| >= 1 && chain.value[0] == self
    ensures q.isSubtype(self, toType) ==> chain == Some([self, toType])
    ensures !q.isSubtype(self, toType) && chain.Some? ==>
      && q.isPrimitive(toType)
      && q.primitiveTypeOfWrapper(self).Some?
      && q.implicitCastValidChain(q.primitiveTypeOfWrapper(self).value, toType) == Some(chain.value[1..])
    ensures (&& !q.isSubtype(self, toType) && q.isPrimitive(toType) && q.primitiveTypeOfWrapper(self).Some?
             && q.implicitCastValidChain(q.primitiveTypeOfWrapper(self).value, toType).Some?) ==> chain.Some?
  {
    if q.isSubtype(self, toType) then Some([self, toType])
    else if q.isPrimitive(toType) && q.primitiveTypeOfWrapper(self).Some? then
      match q.implicitCastValidChain(q.primitiveTypeOfWrapper(self).value, toType)
      case Some(c) => Some([self] + c)
      case None => None
    else None
  }

  class JL5ParsedClassType {
    /** The class's fields (kept by the base class; `addField` appends). */
    var fields: seq<FieldInstance>
    /** The class's methods (kept by the base class; `addMethod` appends). */
    var methods: seq<MethodInstance>
    /** The enum-constant list object; null until first asked for. */
    var enumConstants: CollectionUtil.MutableList?<EnumInstance>
    var annotationElems: seq<MethodInstance>
    var typeVars: seq<TypeVariable>
    var pclass: Option<PClass>

    constructor ()
      ensures fields == [] && methods == [] && enumConstants == null
      ensures annotationElems == [] && typeVars == [] && pclass == None
    {
      fields := [];
      methods := [];
      enumConstants := null;
      annotationElems := [];
      typeVars := [];
      pclass := None;
    }

    /** The enum constants in order, reading null as empty. */
    function EnumList(): seq<EnumInstance>
      reads this, enumConstants
    {
      if enumConstants != null then enumConstants.elems else []
    }

    /**
     * `enumConstants()`: creates a new empty list on the first call;
     * afterwards returns that same list object, so appends made through it
     * are the class's enum constants.
     */
    method EnumConstants() returns (r: CollectionUtil.MutableList<EnumInstance>)
      modifies this`enumConstants
      ensures old(enumConstants) == null ==> fresh(r) && r.elems == []
      ensures old(enumConstants) != null ==> r == old(enumConstants)
      ensures enumConstants == r
    {
      if enumConstants == null {
        enumConstants := new CollectionUtil.MutableList([]);
      }
      r := enumConstants;
    }

    /** `addEnumConstant(ei)`: adds `ei` as a field and appends it, in place, to the enum-constant list. */
    method AddEnumConstant(ei: EnumInstance)
      modifies this`fields, this`enumConstants, enumConstants
      ensures fields == old(fields) + [EnumField(ei)]
      ensures old(enumConstants) != null ==> enumConstants == old(enumConstants)
      ensures old(enumConstants) == null ==> fresh(enumConstants)
      ensures enumConstants != null && enumConstants.elems == old(EnumList()) + [ei]
    {
      fields := fields + [EnumField(ei)];
      var l := EnumConstants();
      l := CollectionUtil.Add(l, ei);
    }

    /** `enumConstantNamed(name)`: the first enum constant called `name`, or null. */
    method EnumConstantNamed(name: string) returns (r: Option<EnumInstance>)
      modifies this`enumConstants
      ensures old(enumConstants) != null ==> enumConstants == old(enumConstants)
      ensures enumConstants != null && EnumList() == old(EnumList())
      ensures IsFirstNamed(EnumList(), EnumName, name, r)
    {
      var l := EnumConstants();
      r := FirstNamed(l.elems, EnumName, name);
    }

    /** `addAnnotationElem(ai)`: adds `ai` as a method and appends it to the annotation elements. */
    method AddAnnotationElem(ai: MethodInstance)
      modifies this`methods, this`annotationElems
      ensures methods == old(methods) + [ai]
      ensures annotationElems == old(annotationElems) + [ai]
    {
      methods := methods + [ai];
      annotationElems := annotationElems + [ai];
    }

    /** `annotationElemNamed(name)`: the first annotation element called `name`, or null. */
    method AnnotationElemNamed(name: string) returns (r: Option<MethodInstance>)
      ensures IsFirstNamed(annotationElems, MethodName, name, r)
    {
      r := FirstNamed(annotationElems, MethodName, name);
    }

    /** `methodsNamed(name)`: the methods called `name`, in order. */
    function MethodsNamed(name: string): seq<MethodInstance>
      reads this
    {
      Filter(methods, NamedAs(name))
    }

    /**
     * `methods(mi)`: in order, exactly the methods named like `mi` whose
     * formals match `mi`'s formal types.
     */
    method MethodsLike(mi: MethodInstance, hasFormals: (MethodInstance, seq<TypeRef>) -> bool) returns (l: seq<MethodInstance>)
      ensures l == Filter(MethodsNamed(mi.name), HasFormalsOf(hasFormals, mi.formalTypes))
      ensures forall m :: m in l <==> m in methods && m.name == mi.name && hasFormals(m, mi.formalTypes)
    {
      var named := MethodsNamed(mi.name);
      var matches := HasFormalsOf(hasFormals, mi.formalTypes);
      l := [];
      var i := 0;
      while i < |named|
        invariant 0 <= i <= |named|
        invariant l == Filter(named[..i], matches)
      {
        FilterPrefixStep(named, matches, i);
        if matches(named[i]) {
          l := l + [named[i]];
        }
        i := i + 1;
      }
      assert named[..i] == named;
      FilterTwice(methods, NamedAs(mi.name), matches);
    }

    /** `setTypeVariables(tvs)`: null clears the type variables, otherwise they become a copy of `tvs`. */
    method SetTypeVariables(tvs: Option<seq<TypeVariable>>)
      modifies this`typeVars
      ensures TypeVariables() == if tvs.None? then [] else tvs.value
    {
      if tvs.None? {
        typeVars := [];
      } else {
        typeVars := tvs.value;
      }
    }

    /** `typeVariables()`: the type variables last set, empty when none were. */
    function TypeVariables(): (r: seq<TypeVariable>)
      reads this
      ensures r == typeVars
    {
      typeVars
    }

    /** `setPClass(pc)` */
    method SetPClass(pc: Option<PClass>)
      modifies this`pclass
      ensures pclass == pc
    {
      pclass := pc;
    }

    /** `isRawClass()`: a class parsed from source is never a raw class. */
    function IsRawClass(): (r: bool)
      ensures !r
    {
      false
    }

    /**
     * `toString()`: the base name, followed by `<v1, v2, ...>` when there
     * are type variables (`base` is the base class's `toString`, `show` the
     * variables' `toString`).
     */
    method ToString(base: string, show: TypeVariable -> string) returns (s: string)
      ensures typeVars == [] ==> s == base
      ensures typeVars != [] ==>
        s == base + "<" + Join(Shown(typeVars, show), ", ") + ">"
    {
      s := Render(base, typeVars, show, ", ");
    }

    /**
     * `translate(c)`: as `toString`, but with the variables' translations
     * and `,` with no space between them.
     */
    method Translate(base: string, translate: TypeVariable -> string) returns (s: string)
      ensures typeVars == [] ==> s == base
      ensures typeVars != [] ==>
        s == base + "<" + Join(Shown(typeVars, translate), ",") + ">"
    {
      s := Render(base, typeVars, translate, ",");
    }
  }

  /**
   * The list `enumConstants()` hands out is the class's own: a constant
   * added afterwards shows up in it.
   */
  method EnumConstantsSeesLaterAdds(t: JL5ParsedClassType, ei: EnumInstance) returns (l: CollectionUtil.MutableList<EnumInstance>)
    modifies t, t.enumConstants
    ensures t.enumConstants == l
    ensures l.elems == old(t.EnumList()) + [ei]
  {
    l := t.EnumConstants();
    t.AddEnumConstant(ei);
  }
}
