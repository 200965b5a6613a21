/**
 * polyglot.ast.ClassBody_c: the body of a class declaration. Its member
 * list is rebuilt copy-on-write, and its type check rejects duplicate
 * fields, constructors, methods and member classes.
 */
module ClassBodies {
  import opened Wrappers
  import opened Diagnostics
  import CollectionUtil

  /** The identity of a node object (a Java reference). */
  type Ref = nat

  /** A type, as far as the checks below need one: its identity. */
  type TypeRef = nat

  /**
   * A class body node: its own identity, its position and its members, each
   * member being a node held by reference.
   */
  datatype ClassBody = ClassBody(self: Ref, pos: Position, members: seq<Ref>)

  /**
   * `members(list)`: a copy of the node (a new object, identity `copyRef`)
   * holding exactly the given members.
   */
  function WithMembers(b: ClassBody, members: seq<Ref>, copyRef: Ref): (n: ClassBody)
    requires copyRef != b.self
    ensures n.self != b.self
    ensures n.members == members && n.pos == b.pos
  {
    b.(self := copyRef, members := members)
  }

  /** `addMember(m)`: a copy holding the old members followed by `m`. */
  function AddMember(b: ClassBody, m: Ref, copyRef: Ref): (n: ClassBody)
    requires copyRef != b.self
    ensures n.self != b.self && n.pos == b.pos
    ensures |n.members| == |b.members| + 1
    ensures n.members[..|b.members|] == b.members && n.members[|b.members|] == m
  {
    WithMembers(b, b.members + [m], copyRef)
  }

  /**
   * `reconstruct(members)`: the node itself when the new list is pointer-wise
   * equal to the current one, otherwise a copy holding the new list. Either
   * way the result holds exactly the new members.
   */
  function Reconstruct(b: ClassBody, members: seq<Ref>, copyRef: Ref): (n: ClassBody)
    requires copyRef != b.self
    ensures CollectionUtil.PointerEqualElements(members, b.members) ==> n == b
    ensures !CollectionUtil.PointerEqualElements(members, b.members) ==> n.self != b.self
    ensures n.members == members && n.pos == b.pos
  {
    CollectionUtil.PointerEqualElementsIsEquality(members, b.members);
    if CollectionUtil.PointerEqualElements(members, b.members) then b
    else WithMembers(b, members, copyRef)
  }

  /** The member list after visiting each member with `v`, in order. */
  function VisitList(members: seq<Ref>, v: Ref -> Ref): seq<Ref>
  {
    seq(|members|, k requires 0 <= k < |members| => v(members[k]))
  }

  /** `visitChildren(v)`: visit every member, then reconstruct. */
  function VisitChildren(b: ClassBody, v: Ref -> Ref, copyRef: Ref): (n: ClassBody)
    requires copyRef != b.self
    ensures |n.members| == |b.members| && n.pos == b.pos
    ensures forall k :: 0 <= k < |b.members| ==> n.members[k] == v(b.members[k])
    ensures n == b <==> forall k :: 0 <= k < |b.members| ==> v(b.members[k]) == b.members[k]
  {
    Reconstruct(b, VisitList(b.members, v), copyRef)
  }

  /** A visitor that hands every member back unchanged yields the very same node. */
  lemma VisitChildrenIdentity(b: ClassBody, v: Ref -> Ref, copyRef: Ref)
    requires copyRef != b.self
    requires forall k :: 0 <= k < |b.members| ==> v(b.members[k]) == b.members[k]
    ensures VisitChildren(b, v, copyRef) == b
  {
    assert VisitList(b.members, v) == b.members;
  }

  /**
   * Copy-on-write sharing: after a visit, every member the visitor handed
   * back unchanged is the same object in the result, and any member that
   * changed makes the result a new node.
   */
  lemma VisitChildrenSharesUnchanged(b: ClassBody, v: Ref -> Ref, copyRef: Ref, k: nat)
    requires copyRef != b.self
    requires k < |b.members|
    ensures var n := VisitChildren(b, v, copyRef);
      && |n.members| == |b.members|
      && (v(b.members[k]) == b.members[k] ==> n.members[k] == b.members[k])
      && (v(b.members[k]) != b.members[k] ==> n.self != b.self)
  {
  }

  /** `firstChild()`: class members are not part of evaluation order, so there is none. */
  function FirstChild(b: ClassBody): (r: Option<Ref>)
    ensures r.None?
  {
    None
  }

  /** `acceptCFG(v, succs)`: no control-flow edges through the members; successors pass through. */
  function AcceptCFG<S>(b: ClassBody, succs: seq<S>): (r: seq<S>)
    ensures r == succs
  {
    succs
  }

  // ---------------------------------------------------------------------
  // Duplicate-declaration checks

  /** A field of the class being checked; `text` is how it prints in a message. */
  datatype FieldInstance = FieldInstance(name: string, pos: Position, text: string)

  /** A constructor of the class being checked. */
  datatype ConstructorInstance = ConstructorInstance(formalTypes: seq<TypeRef>, pos: Position, text: string)

  /** A method of the class being checked. */
  datatype MethodInstance = MethodInstance(name: string, formalTypes: seq<TypeRef>, pos: Position, text: string)

  /** A member class of the class being checked. */
  datatype MemberClass = MemberClass(name: string, pos: Position, text: string)

  /** The class the type checker is in (`tc.context().currentClass()`), as the checks read it. */
  datatype ClassType = ClassType(
    fields: seq<FieldInstance>,
    constructors: seq<ConstructorInstance>,
    methods: seq<MethodInstance>,
    memberClasses: seq<MemberClass>)

  /**
   * The type-system queries the checks use, which belong to the type system:
   * `ci.hasFormals(formals)` and `mi.isSameMethod(mj)`.
   */
  datatype TypeQueries = TypeQueries(
    hasFormals: (ConstructorInstance, seq<TypeRef>) -> bool,
    isSameMethod: (MethodInstance, MethodInstance) -> bool)

  /** No pair `i < j` of `l` clashes. */
  ghost predicate NoClash<T>(l: seq<T>, clash: (T, T) -> bool) {
    forall i, j :: 0 <= i < j < |l| ==> !clash(l[i], l[j])
  }

  /**
   * `(i, j)` is the first clashing pair the nested scan meets: `i < j`, the
   * two clash, and no pair before it in scan order (all of rows `i' < i`,
   * then row `i` up to `j`) clashes.
   */
  ghost predicate FirstClash<T>(l: seq<T>, clash: (T, T) -> bool, i: int, j: int) {
    && 0 <= i < j < |l|
    && clash(l[i], l[j])
    && (forall i', j' :: 0 <= i' < i && i' < j' < |l| ==> !clash(l[i'], l[j']))
    && (forall j' :: i < j' < j ==> !clash(l[i], l[j']))
  }

  /** There is at most one first clashing pair. */
  lemma FirstClashUnique<T>(l: seq<T>, clash: (T, T) -> bool, i: int, j: int, i2: int, j2: int)
    requires FirstClash(l, clash, i, j) && FirstClash(l, clash, i2, j2)
    ensures i == i2 && j == j2
  {
  }

  /**
   * The nested `i < j` scan shared by the four checks: the first clashing
   * pair in scan order, or none when no pair clashes.
   */
  method FindDuplicate<T>(l: seq<T>, clash: (T, T) -> bool) returns (r: Option<(nat, nat)>)
    ensures r.None? <==> NoClash(l, clash)
    ensures r.Some? ==> FirstClash(l, clash, r.value.0, r.value.1)
  {
    var i := 0;
    while i < |l|
      invariant 0 <= i <= |l|
      invariant forall i', j' :: 0 <= i' < i && i' < j' < |l| ==> !clash(l[i'], l[j'])
    {
      var j := i + 1;
      while j < |l|
        invariant i + 1 <= j <= |l|
        invariant forall j' :: i < j' < j ==> !clash(l[i], l[j'])
      {
        if clash(l[i], l[j]) {
          return Some((i, j));
        }
        j := j + 1;
      }
      i := i + 1;
    }
    return None;
  }

  /** The error a duplicate raises: it names and points at the later declaration. */
  function DuplicateError(what: string, text: string, pos: Position): SemanticError
  {
    SemanticError("Duplicate " + what + " \"" + text + "\".", pos)
  }

  predicate SameFieldName(a: FieldInstance, b: FieldInstance) { a.name == b.name }

  predicate SameMemberClassName(a: MemberClass, b: MemberClass) { a.name == b.name }

  /** Constructor `ci` clashes with a later `cj` when `ci.hasFormals(cj.formalTypes())`. */
  function FormalsClash(q: TypeQueries): (ConstructorInstance, ConstructorInstance) -> bool
  {
    (ci: ConstructorInstance, cj: ConstructorInstance) => q.hasFormals(ci, cj.formalTypes)
  }

  /** `e` is the error the field check raises: for the later field of the first duplicate pair. */
  ghost predicate FieldDuplicate(fields: seq<FieldInstance>, e: SemanticError) {
    exists i, j :: FirstClash(fields, SameFieldName, i, j) && e == DuplicateError("field", fields[j].text, fields[j].pos)
  }

  ghost predicate ConstructorDuplicate(q: TypeQueries, ctors: seq<ConstructorInstance>, e: SemanticError) {
    exists i, j :: FirstClash(ctors, FormalsClash(q), i, j) && e == DuplicateError("constructor", ctors[j].text, ctors[j].pos)
  }

  ghost predicate MethodDuplicate(q: TypeQueries, methods: seq<MethodInstance>, e: SemanticError) {
    exists i, j :: FirstClash(methods, q.isSameMethod, i, j) && e == DuplicateError("method", methods[j].text, methods[j].pos)
  }

  ghost predicate MemberClassDuplicate(classes: seq<MemberClass>, e: SemanticError) {
    exists i, j :: FirstClash(classes, SameMemberClassName, i, j) && e == DuplicateError("member type", classes[j].text, classes[j].pos)
  }

  /** `duplicateFieldCheck`: fails iff two fields share a name. */
  method DuplicateFieldCheck(ct: ClassType) returns (r: Outcome<SemanticError>)
    ensures r.Pass? <==> NoClash(ct.fields, SameFieldName)
    ensures r.Fail? ==> FieldDuplicate(ct.fields, r.error)
  {
    var d := FindDuplicate(ct.fields, SameFieldName);
    if d.Some? {
      var fj := ct.fields[d.value.1];
      return Fail(DuplicateError("field", fj.text, fj.pos));
    }
    return Pass;
  }

  /** `duplicateConstructorCheck`: fails iff some `ci` has the formals of a later `cj`. */
  method DuplicateConstructorCheck(q: TypeQueries, ct: ClassType) returns (r: Outcome<SemanticError>)
    ensures r.Pass? <==> NoClash(ct.constructors, FormalsClash(q))
    ensures r.Fail? ==> ConstructorDuplicate(q, ct.constructors, r.error)
  {
    var d := FindDuplicate(ct.constructors, FormalsClash(q));
    if d.Some? {
      var cj := ct.constructors[d.value.1];
      return Fail(DuplicateError("constructor", cj.text, cj.pos));
    }
    return Pass;
  }

  /** `duplicateMethodCheck`: fails iff some pair of methods is the same method. */
  method DuplicateMethodCheck(q: TypeQueries, ct: ClassType) returns (r: Outcome<SemanticError>)
    ensures r.Pass? <==> NoClash(ct.methods, q.isSameMethod)
    ensures r.Fail? ==> MethodDuplicate(q, ct.methods, r.error)
  {
    var d := FindDuplicate(ct.methods, q.isSameMethod);
    if d.Some? {
      var mj := ct.methods[d.value.1];
      return Fail(DuplicateError("method", mj.text, mj.pos));
    }
    return Pass;
  }

  /** `duplicateMemberClassCheck`: fails iff two member classes share a name. */
  method DuplicateMemberClassCheck(ct: ClassType) returns (r: Outcome<SemanticError>)
    ensures r.Pass? <==> NoClash(ct.memberClasses, SameMemberClassName)
    ensures r.Fail? ==> MemberClassDuplicate(ct.memberClasses, r.error)
  {
    var d := FindDuplicate(ct.memberClasses, SameMemberClassName);
    if d.Some? {
      var mj := ct.memberClasses[d.value.1];
      return Fail(DuplicateError("member type", mj.text, mj.pos));
    }
    return Pass;
  }

  /**
   * `typeCheck`: runs the field, constructor, method and member-class checks
   * in that order; the first failure is the result, and when none fails the
   * node is returned unchanged.
   */
  method TypeCheck(b: ClassBody, q: TypeQueries, ct: ClassType) returns (r: Result<ClassBody, SemanticError>)
    ensures r.Ok? <==>
      && NoClash(ct.fields, SameFieldName)
      && NoClash(ct.constructors, FormalsClash(q))
      && NoClash(ct.methods, q.isSameMethod)
      && NoClash(ct.memberClasses, SameMemberClassName)
    ensures r.Ok? ==> r.value == b
    ensures r.Err? ==>
      if !NoClash(ct.fields, SameFieldName) then FieldDuplicate(ct.fields, r.error)
      else if !NoClash(ct.constructors, FormalsClash(q)) then ConstructorDuplicate(q, ct.constructors, r.error)
      else if !NoClash(ct.methods, q.isSameMethod) then MethodDuplicate(q, ct.methods, r.error)
      else MemberClassDuplicate(ct.memberClasses, r.error)
  {
    var o := DuplicateFieldCheck(ct);
    if o.Fail? {
      return Err(o.error);
    }
    o := DuplicateConstructorCheck(q, ct);
    if o.Fail? {
      return Err(o.error);
    }
    o := DuplicateMethodCheck(q, ct);
    if o.Fail? {
      return Err(o.error);
    }
    o := DuplicateMemberClassCheck(ct);
    if o.Fail? {
      return Err(o.error);
    }
    return Ok(b);
  }
}
