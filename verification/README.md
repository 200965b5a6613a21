# Polyglot front-end core, modelled in Dafny

This project models a slice of Polyglot, an extensible Java compiler front
end, together with its Java 5 (JL5) and Coffer extensions, and proves
properties of that model. Each Java file becomes one Dafny module:

- `CollectionUtil` (`collection_util.dfy`) — list helpers. It covers
  pointer-wise list equality, in-place append, the `list(...)` builders,
  `firstOrElse`, `pairs`, `map` and `nonNullList`. A mutable Java list is a
  class `MutableList` whose identity is its Dafny reference.
- `ClassBodies` (`class_body.dfy`) — `ClassBody_c`. It covers copy-on-write
  member updates, `reconstruct`/`visitChildren`, and the four duplicate
  checks that make up `typeCheck`. Node identity is an explicit `Ref`. The
  identity of a fresh copy is supplied by the caller and must differ from
  the original's.
- `Goals` (`disambiguated.dfy`) — the reach test of the `Disambiguated`
  goal. It has the cached flag, the check that the pass has run, the null
  AST, and the scan of declared types for unresolved signatures, which
  records a concurrent dependency with the scheduler. Then comes the AST
  scan, which skips local and anonymous class bodies and stops at the
  first node that is not disambiguated.
- `CachingLists` (`caching_transforming_list.dfy`) — `CachingTransformingList`.
  Its cache is an array with one slot per element. A slot is filled when its
  index is read while the slot is empty. A transform that returns null
  leaves the slot empty, so it is computed again on the next read.
- `Flattening` (`flatten_visitor.dfy`) — `FlattenVisitor`. It keeps a stack
  of statement lists, the `noFlatten` and `neverFlatten` sets and the
  temporary counter. Complex expressions are hoisted into `final` temporaries
  named `flat$$$<n>`. A `switch` directly inside a block is lost as the
  source is written, and the model records it instead (see Findings).
- `JL5Types` (`jl5_parsed_class_type.dfy`) — `JL5ParsedClassType_c`. It
  covers enum constants, annotation elements, method lookup by formals,
  type variables, `toString`/`translate` and the implicit-cast chain.
- `JL5Cases` (`jl5_case.dfy`) — `JL5Case_c`. It covers both visitor
  overrides and `resolveCaseLabel`: enum labels take their ordinal, and
  other labels must be integral constants.
- `CofferKeys` (`param_key.dfy`) — `ParamKey_c.equalsImpl`, which is
  equality by name.

`Wrappers` (`wrappers.dfy`) holds `Option`, `Result` and `Outcome`.
`Diagnostics` (`diagnostics.dfy`) holds `Position` and `SemanticError`.

The type system, the node factory, the type checker and the disambiguator
are not modelled. Each query the code makes of them is a function-typed
parameter, grouped in a `TypeQueries` or `Checker` value. Examples are
`isSubtype`, `hasFormals`, `isSameMethod`, `findEnumConstant` and
`constantValue`.

## Model

| member | source | states |
|---|---|---|
| CollectionUtil.Add | src/polyglot/util/CollectionUtil.java:33-36 | returns the same list object; the list grows by exactly one, the earlier elements are unchanged and `o` is last |
| CollectionUtil.Equals | src/polyglot/util/CollectionUtil.java:42-69 | true for the same reference (both null included); false when exactly one is null; otherwise true iff the lists have the same length and are element-wise pointer-equal |
| CollectionUtil.PointerEqualElementsIsEquality | src/polyglot/util/CollectionUtil.java:52-68 | element-wise pointer equality of two non-null lists holds exactly when they hold the same sequence of references |
| CollectionUtil.PointerEqualElementsReflexiveSymmetric | src/polyglot/util/CollectionUtil.java:42-69 | the comparison is reflexive and symmetric |
| CollectionUtil.List0 | src/polyglot/util/CollectionUtil.java:72-74 | `list()` is empty |
| CollectionUtil.List1 | src/polyglot/util/CollectionUtil.java:77-79 | `list(o)` is the singleton `[o]` |
| CollectionUtil.List2 | src/polyglot/util/CollectionUtil.java:82-87 | `list(o1, o2)` is a new list holding `o1, o2` in order |
| CollectionUtil.List3 | src/polyglot/util/CollectionUtil.java:90-96 | `list(o1, o2, o3)` is a new list holding the three in order |
| CollectionUtil.List4 | src/polyglot/util/CollectionUtil.java:99-106 | `list(o1, ..., o4)` is a new list holding the four in order |
| CollectionUtil.FirstOrElse | src/polyglot/util/CollectionUtil.java:108-113 | the first element of a non-empty collection, else `alt` |
| CollectionUtil.NonNullList | src/polyglot/util/CollectionUtil.java:150-154 | `l` itself when non-null, else the empty list |
| CollectionUtil.Pairs | src/polyglot/util/CollectionUtil.java:115-125 | the loop yields exactly the pairs of consecutive elements whose first element is non-null, in order |
| CollectionUtil.PairsOfNullFree | src/polyglot/util/CollectionUtil.java:115-125 | a null-free list of n > 0 elements gives exactly n - 1 pairs, the k-th being `(l[k], l[k+1])` |
| CollectionUtil.PairsOfAreConsecutive | src/polyglot/util/CollectionUtil.java:118-123 | every pair yielded is a non-null element followed by its successor in the list |
| CollectionUtil.Map | src/polyglot/util/CollectionUtil.java:134-141 | the result has the same length as `l` and holds `t(l[k])` at position k |
| ClassBodies.WithMembers | src/polyglot/ast/ClassBody_c.java:53-57 | `members(list)` returns a different node object with the same position that holds exactly the given members |
| ClassBodies.AddMember | src/polyglot/ast/ClassBody_c.java:59-66 | `addMember(m)` returns a different node object holding the old members followed by `m` |
| ClassBodies.Reconstruct | src/polyglot/ast/ClassBody_c.java:68-76 | the node itself when the new list is pointer-equal to the current one, otherwise a different node object; either way the result holds exactly the new members |
| ClassBodies.VisitChildren | src/polyglot/ast/ClassBody_c.java:78-81 | the result holds, at each index, what the visitor returned for that member, and keeps the position. It is the node itself iff the visitor returned every member unchanged |
| ClassBodies.VisitChildrenIdentity | src/polyglot/ast/ClassBody_c.java:78-81 | a visitor that returns every member unchanged yields the very same node |
| ClassBodies.VisitChildrenSharesUnchanged | src/polyglot/ast/ClassBody_c.java:68-81 | after a visit, each member returned unchanged is the same object in the result, and a changed member makes the result a new node |
| ClassBodies.FirstChild | src/polyglot/ast/ClassBody_c.java:210-213 | there is no first child: class members are not in evaluation order |
| ClassBodies.AcceptCFG | src/polyglot/ast/ClassBody_c.java:218-220 | the successors pass through unchanged |
| ClassBodies.FirstClashUnique | src/polyglot/ast/ClassBody_c.java:96-106 | the nested i < j scan order has at most one first clashing pair |
| ClassBodies.FindDuplicate | src/polyglot/ast/ClassBody_c.java:96-106 | none iff no pair i < j clashes; otherwise the first clashing pair in scan order |
| ClassBodies.DuplicateFieldCheck | src/polyglot/ast/ClassBody_c.java:91-107 | fails iff two fields share a name; the error is `Duplicate field "fj".` at the later field of the first such pair |
| ClassBodies.DuplicateConstructorCheck | src/polyglot/ast/ClassBody_c.java:109-125 | fails iff some `ci.hasFormals(cj.formalTypes())` with i < j; the error names and points at `cj` of the first such pair |
| ClassBodies.DuplicateMethodCheck | src/polyglot/ast/ClassBody_c.java:127-144 | fails iff some pair i < j satisfies `isSameMethod`; the error names and points at `mj` of the first such pair |
| ClassBodies.DuplicateMemberClassCheck | src/polyglot/ast/ClassBody_c.java:146-162 | fails iff two member classes share a name; the error is `Duplicate member type "mj".` for the first such pair |
| ClassBodies.TypeCheck | src/polyglot/ast/ClassBody_c.java:169-176 | succeeds with the node unchanged iff none of the four checks fails; otherwise it fails with the error of the first failing check, taken in the order field, constructor, method, member class |
| Goals.Scheduler.AddConcurrentDependency | src/polyglot/frontend/goals/Disambiguated.java:62-63 | the dependency edge is added to the scheduler's set |
| Goals.ExaminedPrefixShape | src/polyglot/frontend/goals/Disambiguated.java:72-93 | the nodes the stopping scan examines form a prefix of the visiting order; it is the whole order when all nodes are disambiguated, and otherwise it ends at the first node that is not |
| Goals.ExaminedPrefixAppend | src/polyglot/frontend/goals/Disambiguated.java:72-93 | scanning a concatenation examines the second part only if the first part is fully disambiguated |
| Goals.Scan | src/polyglot/frontend/goals/Disambiguated.java:72-93 | starting with the flag up, the flag stays up iff every node in visiting order, minus local and anonymous class bodies, is disambiguated; the nodes read are exactly the examined prefix; a lowered flag stays lowered and reads nothing |
| Goals.ScanChildren | src/polyglot/frontend/goals/Disambiguated.java:71-94 | scanning the children of a node in order, each with the flag the previous one left, keeps the flag up iff every node below them in visiting order is disambiguated; the nodes read are exactly the examined prefix |
| Goals.FirstUnresolved | src/polyglot/frontend/goals/Disambiguated.java:57-66 | the index of the first declared type with unresolved signatures; all types before it are resolved |
| Goals.DisambiguatedGoal.MarkRun | src/polyglot/frontend/goals/Disambiguated.java:96-100 | the goal then counts as reached |
| Goals.DisambiguatedGoal.HasBeenReached | src/polyglot/frontend/goals/Disambiguated.java:34-103 | cached: true, no change. Not run or null AST: false. A type with unresolved signatures: false, with exactly one dependency edge added, on the first such type. Otherwise: the result and the new reached flag both equal "every scanned node is disambiguated" |
| Goals.ReachTestIsStable | src/polyglot/frontend/goals/Disambiguated.java:34-103 | two reach tests in a row give the same answer and add at most one dependency edge between them |
| CachingLists.CachingTransformingList.OfList | src/polyglot/util/CachingTransformingList.java:41-44 | views the given list itself, with one empty cache slot per element |
| CachingLists.CachingTransformingList.OfCollection | src/polyglot/util/CachingTransformingList.java:37-39 | views a new copy of the collection, with one empty cache slot per element |
| CachingLists.CachingTransformingList.Get | src/polyglot/util/CachingTransformingList.java:46-53 | returns the transform of the element at `index`. A filled slot is returned without applying the transformation; an empty one is filled. No other slot changes, and a filled slot always holds the transform of its element |
| CachingLists.GetTwice | src/polyglot/util/CachingTransformingList.java:30-53 | two reads of one index agree, and a non-null transform is applied at most once |
| Flattening.TempNamesDistinct | src/polyglot/visit/FlattenVisitor.java:98-102 | temporaries with different numbers get different names |
| Flattening.InBlock | src/polyglot/visit/FlattenVisitor.java:37-39 | a block is left as it is; any other statement is wrapped in a new block holding just it |
| Flattening.WithBlockBodies | src/polyglot/visit/FlattenVisitor.java:33-71 | the `if` consequent, a non-null alternative and every loop body become blocks; existing blocks, conditions, inits and updates are unchanged |
| Flattening.BlockBodiesAreBlocks | src/polyglot/visit/FlattenVisitor.java:33-71 | after block insertion every statement body is a block |
| Flattening.FlattenVisitor.NewId | src/polyglot/visit/FlattenVisitor.java:98-102 | returns `flat$$$` followed by the old counter, and increments the counter |
| Flattening.FlattenVisitor.OverrideAsWritten | src/polyglot/visit/FlattenVisitor.java:31-96 | `override` as written. It is the same as `Override`, except that a switch is kept without being recorded in the innermost list |
| Flattening.FlattenVisitor.Override | src/polyglot/visit/FlattenVisitor.java:31-96 | corrected `override`. `if` and loops are visited with block bodies, without a second override. A field declaration, constructor call or switch is kept and recorded in the innermost list when the stack is non-empty. Array initialisers and `neverFlatten` nodes are kept. Anything else is visited normally |
| Flattening.FlattenVisitor.Enter | src/polyglot/visit/FlattenVisitor.java:111-159 | a block pushes an empty list. Eval, LocalDecl, For-init, Assign and Unary operands join `noFlatten`. For/While/Do conditions and For updates join `neverFlatten` |
| Flattening.FlattenVisitor.Leave | src/polyglot/visit/FlattenVisitor.java:164-224 | a `noFlatten` node is removed from the set and kept. A block pops its list as its statements and, inside a block with a list left, is appended to it. Other statements are appended. A complex expression becomes a new `final` temporary declared in the innermost list and replaced by its use. Everything else is kept |
| Flattening.EnterLeaveBlock | src/polyglot/visit/FlattenVisitor.java:111-183 | entering a block, leaving each plain statement inside it, then leaving the block gives a block holding exactly those statements in order. The stack returns to its old depth, and inside an enclosing block the result is appended to that block's list |
| Flattening.SwitchDroppedAsWritten | src/polyglot/visit/FlattenVisitor.java:81-84 | as written, a block whose only statement is a switch is left with no statements |
| Flattening.SwitchKeptInBlock | src/polyglot/visit/FlattenVisitor.java:73-84 | with the corrected `override`, the same block keeps its switch |
| JL5Types.FirstNamed | src/polyglot/ext/jl5/types/JL5ParsedClassType_c.java:46-63 | the first element with the given name in list order, or none when no element has it |
| JL5Types.Filter | src/polyglot/ext/jl5/types/JL5ParsedClassType_c.java:80-88 | keeps exactly the elements satisfying the test, and only elements of the input |
| JL5Types.Render | src/polyglot/ext/jl5/types/JL5ParsedClassType_c.java:214-231 | the base alone when there are no type variables, otherwise base, `<`, the rendered variables joined by the separator, `>` |
| JL5Types.ImplicitCastValidChain | src/polyglot/ext/jl5/types/JL5ParsedClassType_c.java:129-148 | `[this, toType]` for a subtype. Otherwise, for a primitive `toType` that the unboxed type casts to, that chain with `this` in front. Otherwise none. Every chain starts at `this` |
| JL5Types.JL5ParsedClassType.EnumConstants | src/polyglot/ext/jl5/types/JL5ParsedClassType_c.java:39-44 | the first call creates a new empty list object and stores it; later calls return that same object |
| JL5Types.JL5ParsedClassType.AddEnumConstant | src/polyglot/ext/jl5/types/JL5ParsedClassType_c.java:34-37 | adds the constant as a field and appends it, in place, to the class's own enum-constant list object |
| JL5Types.JL5ParsedClassType.EnumConstantNamed | src/polyglot/ext/jl5/types/JL5ParsedClassType_c.java:46-53 | the first enum constant with the name in list order, or none; the list is created if missing and otherwise unchanged |
| JL5Types.JL5ParsedClassType.AddAnnotationElem | src/polyglot/ext/jl5/types/JL5ParsedClassType_c.java:65-69 | adds the element as a method and appends it to the annotation elements |
| JL5Types.JL5ParsedClassType.AnnotationElemNamed | src/polyglot/ext/jl5/types/JL5ParsedClassType_c.java:55-63 | the first annotation element with the name in list order, or none |
| JL5Types.JL5ParsedClassType.MethodsLike | src/polyglot/ext/jl5/types/JL5ParsedClassType_c.java:78-89 | in order, exactly the methods named like `mi` whose formals match `mi`'s formal types; membership in both directions |
| JL5Types.JL5ParsedClassType.SetTypeVariables | src/polyglot/ext/jl5/types/JL5ParsedClassType_c.java:162-170 | null clears the type variables; otherwise they equal the argument |
| JL5Types.JL5ParsedClassType.TypeVariables | src/polyglot/ext/jl5/types/JL5ParsedClassType_c.java:171-174 | returns the type variables as last set. They are empty after `setTypeVariables(null)` and otherwise equal the argument (contract of `SetTypeVariables`) |
| JL5Types.JL5ParsedClassType.SetPClass | src/polyglot/ext/jl5/types/JL5ParsedClassType_c.java:157-160 | the generic class becomes `pc` |
| JL5Types.JL5ParsedClassType.IsRawClass | src/polyglot/ext/jl5/types/JL5ParsedClassType_c.java:233-236 | a parsed class type is never raw |
| JL5Types.JL5ParsedClassType.ToString | src/polyglot/ext/jl5/types/JL5ParsedClassType_c.java:214-231 | the base string alone without type variables, otherwise `base<v1, v2, ...>` |
| JL5Types.JL5ParsedClassType.Translate | src/polyglot/ext/jl5/types/JL5ParsedClassType_c.java:242-259 | the base translation alone without type variables, otherwise `base<t1,t2,...>` with no space |
| JL5Types.EnumConstantsSeesLaterAdds | src/polyglot/ext/jl5/types/JL5ParsedClassType_c.java:34-44 | a list obtained from `enumConstants()` is the class's own, and a constant added afterwards appears in it |
| JL5Cases.DisambiguateOverride | src/polyglot/ext/jl5/ast/JL5Case_c.java:21-31 | the case itself exactly when its label is ambiguous, otherwise null |
| JL5Cases.TypeCheckOverride | src/polyglot/ext/jl5/ast/JL5Case_c.java:33-40 | null exactly for `default` and literal labels, otherwise the case itself |
| JL5Cases.ResolveCaseLabel | src/polyglot/ext/jl5/ast/JL5Case_c.java:43-95 | `default` is returned unchanged; a resolved case keeps its position and has a label when the original had one |
| JL5Cases.EnumLabelTakesOrdinal | src/polyglot/ext/jl5/ast/JL5Case_c.java:52-65 | on a class-typed switch, an enum label takes its ordinal, and an ambiguous name becomes the named enum constant of the switch type with its ordinal |
| JL5Cases.EnumResolutionIdempotent | src/polyglot/ext/jl5/ast/JL5Case_c.java:52-57 | resolving an enum label a second time changes nothing |
| JL5Cases.ConstantLabelValue | src/polyglot/ext/jl5/ast/JL5Case_c.java:68-94 | off the enum path, a Byte, Short or Integer constant gives its value, and a Character gives its UTF-16 code unit (surrogates included). Any other value, or no value, is rejected with "Case label must be an integral constant." at the case |
| JL5Cases.ResolutionErrors | src/polyglot/ext/jl5/ast/JL5Case_c.java:58-94 | `default` never fails; an error is the enum lookup error, the disambiguation error, or the integral-constant error |
| CofferKeys.EqualsImpl | examples/bkd-compat/coffer/compiler/src/coffer/types/ParamKey_c.java:19-25 | an object that is not a parameter key is never equal |
| CofferKeys.OnlyParamKeysAreEqual | examples/bkd-compat/coffer/compiler/src/coffer/types/ParamKey_c.java:21-24 | a key equals only parameter keys |
| CofferKeys.EqualsImplIsNameEquality | examples/bkd-compat/coffer/compiler/src/coffer/types/ParamKey_c.java:21-23 | between parameter keys, equality holds iff the names are equal strings |
| CofferKeys.EqualsImplIgnoresPositionAndTypeSystem | examples/bkd-compat/coffer/compiler/src/coffer/types/ParamKey_c.java:20-25 | the outcome does not depend on either key's position or type system |
| CofferKeys.EqualsImplIsEquivalence | examples/bkd-compat/coffer/compiler/src/coffer/types/ParamKey_c.java:20-25 | on parameter keys the relation is reflexive, symmetric and transitive |

## Left out

- Pretty-printing (`prettyPrint` and `print` in `ClassBody_c`, `JL5Case_c` and `JL5ParsedClassType_c`) is code-writer layout over a library that is not part of this model.
- `Report` logging in `Disambiguated` is diagnostic output and does not affect the result.
- `ClassBody_c.disambiguate` returns the node itself, and `ClassBody_c.toString` returns the constant `"{ ... }"`. Neither takes part in any property modelled here.
- `ClassBody_c.exceptionCheckEnter` and `ClassBody_c.copy` delegate to the exception checker and the node factory, which are not part of this model. The caller-supplied copy identity stands for `copy`.
- `Disambiguated.createPass` builds a pass object from the extension's type system and node factory, which are not part of this model.
- `JL5ParsedClassType_c.outer`, `isEnclosedImpl`, `isCastValidImpl`, `descendsFromImpl` and `erasureSubst` take their meaning from the superclass and type system, which are not part of this model. `isImplicitCastValidImpl` always throws an internal compiler error and is left out too.
- JL5Types.JL5ParsedClassType.AnnotationElemNamed: it does not model the lazy `initAnnotationElems` call of the class initializer, which is not part of this model. The annotation elements are taken as already initialized.
- JL5Types.JL5ParsedClassType.MethodsLike: `methodsNamed` is modelled as the in-order filter of `methods` by name, and `hasFormals` is a parameter.
- CollectionUtil.Map: `TransformingIterator`, which `map` goes through, is not part of this model. `map` is modelled as applying `t` to every element.
- CollectionUtil.Equals: iteration over an arbitrary `Collection` is taken to be the list's order.
- ClassBodies.VisitChildrenIdentity: `visitList` is modelled as applying the visitor to each member. Members that the visitor deletes are not modelled.
- Goals.DisambiguatedGoal.HasBeenReached: `super.hasBeenReached()` is the goal's `reached` flag, and `markRun` is taken to set it. `typesBelow()` is a given list of the AST. The traversal engine that drives the anonymous visitor is modelled as the recursive `Scan`.
- CachingLists.CachingTransformingList.Get: requires the index to be in range, so the `IndexOutOfBoundsException` that Java's list throws is not modelled. It also requires the underlying list to be unchanged since construction, so a caller that mutates a shared list behind the view is not modelled.
- Flattening.FlattenVisitor.NewId: the counter is per visitor and unbounded. In the source it is a `static int` shared by all visitors, and it wraps around at 2^31.
- Flattening.FlattenVisitor.Leave: the temporaries' types, positions and local instances are not modelled. A null stack head, where Java's `LinkedList` would throw, is excluded by the requirement that the stack is non-empty when it is used.
- Flattening.FlattenVisitor.Override: it departs from the source by recording a switch in the innermost list; `OverrideAsWritten` is the source's behaviour (see Findings).
- Flattening.EnterLeaveBlock: it covers blocks whose statements are plain statements. Nested blocks and hoisted expressions are covered step by step by the contracts of `Enter` and `Leave`.
- Flattening.FlattenVisitor.Enter: a `LocalDecl` without an initializer and a `For` without a condition add `null` to the sets in the source. The model adds nothing, which makes no difference because no node is null.
- The traversal engine of `NodeVisitor` (`visitEdgeNoOverride`, the order of enter, children and leave) is not part of this model. `Override`, `Enter` and `Leave` are each modelled as single steps.
- JL5Cases.ResolveCaseLabel: type checking a label (`visit(tc)`), `disambiguate` and `constantValue` are parameters. Checking itself is taken not to fail.

## Findings

| source | as written | input that shows it | evidently intended | confidence | as-written member | corrected member |
|---|---|---|---|---|---|---|
| src/polyglot/visit/FlattenVisitor.java:81-84 | `override` returns a switch unvisited and does not add it to the innermost statement list, unlike a field declaration or constructor call (:73-79). `leave` of the enclosing block then replaces the block's statements with that list (:170-172) | a block whose only statement is `switch (x) {}` comes out of flattening as an empty block | the switch stays in its block, recorded in the innermost list as `override` does for a constructor call | medium, not executed | Flattening.SwitchDroppedAsWritten | Flattening.SwitchKeptInBlock |
