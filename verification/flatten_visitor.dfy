/**
 * polyglot.visit.FlattenVisitor: rewrites method bodies so that every
 * complex expression is computed into its own `final` temporary. It keeps
 * a stack of statement lists, one per enclosing block, innermost first.
 */
module Flattening {
  import opened Wrappers

  /**
   * The identity of a node object. Parsed nodes have `Parsed` identities;
   * the nodes the flattener makes get identities no parsed node has: the
   * block wrapping a statement, and the declaration and use of temporary `k`.
   */
  datatype NodeId = Parsed(n: nat) | WrapperOf(wrapped: NodeId) | TempDecl(k: nat) | TempUse(k: nat)

  /** The statements and expressions the flattener distinguishes. */
  datatype Node =
    | Block(id: NodeId, stmts: seq<Node>)
    | If(id: NodeId, cond: Node, consequent: Node, alternative: Option<Node>)
    | Do(id: NodeId, body: Node, cond: Node)
    | While(id: NodeId, cond: Node, body: Node)
    | For(id: NodeId, inits: seq<Node>, forCond: Option<Node>, iters: seq<Node>, body: Node)
    | Switch(id: NodeId, expr: Node, cases: seq<Node>)
    | Eval(id: NodeId, expr: Node)
    | LocalDecl(id: NodeId, isFinal: bool, name: string, init: Option<Node>)
    | ConstructorCall(id: NodeId, args: seq<Node>)
    | OtherStmt(id: NodeId, parts: seq<Node>)
    | FieldDecl(id: NodeId, fieldInit: Option<Node>)
    | Lit(id: NodeId)
    | Special(id: NodeId)
    | Local(id: NodeId, localName: string)
    | Assign(id: NodeId, left: Node, right: Node)
    | Unary(id: NodeId, expr: Node)
    | ArrayInit(id: NodeId, elements: seq<Node>)
    | OtherExpr(id: NodeId, operands: seq<Node>)

  predicate IsStmt(n: Node) {
    n.Block? || n.If? || n.Do? || n.While? || n.For? || n.Switch? || n.Eval? || n.LocalDecl? ||
    n.ConstructorCall? || n.OtherStmt?
  }

  predicate IsExpr(n: Node) {
    n.Lit? || n.Special? || n.Local? || n.Assign? || n.Unary? || n.ArrayInit? || n.OtherExpr?
  }

  /** An expression `leave` moves into a temporary: not a literal, `this`/`super`, a local or an assignment. */
  predicate Hoisted(n: Node) {
    IsExpr(n) && !n.Lit? && !n.Special? && !n.Local? && !n.Assign?
  }

  // ---------------------------------------------------------------------
  // Temporary names

  function DigitChar(d: nat): char
    requires d < 10
  {
    "0123456789"[d]
  }

  /** The decimal digits of `k`, as Java's string concatenation writes a non-negative `int`. */
  function Decimal(k: nat): string
    decreases k
  {
    if k < 10 then [DigitChar(k)] else Decimal(k / 10) + [DigitChar(k % 10)]
  }

  /** The name of temporary number `k`. */
  function TempName(k: nat): string
  {
    "flat$$$" + Decimal(k)
  }

  lemma {:induction false} DecimalLength(k: nat)
    ensures k >= 10 ==> |Decimal(k)| >= 2
    ensures |Decimal(k)| >= 1
  {
  }

  /** Different numbers have different decimal forms. */
  lemma {:induction false} DecimalInjective(a: nat, b: nat)
    requires Decimal(a) == Decimal(b)
    ensures a == b
    decreases a
  {
    DecimalLength(a);
    DecimalLength(b);
    if a >= 10 && b >= 10 {
      var da, db := Decimal(a), Decimal(b);
      assert da[..|da| - 1] == Decimal(a / 10);
      assert db[..|db| - 1] == Decimal(b / 10);
      DecimalInjective(a / 10, b / 10);
      assert DigitChar(a % 10) == da[|da| - 1] == DigitChar(b % 10);
    }
  }

  /** Temporaries with different numbers have different names. */
  lemma TempNamesDistinct(a: nat, b: nat)
    requires a != b
    ensures TempName(a) != TempName(b)
  {
    if TempName(a) == TempName(b) {
      assert Decimal(a) == TempName(a)[7..];
      DecimalInjective(a, b);
    }
  }

  // ---------------------------------------------------------------------
  // Inserting blocks

  /** `s` itself when it is a block, otherwise a new block holding just `s`. */
  function InBlock(s: Node): (r: Node)
    ensures r.Block?
    ensures s.Block? ==> r == s
    ensures !s.Block? ==> r.stmts == [s] && r.id != s.id
  {
    if s.Block? then s else Block(WrapperOf(s.id), [s])
  }

  /**
   * The statement `override` visits in place of an `if` or a loop: the
   * consequent, a non-null alternative and every loop body are blocks; a
   * body that already was a block is left as it is; nothing else changes.
   */
  function WithBlockBodies(n: Node): (r: Node)
    requires n.If? || n.Do? || n.While? || n.For?
    ensures r.id == n.id
    ensures n.If? ==>
      && r.If? && r.cond == n.cond && r.consequent == InBlock(n.consequent)
      && r.alternative == (if n.alternative.Some? then Some(InBlock(n.alternative.value)) else None)
    ensures n.Do? ==> r.Do? && r.cond == n.cond && r.body == InBlock(n.body)
    ensures n.While? ==> r.While? && r.cond == n.cond && r.body == InBlock(n.body)
    ensures n.For? ==>
      && r.For? && r.inits == n.inits && r.forCond == n.forCond && r.iters == n.iters
      && r.body == InBlock(n.body)
  {
    match n
    case If(id, c, s1, s2) =>
      If(id, c, InBlock(s1), if s2.Some? then Some(InBlock(s2.value)) else None)
    case Do(id, body, c) => Do(id, InBlock(body), c)
    case While(id, c, body) => While(id, c, InBlock(body))
    case For(id, inits, c, iters, body) => For(id, inits, c, iters, InBlock(body))
  }

  /** Every statement body of `WithBlockBodies(n)` is a block. */
  lemma BlockBodiesAreBlocks(n: Node)
    requires n.If? || n.Do? || n.While? || n.For?
    ensures var r := WithBlockBodies(n);
      && (r.If? ==> r.consequent.Block? && (r.alternative.Some? ==> r.alternative.value.Block?))
      && (!r.If? ==> r.body.Block?)
  {
  }

  /**
   * What `override` tells the traversal: to visit the node normally, to use
   * a node as it is without visiting it, or to visit a replacement without
   * asking `override` again (`visitEdgeNoOverride`).
   */
  datatype OverrideResult = NoOverride | Replace(node: Node) | VisitWithoutOverride(node: Node)

  /** The identities `enter` puts in `noFlatten` for `n`: the expressions it must not hoist itself. */
  function NoFlattenAdded(n: Node): set<NodeId>
  {
    match n
    case Eval(_, e) => {e.id}
    case LocalDecl(_, _, _, init) => if init.Some? then {init.value.id} else {}
    case For(_, inits, _, _, _) => set k | 0 <= k < |inits| :: inits[k].id
    case Assign(_, l, r) => {l.id, r.id}
    case Unary(_, e) => {e.id}
    case _ => {}
  }

  /** The identities `enter` puts in `neverFlatten` for `n`: loop conditions and updates. */
  function NeverFlattenAdded(n: Node): set<NodeId>
  {
    match n
    case For(_, _, c, iters, _) =>
      (set k | 0 <= k < |iters| :: iters[k].id) + (if c.Some? then {c.value.id} else {})
    case While(_, c, _) => {c.id}
    case Do(_, _, c) => {c.id}
    case _ => {}
  }

  /** Whether `leave(parent, original, n)` reads the head of the stack. */
  predicate LeaveUsesStack(noFlatten: set<NodeId>, original: Node, n: Node) {
    original.id !in noFlatten && (IsStmt(n) || Hoisted(n))
  }

  class FlattenVisitor {
    /** The statement lists of the enclosing blocks, innermost first. */
    var stack: seq<seq<Node>>
    /** Expressions whose own `leave` must not hoist them. */
    var noFlatten: set<NodeId>
    /** Expressions that are never flattened (loop conditions and updates). */
    var neverFlatten: set<NodeId>
    /** The number of temporaries named so far. */
    var count: nat

    constructor ()
      ensures stack == [] && noFlatten == {} && neverFlatten == {} && count == 0
    {
      stack := [];
      noFlatten := {};
      neverFlatten := {};
      count := 0;
    }

    /** Appends `n` to the innermost statement list. */
    method AppendToTop(n: Node)
      requires stack != []
      modifies this`stack
      ensures stack == [old(stack)[0] + [n]] + old(stack)[1..]
    {
      stack := [stack[0] + [n]] + stack[1..];
    }

    /** `newID()`: the name of a new temporary; successive names differ (`TempNamesDistinct`). */
    method NewId() returns (name: string)
      modifies this`count
      ensures name == TempName(old(count)) && count == old(count) + 1
    {
      name := TempName(count);
      count := count + 1;
    }

    /**
     * `override(parent, n)` as written: an `if` or loop is visited with block
     * bodies; a field declaration or constructor call is recorded in the
     * innermost list when there is one and kept as it is; a switch, an array
     * initializer or a node in `neverFlatten` is kept as it is; anything
     * else is visited normally. A switch is kept but not recorded, so a
     * switch directly inside a block is lost when that block is left
     * (`SwitchDroppedAsWritten`).
     */
    method OverrideAsWritten(parent: Option<Node>, n: Node) returns (r: OverrideResult)
      modifies this`stack
      ensures (n.If? || n.Do? || n.While? || n.For?) ==>
        r == VisitWithoutOverride(WithBlockBodies(n)) && stack == old(stack)
      ensures (n.FieldDecl? || n.ConstructorCall?) ==>
        && r == Replace(n)
        && stack == if old(stack) == [] then [] else [old(stack)[0] + [n]] + old(stack)[1..]
      ensures !(n.If? || n.Do? || n.While? || n.For? || n.FieldDecl? || n.ConstructorCall?) ==>
        && stack == old(stack)
        && r == if n.Switch? || n.id in neverFlatten || n.ArrayInit? then Replace(n) else NoOverride
    {
      if n.If? || n.Do? || n.While? || n.For? {
        return VisitWithoutOverride(WithBlockBodies(n));
      }
      if n.FieldDecl? || n.ConstructorCall? {
        if stack != [] {
          AppendToTop(n);
        }
        return Replace(n);
      }
      if n.Switch? {
        return Replace(n);
      }
      if n.id in neverFlatten {
        return Replace(n);
      }
      if n.ArrayInit? {
        return Replace(n);
      }
      return NoOverride;
    }

    /**
     * `override(parent, n)` with the switch kept in its block: as written,
     * except that a switch, which is not visited and so never reaches
     * `leave`, is recorded in the innermost list like a field declaration.
     */
    method Override(parent: Option<Node>, n: Node) returns (r: OverrideResult)
      modifies this`stack
      ensures (n.If? || n.Do? || n.While? || n.For?) ==>
        r == VisitWithoutOverride(WithBlockBodies(n)) && stack == old(stack)
      ensures (n.FieldDecl? || n.ConstructorCall? || n.Switch?) ==>
        && r == Replace(n)
        && stack == if old(stack) == [] then [] else [old(stack)[0] + [n]] + old(stack)[1..]
      ensures !(n.If? || n.Do? || n.While? || n.For? || n.FieldDecl? || n.ConstructorCall? || n.Switch?) ==>
        && stack == old(stack)
        && r == if n.id in neverFlatten || n.ArrayInit? then Replace(n) else NoOverride
    {
      r := OverrideAsWritten(parent, n);
      if n.Switch? && stack != [] {
        AppendToTop(n);
      }
    }

    /**
     * `enter(parent, n)`: a block pushes a new empty list; the expressions
     * a statement or expression owns directly go into `noFlatten`, loop
     * conditions and updates into `neverFlatten`.
     */
    method Enter(parent: Option<Node>, n: Node)
      modifies this`stack, this`noFlatten, this`neverFlatten
      ensures stack == if n.Block? then [[]] + old(stack) else old(stack)
      ensures noFlatten == old(noFlatten) + NoFlattenAdded(n)
      ensures neverFlatten == old(neverFlatten) + NeverFlattenAdded(n)
    {
      if n.Block? {
        stack := [[]] + stack;
      }
      match n {
        case Eval(_, e) =>
          noFlatten := noFlatten + {e.id};
        case LocalDecl(_, _, _, init) =>
          if init.Some? {
            noFlatten := noFlatten + {init.value.id};
          }
        case For(_, inits, c, iters, _) =>
          noFlatten := noFlatten + (set k | 0 <= k < |inits| :: inits[k].id);
          neverFlatten := neverFlatten + (set k | 0 <= k < |iters| :: iters[k].id);
          if c.Some? {
            neverFlatten := neverFlatten + {c.value.id};
          }
        case While(_, c, _) =>
          neverFlatten := neverFlatten + {c.id};
        case Do(_, _, c) =>
          neverFlatten := neverFlatten + {c.id};
        case Assign(_, l, r) =>
          noFlatten := noFlatten + {l.id, r.id};
        case Unary(_, e) =>
          noFlatten := noFlatten + {e.id};
        case _ =>
      }
    }

    /**
     * `leave(parent, original, n)`:
     * - a node in `noFlatten` leaves the set and is returned as it is;
     * - a block pops its list, takes it as its statements and, inside a
     *   block, is appended to the enclosing list;
     * - any other statement is appended to the innermost list;
     * - an expression other than a literal, `this`/`super`, a local or an
     *   assignment is declared as a new `final` temporary, appended to the
     *   innermost list, and replaced by a use of that temporary;
     * - anything else is returned as it is.
     */
    method Leave(parent: Option<Node>, original: Node, n: Node) returns (r: Node)
      requires LeaveUsesStack(noFlatten, original, n) ==> stack != []
      modifies this`stack, this`noFlatten, this`count
      ensures neverFlatten == old(neverFlatten)
      ensures original.id in old(noFlatten) ==>
        && r == n && noFlatten == old(noFlatten) - {original.id}
        && stack == old(stack) && count == old(count)
      ensures original.id !in old(noFlatten) ==> noFlatten == old(noFlatten)
      ensures original.id !in old(noFlatten) && n.Block? ==>
        && r == n.(stmts := old(stack)[0])
        && count == old(count)
        && stack == if parent.Some? && parent.value.Block? && |old(stack)| > 1
                    then [old(stack)[1] + [r]] + old(stack)[2..]
                    else old(stack)[1..]
      ensures original.id !in old(noFlatten) && IsStmt(n) && !n.Block? ==>
        && r == n && count == old(count)
        && stack == [old(stack)[0] + [n]] + old(stack)[1..]
      ensures original.id !in old(noFlatten) && Hoisted(n) ==>
        var k := old(count);
        && r == Local(TempUse(k), TempName(k))
        && count == k + 1
        && stack == [old(stack)[0] + [LocalDecl(TempDecl(k), true, TempName(k), Some(n))]] + old(stack)[1..]
      ensures !LeaveUsesStack(old(noFlatten), original, n) && original.id !in old(noFlatten) ==>
        r == n && stack == old(stack) && count == old(count)
    {
      if original.id in noFlatten {
        noFlatten := noFlatten - {original.id};
        return n;
      }
      if n.Block? {
        var l := stack[0];
        stack := stack[1..];
        var block := n.(stmts := l);
        if parent.Some? && parent.value.Block? && stack != [] {
          AppendToTop(block);
        }
        return block;
      } else if IsStmt(n) {
        AppendToTop(n);
        return n;
      } else if Hoisted(n) {
        var name := NewId();
        var def := LocalDecl(TempDecl(count - 1), true, name, Some(n));
        AppendToTop(def);
        return Local(TempUse(count - 1), name);
      }
      return n;
    }
  }

  /**
   * A block whose statements are plain (not blocks, not flattened
   * themselves) comes out of `enter`, one `leave` per statement and its own
   * `leave` holding exactly those statements in order, and the stack is as
   * deep as before: the list pushed on entry is the one popped, and inside
   * an enclosing block the result is appended to that block's list.
   */
  method EnterLeaveBlock(v: FlattenVisitor, parent: Option<Node>, b: Node, stmts: seq<Node>) returns (r: Node)
    requires b.Block? && b.id !in v.noFlatten
    requires forall k :: 0 <= k < |stmts| ==> IsStmt(stmts[k]) && !stmts[k].Block? && stmts[k].id !in v.noFlatten
    modifies v
    ensures r == b.(stmts := stmts)
    ensures v.stack == if parent.Some? && parent.value.Block? && old(v.stack) != []
                       then [old(v.stack)[0] + [r]] + old(v.stack)[1..]
                       else old(v.stack)
    ensures |v.stack| == |old(v.stack)|
  {
    v.Enter(parent, b);
    var i := 0;
    while i < |stmts|
      invariant 0 <= i <= |stmts|
      invariant v.stack == [stmts[..i]] + old(v.stack)
      invariant v.noFlatten == old(v.noFlatten)
    {
      var s := v.Leave(Some(b), stmts[i], stmts[i]);
      assert stmts[..i + 1] == stmts[..i] + [stmts[i]];
      i := i + 1;
    }
    assert stmts[..i] == stmts;
    r := v.Leave(parent, b, b);
  }

  /**
   * As written, a switch directly inside a block is lost: `override` keeps
   * it unvisited without recording it, so the block left afterwards holds
   * none of it.
   */
  method SwitchDroppedAsWritten(v: FlattenVisitor, b: Node, sw: Node) returns (o: OverrideResult, r: Node)
    requires b.Block? && b.id !in v.noFlatten && sw.Switch?
    modifies v
    ensures o == Replace(sw)
    ensures r.Block? && r.stmts == []
  {
    v.Enter(None, b);
    o := v.OverrideAsWritten(Some(b), sw);
    r := v.Leave(None, b, b);
  }

  /** With the switch recorded, the block left afterwards holds the switch. */
  method SwitchKeptInBlock(v: FlattenVisitor, b: Node, sw: Node) returns (o: OverrideResult, r: Node)
    requires b.Block? && b.id !in v.noFlatten && sw.Switch?
    modifies v
    ensures o == Replace(sw)
    ensures r.Block? && r.stmts == [sw]
  {
    v.Enter(None, b);
    o := v.Override(Some(b), sw);
    r := v.Leave(None, b, b);
  }
}
