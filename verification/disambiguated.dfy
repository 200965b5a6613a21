/**
 * polyglot.frontend.goals.Disambiguated: the reach test of the goal "this
 * source file is fully disambiguated". It reads and updates the goal's own
 * state and may record a concurrent dependency with the scheduler.
 */
module Goals {
  import opened Wrappers

  type JobId = nat
  type TypeId = nat

  /** The node kinds the reach test tells apart. */
  datatype Kind = LocalClassDecl | ClassDecl | New | ClassBody | OtherKind

  /** An AST node: its kind, its `isDisambiguated()` flag and its children in visiting order. */
  datatype Node = Node(kind: Kind, disambiguated: bool, children: seq<Node>)

  /** A class type declared in the file, with its `signaturesResolved()` flag. */
  datatype ParsedClassType = ParsedClassType(id: TypeId, signaturesResolved: bool)

  /** A job's AST: the tree, and `typesBelow()`, the class types it declares, in order. */
  datatype Ast = Ast(root: Node, typesBelow: seq<ParsedClassType>)

  /** A goal as the scheduler interns it: by kind and scope. */
  datatype GoalKey = Disambiguated(job: JobId) | SignaturesResolved(ct: TypeId)

  /** A compilation unit: its identity and its current AST (`None` once an earlier pass failed). */
  class Job {
    const id: JobId
    var ast: Option<Ast>

    constructor (id: JobId, ast: Option<Ast>)
      ensures this.id == id && this.ast == ast
    {
      this.id := id;
      this.ast := ast;
    }
  }

  /** The scheduler, as far as the reach test uses it: its set of concurrent-dependency edges. */
  class Scheduler {
    var concurrentDeps: set<(GoalKey, GoalKey)>

    constructor ()
      ensures concurrentDeps == {}
    {
      concurrentDeps := {};
    }

    /** `addConcurrentDependency(from, to)`: records the edge. */
    method AddConcurrentDependency(from: GoalKey, to: GoalKey)
      modifies this
      ensures concurrentDeps == old(concurrentDeps) + {(from, to)}
    {
      concurrentDeps := concurrentDeps + {(from, to)};
    }
  }

  /** The scan leaves out a class declared locally and the body of an anonymous class. */
  predicate Skipped(parent: Option<Kind>, n: Node) {
    || (parent == Some(LocalClassDecl) && n.kind == ClassDecl)
    || (parent == Some(New) && n.kind == ClassBody)
  }

  /**
   * The nodes the scan looks at below `parent`, in visiting order, when none
   * of them stops it: `n` and then, child by child, what is below it; a
   * skipped node contributes nothing.
   */
  function ScanOrder(parent: Option<Kind>, n: Node): seq<Node>
    decreases n
  {
    if Skipped(parent, n) then [] else [n] + ScanOrderList(n.kind, n.children)
  }

  /** `ScanOrder` of each of `cs` under a parent of kind `parent`, concatenated. */
  function ScanOrderList(parent: Kind, cs: seq<Node>): seq<Node>
    decreases cs
  {
    if cs == [] then []
    else ScanOrderList(parent, cs[..|cs| - 1]) + ScanOrder(Some(parent), cs[|cs| - 1])
  }

  predicate AllDisambiguated(s: seq<Node>) {
    forall k :: 0 <= k < |s| ==> s[k].disambiguated
  }

  /** What an early-stopping scan of `s` examines: up to and including the first node that is not disambiguated. */
  function ExaminedPrefix(s: seq<Node>): seq<Node>
  {
    if s == [] then []
    else if !s[0].disambiguated then [s[0]]
    else [s[0]] + ExaminedPrefix(s[1..])
  }

  /**
   * The examined part is a prefix of `s`; it is all of `s` when every node is
   * fine, and otherwise it ends at the first node that is not.
   */
  lemma {:induction false} ExaminedPrefixShape(s: seq<Node>)
    ensures var e := ExaminedPrefix(s);
      && e <= s
      && (AllDisambiguated(s) ==> e == s)
      && (!AllDisambiguated(s) ==> |e| > 0 && !e[|e| - 1].disambiguated && AllDisambiguated(e[..|e| - 1]))
  {
    if s != [] && s[0].disambiguated {
      ExaminedPrefixShape(s[1..]);
      var e := ExaminedPrefix(s[1..]);
      assert ExaminedPrefix(s) == [s[0]] + e;
      if !AllDisambiguated(s) {
        assert !AllDisambiguated(s[1..]) by {
          var k :| 0 <= k < |s| && !s[k].disambiguated;
          assert s[1..][k - 1] == s[k];
        }
        assert ([s[0]] + e)[..|e|] == [s[0]] + e[..|e| - 1];
      } else {
        assert AllDisambiguated(s[1..]) by {
          forall k | 0 <= k < |s| - 1 ensures s[1..][k].disambiguated {
            assert s[1..][k] == s[k + 1];
          }
        }
      }
    }
  }

  /** How an early-stopping scan of a concatenation splits. */
  lemma {:induction false} ExaminedPrefixAppend(a: seq<Node>, b: seq<Node>)
    ensures AllDisambiguated(a + b) <==> AllDisambiguated(a) && AllDisambiguated(b)
    ensures ExaminedPrefix(a + b) == if AllDisambiguated(a) then a + ExaminedPrefix(b) else ExaminedPrefix(a)
  {
    if a == [] {
      assert a + b == b;
    } else {
      assert (a + b)[0] == a[0];
      assert (a + b)[1..] == a[1..] + b;
      ExaminedPrefixAppend(a[1..], b);
      if a[0].disambiguated {
        assert AllDisambiguated(a) <==> AllDisambiguated(a[1..]) by {
          if AllDisambiguated(a[1..]) {
            forall k | 0 <= k < |a| ensures a[k].disambiguated {
              if k > 0 { assert a[k] == a[1..][k - 1]; }
            }
          }
        }
        assert AllDisambiguated(a + b) <==> AllDisambiguated(a[1..] + b) by {
          if AllDisambiguated(a[1..] + b) {
            forall k | 0 <= k < |a + b| ensures (a + b)[k].disambiguated {
              if k > 0 { assert (a + b)[k] == (a[1..] + b)[k - 1]; }
            }
          }
        }
        if AllDisambiguated(a) {
          assert [a[0]] + (a[1..] + ExaminedPrefix(b)) == a + ExaminedPrefix(b);
        }
      }
    }
  }

  /** The visiting order below the first `i + 1` children extends that below the first `i` by child `i`'s. */
  lemma ScanOrderListSnoc(k: Kind, cs: seq<Node>, i: nat)
    requires i < |cs|
    ensures ScanOrderList(k, cs[..i + 1]) == ScanOrderList(k, cs[..i]) + ScanOrder(Some(k), cs[i])
  {
    assert cs[..i + 1][..i] == cs[..i];
  }

  /**
   * One child of the scan: with the flag and the examined nodes right for
   * `done`, and the child's scan right for `next`, both are right for
   * `done + next`.
   */
  lemma ScanStep(done: seq<Node>, next: seq<Node>, ok: bool, childOk: bool, childExamined: seq<Node>)
    requires ok == AllDisambiguated(done)
    requires !ok ==> !childOk && childExamined == []
    requires ok ==> childOk == AllDisambiguated(next) && childExamined == ExaminedPrefix(next)
    ensures childOk == AllDisambiguated(done + next)
    ensures ExaminedPrefix(done) + childExamined == ExaminedPrefix(done + next)
  {
    ExaminedPrefixAppend(done, next);
    ExaminedPrefixShape(done);
  }

  /**
   * The override of the reach test's anonymous visitor, applied to `n` and
   * (when it asks for recursion) below it. `okIn` is the `allOk[0]` flag on
   * entry, `ok` the flag afterwards; `examined` lists the nodes whose flag
   * was read, in order. Once the flag is down nothing more is examined, a
   * skipped node is returned unexamined, and a node that is not
   * disambiguated lowers the flag and is not descended into.
   */
  method Scan(parent: Option<Kind>, n: Node, okIn: bool) returns (ok: bool, ghost examined: seq<Node>)
    ensures !okIn ==> !ok && examined == []
    ensures okIn ==> ok == AllDisambiguated(ScanOrder(parent, n))
    ensures okIn ==> examined == ExaminedPrefix(ScanOrder(parent, n))
    decreases n
  {
    if !okIn {
      return false, [];
    }
    if Skipped(parent, n) {
      return true, [];
    }
    if !n.disambiguated {
      assert ScanOrder(parent, n)[0] == n;
      return false, [n];
    }
    ghost var below;
    ok, below := ScanChildren(n.kind, n.children, true);
    examined := [n] + below;
    ExaminedPrefixAppend([n], ScanOrderList(n.kind, n.children));
  }

  /**
   * The scan below a node of kind `k`: its children `cs` in order, each with
   * the flag the previous one left.
   */
  method ScanChildren(k: Kind, cs: seq<Node>, okIn: bool) returns (ok: bool, ghost examined: seq<Node>)
    ensures !okIn ==> !ok && examined == []
    ensures okIn ==> ok == AllDisambiguated(ScanOrderList(k, cs))
    ensures okIn ==> examined == ExaminedPrefix(ScanOrderList(k, cs))
    decreases cs
  {
    if !okIn {
      return false, [];
    }
    ok, examined := true, [];
    var i := 0;
    while i < |cs|
      invariant 0 <= i <= |cs|
      invariant ok == AllDisambiguated(ScanOrderList(k, cs[..i]))
      invariant examined == ExaminedPrefix(ScanOrderList(k, cs[..i]))
    {
      ScanOrderListSnoc(k, cs, i);
      var childOk;
      ghost var childExamined;
      childOk, childExamined := Scan(Some(k), cs[i], ok);
      ScanStep(ScanOrderList(k, cs[..i]), ScanOrder(Some(k), cs[i]), ok, childOk, childExamined);
      examined := examined + childExamined;
      ok := childOk;
      i := i + 1;
    }
    assert cs[..i] == cs;
  }

  /** The index of the first type in `types` whose signatures are unresolved, or `|types|`. */
  function FirstUnresolved(types: seq<ParsedClassType>): (k: nat)
    ensures k <= |types|
    ensures forall j :: 0 <= j < k ==> types[j].signaturesResolved
    ensures k < |types| ==> !types[k].signaturesResolved
  {
    if types == [] then 0
    else if !types[0].signaturesResolved then 0
    else 1 + FirstUnresolved(types[1..])
  }

  /** The `Disambiguated` goal of one job. */
  class DisambiguatedGoal {
    const job: Job
    /** The cached base reach test (`super.hasBeenReached()`); `markRun` sets it. */
    var reached: bool
    /** Whether the goal's pass has run (`hasBeenRun()`). */
    var hasRun: bool

    constructor (job: Job)
      ensures this.job == job && !reached && !hasRun
    {
      this.job := job;
      reached := false;
      hasRun := false;
    }

    function Key(): GoalKey
    {
      Disambiguated(job.id)
    }

    /** `markRun()`: the goal now counts as reached. */
    method MarkRun()
      modifies this
      ensures reached && hasRun == old(hasRun)
    {
      reached := true;
    }

    /**
     * `hasBeenReached()`: true at once when cached; false when the pass has
     * not run or the AST is gone; when some declared type still has
     * unresolved signatures, one concurrent dependency on the first such
     * type's `SignaturesResolved` goal is recorded and the answer is false
     * without scanning; otherwise the tree is scanned, the goal is marked
     * reached iff every examined node is disambiguated, and that is the
     * answer. The AST itself is never replaced.
     */
    method HasBeenReached(sched: Scheduler) returns (r: bool)
      modifies this, sched
      ensures hasRun == old(hasRun)
      ensures old(reached) ==> r && reached && sched.concurrentDeps == old(sched.concurrentDeps)
      ensures !old(reached) && (!hasRun || job.ast.None?) ==>
        !r && !reached && sched.concurrentDeps == old(sched.concurrentDeps)
      ensures !old(reached) && hasRun && job.ast.Some? ==>
        var types := job.ast.value.typesBelow;
        var k := FirstUnresolved(types);
        if k < |types| then
          && !r && !reached
          && sched.concurrentDeps == old(sched.concurrentDeps) + {(Key(), SignaturesResolved(types[k].id))}
        else
          && r == AllDisambiguated(ScanOrder(None, job.ast.value.root))
          && reached == r
          && sched.concurrentDeps == old(sched.concurrentDeps)
    {
      if reached {
        return true;
      }
      if !hasRun {
        return false;
      }
      if job.ast.None? {
        return false;
      }
      var ast := job.ast.value;
      var i := 0;
      while i < |ast.typesBelow|
        invariant 0 <= i <= |ast.typesBelow|
        invariant forall j :: 0 <= j < i ==> ast.typesBelow[j].signaturesResolved
        invariant sched.concurrentDeps == old(sched.concurrentDeps) && !reached
      {
        var ct := ast.typesBelow[i];
        if !ct.signaturesResolved {
          sched.AddConcurrentDependency(Key(), SignaturesResolved(ct.id));
          return false;
        }
        i := i + 1;
      }
      var allOk, _ := Scan(None, ast.root, true);
      if allOk {
        MarkRun();
      }
      return reached;
    }
  }

  /**
   * Asking the reach test twice in a row, with no pass run in between,
   * gives the same answer and records no further dependency.
   */
  method ReachTestIsStable(g: DisambiguatedGoal, sched: Scheduler) returns (r1: bool, r2: bool)
    modifies g, sched
    ensures r1 == r2
    ensures sched.concurrentDeps == old(sched.concurrentDeps) || exists d :: sched.concurrentDeps == old(sched.concurrentDeps) + {d}
  {
    r1 := g.HasBeenReached(sched);
    ghost var after1 := sched.concurrentDeps;
    r2 := g.HasBeenReached(sched);
    assert sched.concurrentDeps == after1;
  }
}
