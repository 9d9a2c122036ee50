/** The dependency graphs of a workflow: which step waits for which. */
module Graph {
  import opened Sequences
  // A non-empty text; only its identity matters.
  type Name(==, !new)

  // Blank is the empty or missing id.
  datatype Id = Blank | Named(name: Name)

  /** Every known step with the ids it lists as dependencies; a listed id need not be a step. */
  type Deps = map<Id, set<Id>>

  /** Step a waits for step b. Ids that are not steps are ignored. */
  predicate Dep(g: Deps, a: Id, b: Id) {
    a in g && b in g && b in g[a]
  }

  /** p walks from a step to one it waits for, and so on. */
  ghost predicate Path(g: Deps, p: seq<Id>) {
    && |p| > 0
    && (forall i :: 0 <= i < |p| ==> p[i] in g)
    && (forall i, j :: 0 <= i && j == i + 1 && j < |p| ==> Dep(g, p[i], p[j]))
  }

  ghost predicate PathFromTo(g: Deps, p: seq<Id>, a: Id, b: Id) {
    Path(g, p) && p[0] == a && p[|p| - 1] == b
  }

  /** Every known dependency of an entry stands before that entry. */
  ghost predicate DepsFirst(g: Deps, order: seq<Id>) {
    forall i, d :: 0 <= i < |order| && Dep(g, order[i], d) ==> d in order[..i]
  }

  /** order lists each step once, after everything it waits for. */
  ghost predicate Topological(g: Deps, order: seq<Id>) {
    && Distinct(order)
    && (forall x :: x in order <==> x in g)
    && DepsFirst(g, order)
  }

  /** a waits, directly or through others, for b. */
  ghost predicate Ancestor(g: Deps, b: Id, a: Id) {
    exists p :: PathFromTo(g, p, a, b) && |p| >= 2
  }

  /** Some step waits for itself, directly or through others. */
  ghost predicate Cyclic(g: Deps) {
    exists x :: Ancestor(g, x, x)
  }

  lemma PathJoin(g: Deps, p: seq<Id>, q: seq<Id>)
    requires Path(g, p) && Path(g, q) && Dep(g, p[|p| - 1], q[0])
    ensures Path(g, p + q)
  {
    var r := p + q;
    forall i, j | 0 <= i && j == i + 1 && j < |r| ensures Dep(g, r[i], r[j]) {
      if j < |p| {
        assert r[i] == p[i] && r[j] == p[j];
      } else if i >= |p| {
        assert r[i] == q[i - |p|] && r[j] == q[j - |p|];
      }
    }
  }

  lemma PathSuffix(g: Deps, p: seq<Id>, k: nat)
    requires Path(g, p) && k < |p|
    ensures Path(g, p[k..])
  {
    var r := p[k..];
    forall i, j | 0 <= i && j == i + 1 && j < |r| ensures Dep(g, r[i], r[j]) {
      assert r[i] == p[k + i] && r[j] == p[k + j];
    }
  }

  function IndexOf(s: seq<Id>, x: Id): (k: nat)
    requires x in s
    ensures k < |s| && s[k] == x && x !in s[..k]
  {
    if s[0] == x then 0 else
      assert s == [s[0]] + s[1..];
      1 + IndexOf(s[1..], x)
  }

  /** Along a path the position in a topological order strictly falls. */
  lemma {:induction false} PathDescends(g: Deps, order: seq<Id>, p: seq<Id>)
    requires Topological(g, order) && Path(g, p)
    ensures IndexOf(order, p[|p| - 1]) + |p| - 1 <= IndexOf(order, p[0])
    decreases |p|
  {
    if |p| > 1 {
      PathSuffix(g, p, 1);
      PathDescends(g, order, p[1..]);
      var i := IndexOf(order, p[0]);
      assert Dep(g, p[0], p[1]);
      assert p[1] in order[..i];
      var k :| 0 <= k < i && order[..i][k] == p[1];
      assert order[k] == p[1];
      assert IndexOf(order, p[1]) == k;
    }
  }

  /** A graph that has a topological order has no cycle. */
  lemma TopologicalIsAcyclic(g: Deps, order: seq<Id>)
    requires Topological(g, order)
    ensures !Cyclic(g)
  {
    if Cyclic(g) {
      var x :| Ancestor(g, x, x);
      var p :| PathFromTo(g, p, x, x) && |p| >= 2;
      PathDescends(g, order, p);
    }
  }

  lemma DirectAncestor(g: Deps, a: Id, d: Id)
    requires Dep(g, a, d)
    ensures Ancestor(g, d, a)
  {
    var p := [a, d];
    assert Path(g, p) && PathFromTo(g, p, a, d) && |p| >= 2;
  }

  lemma AncestorStep(g: Deps, a: Id, d: Id, b: Id)
    requires Dep(g, a, d) && Ancestor(g, b, d)
    ensures Ancestor(g, b, a)
  {
    var p :| PathFromTo(g, p, d, b) && |p| >= 2;
    assert Path(g, [a]);
    PathJoin(g, [a], p);
    assert PathFromTo(g, [a] + p, a, b);
  }

  /** Every ancestor is a dependency or an ancestor of one. */
  lemma AncestorSplit(g: Deps, a: Id, b: Id) returns (d: Id)
    requires Ancestor(g, b, a)
    ensures Dep(g, a, d) && (b == d || Ancestor(g, b, d))
  {
    var p :| PathFromTo(g, p, a, b) && |p| >= 2;
    d := p[1];
    assert Dep(g, p[0], p[1]);
    if |p| > 2 {
      PathSuffix(g, p, 1);
      assert PathFromTo(g, p[1..], d, b);
    }
  }
}
