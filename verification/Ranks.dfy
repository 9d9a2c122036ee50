/** The length of the longest dependency chain below each step. */
module Ranks {
  import opened Graph

  /** rank is the length of the longest chain of dependencies below a step. */
  ghost predicate Ranked(g: Deps, rank: map<Id, nat>) {
    && rank.Keys == g.Keys
    && (forall v, d :: Dep(g, v, d) ==> rank[d] < rank[v])
    && (forall v :: v in g && rank[v] > 0 ==> exists d :: Dep(g, v, d) && rank[d] + 1 == rank[v])
  }

  /** One more than the greatest rank among those of ds that have one. */
  ghost function Above(ds: set<Id>, rank: map<Id, nat>): (h: nat)
    ensures forall d :: d in ds && d in rank ==> rank[d] < h
    ensures h > 0 ==> exists d :: d in ds && d in rank && rank[d] + 1 == h
  {
    if ds == {} then 0 else
      var d :| d in ds;
      var rest := Above(ds - {d}, rank);
      if d in rank && rank[d] + 1 > rest then rank[d] + 1 else rest
  }

  /** v waits for nothing ranked, or for a step just below it. */
  ghost predicate Supported(g: Deps, rank: map<Id, nat>, v: Id)
    requires v in rank
  {
    rank[v] > 0 ==> exists d :: d in rank && Dep(g, v, d) && rank[d] + 1 == rank[v]
  }

  /** rank is right for the steps of done, a set that contains what its members wait for. */
  ghost predicate RankedWithin(g: Deps, done: set<Id>, rank: map<Id, nat>) {
    && rank.Keys == done
    && (forall v, d :: v in done && Dep(g, v, d) ==> d in done && rank[d] < rank[v])
    && (forall v :: v in done ==> Supported(g, rank, v))
  }

  function Elements(s: seq<Id>): set<Id> {
    set x | x in s
  }

  lemma SupportedMore(g: Deps, r: map<Id, nat>, v: Id, h: nat, x: Id)
    requires x in r && v !in r && Supported(g, r, x)
    ensures Supported(g, r[v := h], x)
  {
    if r[x] > 0 {
      var d :| d in r && Dep(g, x, d) && r[d] + 1 == r[x];
      assert d in r[v := h] && r[v := h][d] + 1 == r[v := h][x];
    }
  }

  lemma SupportedNew(g: Deps, r: map<Id, nat>, v: Id, h: nat)
    requires v in g && v !in r && r.Keys <= g.Keys && h == Above(g[v], r)
    ensures Supported(g, r[v := h], v)
  {
    if h > 0 {
      var d :| d in g[v] && d in r && r[d] + 1 == h;
      assert d in r[v := h] && Dep(g, v, d);
    }
  }

  lemma RankOneMore(g: Deps, done: set<Id>, r: map<Id, nat>, v: Id) returns (rank: map<Id, nat>)
    requires RankedWithin(g, done, r) && v in g && v !in done && done <= g.Keys
    requires forall d :: Dep(g, v, d) ==> d in done
    ensures RankedWithin(g, done + {v}, rank)
  {
    var h := Above(g[v], r);
    rank := r[v := h];
    SupportedNew(g, r, v, h);
    forall x | x in done ensures Supported(g, rank, x) {
      SupportedMore(g, r, v, h, x);
    }
    hide Supported;
  }

  lemma {:induction false} RankFirst(g: Deps, order: seq<Id>, n: nat) returns (rank: map<Id, nat>)
    requires Topological(g, order) && n <= |order|
    ensures RankedWithin(g, Elements(order[..n]), rank)
  {
    if n == 0 {
      rank := map[];
    } else {
      var r := RankFirst(g, order, n - 1);
      var done, v := Elements(order[..n - 1]), order[n - 1];
      assert Elements(order[..n]) == done + {v} by { assert order[..n] == order[..n - 1] + [v]; }
      assert v !in order[..n - 1];
      rank := RankOneMore(g, done, r, v);
    }
  }

  /** An acyclic graph can be ranked. */
  lemma RanksExist(g: Deps, order: seq<Id>) returns (rank: map<Id, nat>)
    requires Topological(g, order)
    ensures Ranked(g, rank)
  {
    rank := RankFirst(g, order, |order|);
    assert order[..|order|] == order;
    assert Elements(order) == g.Keys;
    forall v | v in g && rank[v] > 0 ensures exists d :: Dep(g, v, d) && rank[d] + 1 == rank[v] {
      assert Supported(g, rank, v);
      var d :| d in rank && Dep(g, v, d) && rank[d] + 1 == rank[v];
    }
  }

  /** A path from v has at most rank + 1 steps. */
  lemma {:induction false} PathWithinRank(g: Deps, rank: map<Id, nat>, p: seq<Id>)
    requires Ranked(g, rank) && Path(g, p)
    ensures |p| <= rank[p[0]] + 1
    decreases |p|
  {
    if |p| > 1 {
      PathSuffix(g, p, 1);
      PathWithinRank(g, rank, p[1..]);
      assert Dep(g, p[0], p[1]);
    }
  }

  /** And one path has just that many. */
  lemma {:induction false} PathOfRank(g: Deps, rank: map<Id, nat>, v: Id) returns (p: seq<Id>)
    requires Ranked(g, rank) && v in g
    ensures Path(g, p) && p[0] == v && |p| == rank[v] + 1
    decreases rank[v]
  {
    if rank[v] == 0 {
      p := [v];
    } else {
      var d :| Dep(g, v, d) && rank[d] + 1 == rank[v];
      var rest := PathOfRank(g, rank, d);
      assert Path(g, [v]);
      PathJoin(g, [v], rest);
      p := [v] + rest;
    }
  }
}
