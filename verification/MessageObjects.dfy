/** Messages are objects: which one a step works on, and whose outputs it then finds there. */
module MessageObjects {
  import opened Graph
  import opened Ranks

  // ----- Objects

  ghost predicate SoleDep(g: Deps, v: Id, d: Id) {
    Dep(g, v, d) && forall e :: Dep(g, v, e) ==> e == d
  }

  /** v waits for one step only, and works on that step's message. */
  ghost predicate Sole(g: Deps, v: Id) {
    exists d :: SoleDep(g, v, d)
  }

  /** The step with which v's message came to be: the start, or a join, which merges into a new one. */
  ghost function Root(g: Deps, rank: map<Id, nat>, v: Id): (r: Id)
    requires Ranked(g, rank) && v in g
    ensures r in g && !Sole(g, r) && rank[r] <= rank[v] && (r != v ==> rank[r] < rank[v] && Sole(g, v))
    decreases rank[v]
  {
    if Sole(g, v) then
      var d :| SoleDep(g, v, d);
      Root(g, rank, d)
    else v
  }

  lemma RootOfSole(g: Deps, rank: map<Id, nat>, v: Id, d: Id)
    requires Ranked(g, rank) && SoleDep(g, v, d)
    ensures v in g && d in g && Root(g, rank, v) == Root(g, rank, d)
  {
  }

  /** w ends before r merges its messages; or, if may, it can. */
  predicate Before(rank: map<Id, nat>, may: bool, w: Id, r: Id)
    requires w in rank && r in rank
  {
    rank[w] < rank[r] || (may && rank[w] == rank[r])
  }

  /** What the join r merges holds w's output: whatever the schedule, or, if may, in some schedule. */
  ghost predicate Carried(g: Deps, rank: map<Id, nat>, may: bool, r: Id, w: Id)
    requires Ranked(g, rank) && r in g && w in g
    decreases rank[r]
  {
    exists d :: Dep(g, r, d) && (Carried(g, rank, may, Root(g, rank, d), w) ||
                                 (Root(g, rank, w) == Root(g, rank, d) && Before(rank, may, w, r)))
  }

  /** v finds w's output when it begins: whatever the schedule, or, if may, in some schedule. */
  ghost predicate Sees(g: Deps, rank: map<Id, nat>, may: bool, v: Id, w: Id)
    requires Ranked(g, rank) && v in g && w in g
  {
    w != v && (Carried(g, rank, may, Root(g, rank, v), w) ||
               (Root(g, rank, w) == Root(g, rank, v) && Before(rank, may, w, v)))
  }

  /** Whether v finds w's output depends on the schedule. */
  ghost predicate Varies(g: Deps, rank: map<Id, nat>, v: Id, w: Id)
    requires Ranked(g, rank) && v in g && w in g
  {
    Sees(g, rank, true, v, w) && !Sees(g, rank, false, v, w)
  }

  lemma {:induction false} CarriedBefore(g: Deps, rank: map<Id, nat>, may: bool, r: Id, w: Id)
    requires Ranked(g, rank) && r in g && w in g && Carried(g, rank, may, r, w)
    ensures Before(rank, may, w, r)
    decreases rank[r]
  {
    var d :| Dep(g, r, d) && (Carried(g, rank, may, Root(g, rank, d), w) ||
                              (Root(g, rank, w) == Root(g, rank, d) && Before(rank, may, w, r)));
    if Carried(g, rank, may, Root(g, rank, d), w) {
      CarriedBefore(g, rank, may, Root(g, rank, d), w);
    }
  }

  lemma SeenBefore(g: Deps, rank: map<Id, nat>, may: bool, v: Id, w: Id)
    requires Ranked(g, rank) && v in g && w in g && Sees(g, rank, may, v, w)
    ensures Before(rank, may, w, v)
  {
    if Carried(g, rank, may, Root(g, rank, v), w) {
      CarriedBefore(g, rank, may, Root(g, rank, v), w);
    }
  }

  /** A join never finds its own output in what it merges. */
  lemma NotOwn(g: Deps, rank: map<Id, nat>, may: bool, w: Id)
    requires Ranked(g, rank) && w in g && !Sole(g, w)
    ensures !Carried(g, rank, may, w, w)
  {
    if Carried(g, rank, may, w, w) {
      var d :| Dep(g, w, d) && (Carried(g, rank, may, Root(g, rank, d), w) ||
                                (Root(g, rank, w) == Root(g, rank, d) && Before(rank, may, w, w)));
      if Carried(g, rank, may, Root(g, rank, d), w) {
        CarriedBefore(g, rank, may, Root(g, rank, d), w);
      }
    }
  }

  /** A step finds the outputs of all it waits for, directly or not, whatever the schedule. */
  lemma {:induction false} AncestorCarried(g: Deps, rank: map<Id, nat>, v: Id, w: Id)
    requires Ranked(g, rank) && v in g && w in g && (w == v || Ancestor(g, w, v))
    ensures Root(g, rank, w) == Root(g, rank, v) || Carried(g, rank, false, Root(g, rank, v), w)
    ensures rank[w] <= rank[v] && (w != v ==> rank[w] < rank[v])
    decreases rank[v]
  {
    if w != v {
      var d := AncestorSplit(g, v, w);
      AncestorCarried(g, rank, d, w);
      if SoleDep(g, v, d) {
        RootOfSole(g, rank, v, d);
      } else {
        assert !Sole(g, v);
        assert Root(g, rank, v) == v;
        assert Carried(g, rank, false, v, w);
      }
    }
  }

  lemma AncestorSeen(g: Deps, rank: map<Id, nat>, v: Id, w: Id)
    requires Ranked(g, rank) && v in g && w in g && Ancestor(g, w, v) && w != v
    ensures Sees(g, rank, false, v, w)
  {
    AncestorCarried(g, rank, v, w);
  }

  /** Two steps that wait for one and the same step, and for nothing else, find each other's output or not as it comes. */
  lemma SiblingsVary(g: Deps, rank: map<Id, nat>, d: Id, a: Id, b: Id)
    requires Ranked(g, rank) && SoleDep(g, a, d) && SoleDep(g, b, d) && a != b
    ensures Varies(g, rank, b, a)
  {
    RootOfSole(g, rank, a, d);
    RootOfSole(g, rank, b, d);
    assert rank[a] == rank[d] + 1 && rank[b] == rank[d] + 1 by {
      assert exists x :: Dep(g, a, x) && rank[x] + 1 == rank[a];
      assert exists x :: Dep(g, b, x) && rank[x] + 1 == rank[b];
    }
    if Carried(g, rank, false, Root(g, rank, b), a) {
      CarriedBefore(g, rank, false, Root(g, rank, b), a);
    }
  }

  lemma NoDescendant(g: Deps, d: Id, a: Id, b: Id, v: Id)
    requires SoleDep(g, a, d) && SoleDep(g, v, a) && a != b && Ancestor(g, b, v)
    ensures b == d || Ancestor(g, b, d)
  {
    var x := AncestorSplit(g, v, b);
    var y := AncestorSplit(g, a, b);
  }

  /** Whoever waits for one of two such steps alone always finds the other's output, although it does not wait for it. */
  lemma UncleSeen(g: Deps, rank: map<Id, nat>, d: Id, a: Id, b: Id, v: Id)
    requires Ranked(g, rank) && SoleDep(g, a, d) && SoleDep(g, b, d) && SoleDep(g, v, a) && a != b
    ensures Sees(g, rank, false, v, b) && !Varies(g, rank, v, b) && !Ancestor(g, b, v)
  {
    RootOfSole(g, rank, a, d);
    RootOfSole(g, rank, b, d);
    RootOfSole(g, rank, v, a);
    assert rank[a] == rank[d] + 1 && rank[b] == rank[d] + 1 by {
      assert exists x :: Dep(g, a, x) && rank[x] + 1 == rank[a];
      assert exists x :: Dep(g, b, x) && rank[x] + 1 == rank[b];
    }
    hide Ancestor;
    if Ancestor(g, b, v) {
      NoDescendant(g, d, a, b, v);
      AncestorCarried(g, rank, d, b);
    }
  }
}
