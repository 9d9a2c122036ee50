/** Workflows stored without ids or dependencies: what is filled in, and which steps are the last ones. */
module Defaulting {
  import opened Graph
  import opened Sequences
  import opened WorkflowSteps
  import opened WorkflowBuild
  import opened Supersteps
  import opened PlainWorkflows
  import T = RunTheorems
  import M = Messages

  // A step as it is stored: its id may be missing.
  datatype Draft = Draft(hasId: bool, step: Step)

  // ----- Filling in

  /** Draft number i once it has an id. */
  function Identified(drafts: seq<Draft>, i: nat, nodeId: nat -> Id): Id
    requires i < |drafts|
  {
    if drafts[i].hasId then drafts[i].step.id else nodeId(i)
  }

  /** Draft number i filled in: without dependencies it waits for the one before. */
  function FilledStep(drafts: seq<Draft>, i: nat, nodeId: nat -> Id): Step
    requires i < |drafts|
  {
    drafts[i].step.(id := Identified(drafts, i, nodeId),
                    dependsOn := if i > 0 && drafts[i].step.dependsOn == [] then [Identified(drafts, i - 1, nodeId)]
                                 else drafts[i].step.dependsOn)
  }

  function Filled(drafts: seq<Draft>, nodeId: nat -> Id): (steps: seq<Step>)
    ensures |steps| == |drafts| && forall i :: 0 <= i < |drafts| ==> steps[i] == FilledStep(drafts, i, nodeId)
  {
    FilledUpTo(drafts, |drafts|, nodeId)
  }

  function FilledUpTo(drafts: seq<Draft>, n: nat, nodeId: nat -> Id): (steps: seq<Step>)
    requires n <= |drafts|
    ensures |steps| == n && forall i :: 0 <= i < n ==> steps[i] == FilledStep(drafts, i, nodeId)
  {
    if n == 0 then [] else FilledUpTo(drafts, n - 1, nodeId) + [FilledStep(drafts, n - 1, nodeId)]
  }

  /** In place, from first to last. nodeId is the made-up id of the step at a place. A missing id is made up, a step
      other than the first that lists nothing waits for the one just before it, and all else stays. */
  method FillIn(a: array<Draft>, nodeId: nat -> Id)
    modifies a
    ensures forall i :: 0 <= i < a.Length ==>
      a[i].hasId && a[i].step.id == if old(a[..])[i].hasId then old(a[..])[i].step.id else nodeId(i)
    ensures forall i :: 0 < i < a.Length && old(a[..])[i].step.dependsOn == [] ==> a[i].step.dependsOn == [a[i - 1].step.id]
    ensures forall i :: 0 <= i < a.Length && (i == 0 || old(a[..])[i].step.dependsOn != []) ==>
      a[i].step.dependsOn == old(a[..])[i].step.dependsOn
    ensures forall i :: 0 <= i < a.Length ==> var was, now := old(a[..])[i].step, a[i].step;
      now.nodeType == was.nodeType && now.inputBranch == was.inputBranch && now.branches == was.branches
    ensures forall i :: 0 <= i < a.Length ==> a[i] == Draft(true, Filled(old(a[..]), nodeId)[i])
  {
    ghost var was := a[..];
    var i := 0;
    while i < a.Length
      invariant 0 <= i <= a.Length
      invariant forall k :: 0 <= k < i ==> a[k] == Draft(true, FilledStep(was, k, nodeId))
      invariant forall k :: i <= k < a.Length ==> a[k] == was[k]
    {
      if !a[i].hasId {
        a[i] := Draft(true, a[i].step.(id := nodeId(i)));
      }
      if i > 0 && a[i].step.dependsOn == [] {
        a[i] := a[i].(step := a[i].step.(dependsOn := [a[i - 1].step.id]));
      }
      i := i + 1;
    }
  }

  // ----- What filling in gives

  /** The dependencies that are written down point to earlier steps. */
  ghost predicate PointBack(drafts: seq<Draft>, nodeId: nat -> Id) {
    forall i, d :: 0 <= i < |drafts| && d in drafts[i].step.dependsOn ==> Earlier(drafts, i, nodeId, d)
  }

  ghost predicate Earlier(drafts: seq<Draft>, i: nat, nodeId: nat -> Id, d: Id)
    requires i < |drafts|
  {
    exists j :: 0 <= j < i && Identified(drafts, j, nodeId) == d
  }

  ghost predicate Usable(steps: seq<Step>) {
    UniqueIds(steps) && forall i :: 0 <= i < |steps| ==> steps[i].id != Blank
  }

  /** Every dependency of a filled-in step stands before it. */
  lemma DependsBack(drafts: seq<Draft>, nodeId: nat -> Id, i: nat, d: Id) returns (j: nat)
    requires i < |drafts| && PointBack(drafts, nodeId) && d in FilledStep(drafts, i, nodeId).dependsOn
    ensures j < i && Filled(drafts, nodeId)[j].id == d
  {
    if d in drafts[i].step.dependsOn {
      assert Earlier(drafts, i, nodeId, d);
      j :| 0 <= j < i && Identified(drafts, j, nodeId) == d;
    } else {
      j := i - 1;
    }
  }

  lemma FilledDeps(steps: seq<Step>, i: nat)
    requires Usable(steps) && i < |steps|
    ensures steps[i].id in DepsOf(steps)
    ensures forall d :: d in steps[i].dependsOn <==> d in DepsOf(steps)[steps[i].id]
  {
    ListsOfStep(steps, i);
  }

  /** The filled-in steps, as they stand, are in a dependency order. */
  lemma FilledTopological(drafts: seq<Draft>, nodeId: nat -> Id)
    requires Usable(Filled(drafts, nodeId)) && PointBack(drafts, nodeId)
    ensures Topological(DepsOf(Filled(drafts, nodeId)), Ids(Filled(drafts, nodeId)))
  {
    var steps := Filled(drafts, nodeId);
    var g, order := DepsOf(steps), Ids(steps);
    forall i, d | 0 <= i < |order| && Dep(g, order[i], d) ensures d in order[..i] {
      FilledDeps(steps, i);
      var j := DependsBack(drafts, nodeId, i, d);
      assert order[..i][j] == d;
    }
    forall x ensures x in order <==> x in g {
      if x in g {
        var i :| 0 <= i < |steps| && steps[i].id == x;
        assert order[i] == x;
      }
      if x in order {
        var i :| 0 <= i < |order| && order[i] == x;
        FilledDeps(steps, i);
      }
    }
  }

  /** Step number i waits, directly or through others, for the first. */
  lemma {:induction false} FilledReaches(drafts: seq<Draft>, nodeId: nat -> Id, i: nat)
    requires Usable(Filled(drafts, nodeId)) && PointBack(drafts, nodeId) && 0 < i < |drafts|
    ensures Ancestor(DepsOf(Filled(drafts, nodeId)), Filled(drafts, nodeId)[0].id, Filled(drafts, nodeId)[i].id)
    decreases i
  {
    var steps := Filled(drafts, nodeId);
    var g := DepsOf(steps);
    assert steps[i] == FilledStep(drafts, i, nodeId);
    var d := steps[i].dependsOn[0];
    var j := DependsBack(drafts, nodeId, i, d);
    FilledDeps(steps, i);
    FilledDeps(steps, j);
    if j == 0 {
      DirectAncestor(g, steps[i].id, d);
    } else {
      FilledReaches(drafts, nodeId, j);
      AncestorStep(g, steps[i].id, d, steps[0].id);
    }
  }

  /** With unique ids and dependencies that point back, the filled-in workflow is accepted, its first step is the only
      one that waits for nothing, and every other step waits for it in the end. */
  lemma FilledIsAccepted(drafts: seq<Draft>, nodeId: nat -> Id)
    requires drafts != [] && Usable(Filled(drafts, nodeId)) && PointBack(drafts, nodeId)
    ensures var steps, g := Filled(drafts, nodeId), DepsOf(Filled(drafts, nodeId));
      && !Cyclic(g)
      && (forall v :: v in g ==> (v == steps[0].id <==> forall d :: !Dep(g, v, d)))
      && (forall v :: v in g && v != steps[0].id ==> Ancestor(g, steps[0].id, v))
  {
    var steps := Filled(drafts, nodeId);
    var g := DepsOf(steps);
    FilledTopological(drafts, nodeId);
    TopologicalIsAcyclic(g, Ids(steps));
    forall v | v in g && v != steps[0].id ensures Ancestor(g, steps[0].id, v) {
      var i :| 0 <= i < |steps| && steps[i].id == v;
      FilledReaches(drafts, nodeId, i);
    }
    forall v | v in g ensures v == steps[0].id <==> forall d :: !Dep(g, v, d) {
      var i :| 0 <= i < |steps| && steps[i].id == v;
      if v == steps[0].id {
        assert i == 0;
        assert DepsFirst(g, Ids(steps)) && Ids(steps)[0] == v && Ids(steps)[..0] == [];
      } else {
        var d := AncestorSplit(g, v, steps[0].id);
      }
    }
  }

  /** A filled-in workflow of unlabelled steps without conditions, starting with its first step, and in which no end
      step is waited for and no dependency repeated, is one whose runs are in order and do not depend on the schedule. */
  lemma FilledIsPlain(drafts: seq<Draft>, nodeId: nat -> Id)
    requires drafts != [] && Usable(Filled(drafts, nodeId)) && PointBack(drafts, nodeId)
    requires StartOf(Filled(drafts, nodeId)) == Filled(drafts, nodeId)[0]
    requires forall s :: s in Filled(drafts, nodeId) ==> Distinct(s.dependsOn) && !s.nodeType.Condition? && s.inputBranch == ""
    requires forall s, e :: s in Filled(drafts, nodeId) && e in Filled(drafts, nodeId) && e.nodeType.End? ==> e.id !in s.dependsOn
    ensures Plain(Filled(drafts, nodeId))
  {
    var steps := Filled(drafts, nodeId);
    FilledIsAccepted(drafts, nodeId);
    forall s | s in steps && s != steps[0] ensures Ancestor(DepsOf(steps), steps[0].id, s.id) {
      var i :| 0 <= i < |steps| && steps[i] == s;
      FilledReaches(drafts, nodeId, i);
    }
  }

  // ----- A workflow written down as a mere list

  /** No step lists anything. */
  ghost predicate NothingListed(drafts: seq<Draft>) {
    forall i :: 0 <= i < |drafts| ==> drafts[i].step.dependsOn == []
  }

  /** Step number i waits for the one before, and for nothing else. */
  lemma ChainDeps(drafts: seq<Draft>, nodeId: nat -> Id, i: nat, d: Id)
    requires Usable(Filled(drafts, nodeId)) && NothingListed(drafts) && i < |drafts|
    ensures var steps := Filled(drafts, nodeId);
      Dep(DepsOf(steps), steps[i].id, d) <==> i > 0 && d == steps[i - 1].id
  {
    var steps := Filled(drafts, nodeId);
    FilledDeps(steps, i);
    if i > 0 {
      FilledDeps(steps, i - 1);
    }
  }

  /** Every step waits, directly or through others, for all that stand before it. */
  lemma {:induction false} ChainAncestors(drafts: seq<Draft>, nodeId: nat -> Id, j: nat, i: nat)
    requires Usable(Filled(drafts, nodeId)) && NothingListed(drafts) && j < i < |drafts|
    ensures Ancestor(DepsOf(Filled(drafts, nodeId)), Filled(drafts, nodeId)[j].id, Filled(drafts, nodeId)[i].id)
    decreases i
  {
    var steps := Filled(drafts, nodeId);
    hide *;
    FilledLength(drafts, nodeId);
    ChainDeps(drafts, nodeId, i, steps[i - 1].id);
    if j == i - 1 {
      DirectAncestor(DepsOf(steps), steps[i].id, steps[j].id);
    } else {
      ChainAncestors(drafts, nodeId, j, i - 1);
      AncestorStep(DepsOf(steps), steps[i].id, steps[i - 1].id, steps[j].id);
    }
  }

  lemma PathOfOne(g: Deps, v: Id)
    requires v in g
    ensures Path(g, [v])
  {
  }

  lemma {:induction false} ChainPath(drafts: seq<Draft>, nodeId: nat -> Id, i: nat) returns (p: seq<Id>)
    requires Usable(Filled(drafts, nodeId)) && NothingListed(drafts) && i < |drafts|
    ensures Path(DepsOf(Filled(drafts, nodeId)), p) && p[0] == Filled(drafts, nodeId)[i].id && |p| == i + 1
  {
    var steps := Filled(drafts, nodeId);
    hide *;
    FilledLength(drafts, nodeId);
    FilledDeps(steps, i);
    PathOfOne(DepsOf(steps), steps[i].id);
    p := [steps[i].id];
    if i > 0 {
      var rest := ChainPath(drafts, nodeId, i - 1);
      ChainDeps(drafts, nodeId, i, steps[i - 1].id);
      PathJoin(DepsOf(steps), p, rest);
      p := p + rest;
    }
  }

  lemma PlaceIs(steps: seq<Step>, i: nat)
    requires Usable(steps) && i < |steps|
    ensures steps[i].id in Ids(steps) && IndexOf(Ids(steps), steps[i].id) == i
  {
    assert Ids(steps)[i] == steps[i].id;
    var k := IndexOf(Ids(steps), steps[i].id);
    assert steps[k].id == steps[i].id;
  }

  /** The longest path from step number i has just the steps up to it. */
  lemma ChainLongest(drafts: seq<Draft>, nodeId: nat -> Id, i: nat)
    requires Usable(Filled(drafts, nodeId)) && NothingListed(drafts) && i < |drafts|
    ensures T.LongestFrom(DepsOf(Filled(drafts, nodeId)), Filled(drafts, nodeId)[i].id, i + 1)
  {
    var steps := Filled(drafts, nodeId);
    var g := DepsOf(steps);
    hide *;
    FilledLength(drafts, nodeId);
    NothingPointsBack(drafts, nodeId);
    FilledTopological(drafts, nodeId);
    PlaceIs(steps, i);
    var p := ChainPath(drafts, nodeId, i);
    forall q | Path(g, q) && |q| > 0 && q[0] == steps[i].id ensures |q| <= i + 1 {
      T.PathEnds(g, Ids(steps), q);
      PathDescends(g, Ids(steps), q);
    }
    MakeLongest(g, steps[i].id, i + 1, p);
  }

  lemma MakeLongest(g: Deps, v: Id, n: nat, p: seq<Id>)
    requires Path(g, p) && p[0] == v && |p| == n && forall q :: Path(g, q) && |q| > 0 && q[0] == v ==> |q| <= n
    ensures T.LongestFrom(g, v, n)
  {
  }

  lemma NothingPointsBack(drafts: seq<Draft>, nodeId: nat -> Id)
    requires NothingListed(drafts)
    ensures PointBack(drafts, nodeId)
  {
  }

  /** So the steps of such a workflow run one after the other, step number i in superstep i, and a run that can go no
      further has run them all, in as many supersteps as there are steps, if it was allowed as many. */
  lemma ChainRunsInOrder(drafts: seq<Draft>, nodeId: nat -> Id, wf: Workflow, order: seq<Id>, input: M.Msg, limit: nat,
                         acts: seq<Action>)
    requires Usable(Filled(drafts, nodeId)) && NothingListed(drafts) && drafts != [] && |drafts| <= limit
    requires T.Runnable(Filled(drafts, nodeId), wf, order)
    requires Schedule(PlanOf(Filled(drafts, nodeId), wf), input, limit, acts)
    ensures var steps, s := Filled(drafts, nodeId), Exec(PlanOf(Filled(drafts, nodeId), wf), input, acts);
      && (forall i :: 0 <= i < |steps| ==> steps[i].id in s.stations && |s.stations[steps[i].id].begun| <= 1)
      && (forall i :: 0 <= i < |steps| && s.stations[steps[i].id].begun != [] ==> s.stations[steps[i].id].begun == [i])
      && (Halted(s, limit) ==> T.AllEnded(DepsOf(steps), s) && s.superstep + 1 == |drafts|)
  {
    var steps := Filled(drafts, nodeId);
    var plan := PlanOf(steps, wf);
    var g, s := DepsOf(steps), Exec(plan, input, acts);
    hide *;
    T.StepsRunOnceInOrder(steps, wf, order, input, limit, acts);
    FilledLength(drafts, nodeId);
    forall i | 0 <= i < |steps|
      ensures steps[i].id in s.stations && |s.stations[steps[i].id].begun| <= 1
      ensures s.stations[steps[i].id].begun != [] ==> s.stations[steps[i].id].begun == [i]
    {
      FilledDeps(steps, i);
      ChainLongest(drafts, nodeId, i);
      BegunAt(g, s, steps[i].id, i);
    }
    if Halted(s, limit) {
      ChainFits(drafts, nodeId);
      T.LooserBound(g, |drafts|, limit);
      T.CompleteIffPathsFit(steps, wf, order, input, limit, acts);
      ChainSupersteps(drafts, nodeId, s.superstep);
    }
  }

  lemma FilledLength(drafts: seq<Draft>, nodeId: nat -> Id)
    ensures |Filled(drafts, nodeId)| == |drafts|
  {
  }

  lemma BegunAt(g: Deps, s: Run, v: Id, i: nat)
    requires T.RunOnceInOrder(g, s, v) && T.LongestFrom(g, v, i + 1)
    ensures v in s.stations && |s.stations[v].begun| <= 1
    ensures s.stations[v].begun != [] ==> s.stations[v].begun == [i]
  {
    hide Path;
  }

  lemma ChainFits(drafts: seq<Draft>, nodeId: nat -> Id)
    requires Usable(Filled(drafts, nodeId)) && NothingListed(drafts)
    ensures T.PathsWithin(DepsOf(Filled(drafts, nodeId)), |drafts|)
  {
    var steps := Filled(drafts, nodeId);
    assert forall v :: v in DepsOf(steps) ==> HasStep(steps, v);
    hide DepsOf, Filled;
    forall p | Path(DepsOf(steps), p) ensures |p| <= |drafts| {
      var i :| 0 <= i < |steps| && steps[i].id == p[0];
      ChainLongest(drafts, nodeId, i);
    }
  }

  lemma ChainSupersteps(drafts: seq<Draft>, nodeId: nat -> Id, n: nat)
    requires Usable(Filled(drafts, nodeId)) && NothingListed(drafts) && drafts != []
    requires T.PathsWithin(DepsOf(Filled(drafts, nodeId)), n + 1)
    requires exists p :: Path(DepsOf(Filled(drafts, nodeId)), p) && |p| == n + 1
    ensures n + 1 == |drafts|
  {
    ChainFits(drafts, nodeId);
    var p := ChainPath(drafts, nodeId, |drafts| - 1);
    hide Path, DepsOf, Filled;
  }

  // ----- The last steps

  /** Nothing waits for it. */
  predicate IsSink(steps: seq<Step>, id: Id) {
    forall s :: s in steps ==> id !in s.dependsOn
  }

  /** The ids of the steps that nothing waits for, in their order. */
  method Sinks(steps: seq<Step>) returns (ids: seq<Id>)
    ensures forall x :: x in ids <==> HasStep(steps, x) && IsSink(steps, x)
    ensures Usable(steps) && steps != [] && (exists order :: Topological(DepsOf(steps), order)) ==> ids != []
  {
    ids := [];
    var i := 0;
    while i < |steps|
      invariant 0 <= i <= |steps|
      invariant forall x :: x in ids <==> IsSink(steps, x) && exists k :: 0 <= k < i && steps[k].id == x
    {
      if IsSink(steps, steps[i].id) {
        ids := ids + [steps[i].id];
      }
      i := i + 1;
    }
    if Usable(steps) && steps != [] && exists order :: Topological(DepsOf(steps), order) {
      ghost var order :| Topological(DepsOf(steps), order);
      FilledDeps(steps, 0);
      ghost var sink := ReachesSink(steps, order, steps[0].id);
      assert HasStep(steps, sink);
    }
  }

  lemma Awaited(steps: seq<Step>, v: Id) returns (w: Id)
    requires Usable(steps) && v in DepsOf(steps) && !IsSink(steps, v)
    ensures Dep(DepsOf(steps), w, v)
  {
    var s :| s in steps && v in s.dependsOn;
    var i :| 0 <= i < |steps| && steps[i] == s;
    FilledDeps(steps, i);
    w := s.id;
  }

  /** From every step of an accepted workflow the waiting leads on to a step that nothing waits for. */
  lemma {:induction false} ReachesSink(steps: seq<Step>, order: seq<Id>, v: Id) returns (sink: Id)
    requires Usable(steps) && Topological(DepsOf(steps), order) && v in DepsOf(steps)
    ensures sink in DepsOf(steps) && IsSink(steps, sink)
    ensures sink == v || Ancestor(DepsOf(steps), v, sink)
    decreases |order| - IndexOf(order, v)
  {
    var g := DepsOf(steps);
    if IsSink(steps, v) {
      sink := v;
    } else {
      var w := Awaited(steps, v);
      DirectAncestor(g, w, v);
      assert Path(g, [w, v]);
      PathDescends(g, order, [w, v]);
      sink := ReachesSink(steps, order, w);
      if sink != w {
        AncestorThrough(g, v, w, sink);
      }
    }
  }

  lemma AncestorThrough(g: Deps, v: Id, w: Id, sink: Id)
    requires Dep(g, w, v) && Ancestor(g, w, sink)
    ensures Ancestor(g, v, sink)
  {
    var p :| PathFromTo(g, p, sink, w) && |p| >= 2;
    assert Path(g, [v]);
    PathJoin(g, p, [v]);
    assert PathFromTo(g, p + [v], sink, v);
  }
}
