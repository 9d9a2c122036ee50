/** Workflows without conditions: what the builder makes of them delivers along the dependencies. */
module PlainWorkflows {
  import opened Graph
  import opened Sequences
  import opened WorkflowSteps
  import opened WorkflowBuild
  import opened Supersteps
  import opened Sends
  import opened RunOrder

  /** No conditions or branch labels, nothing waits for an end step, and every step waits for the start. */
  ghost predicate Plain(steps: seq<Step>) {
    && steps != [] && WellFormed(steps)
    && (forall s :: s in steps ==> s.id != Blank && !s.nodeType.Condition? && s.inputBranch == "")
    && (forall s, e :: s in steps && e in steps && e.nodeType.End? ==> e.id !in s.dependsOn)
    && (forall s :: s in steps && s != StartOf(steps) ==> Ancestor(DepsOf(steps), StartOf(steps).id, s.id))
  }

  function PlanOf(steps: seq<Step>, wf: Workflow): Plan {
    Plan(set s | s in steps :: s.id, wf.start, wf.groups, set s | s in steps && s.nodeType.End? :: s.id)
  }

  // ----- Steps and their dependencies

  lemma StepOf(steps: seq<Step>, id: Id) returns (s: Step)
    requires WellFormed(steps) && (forall s :: s in steps ==> s.id != Blank) && id in DepsOf(steps)
    ensures s in steps && s.id == id && StepDeps(steps, s)
  {
    var i :| 0 <= i < |steps| && steps[i].id == id;
    s := steps[i];
    StepDepsHold(steps, i);
  }

  /** The known dependencies of s are its dependencies in the graph. */
  ghost predicate StepDeps(steps: seq<Step>, s: Step) {
    var g := DepsOf(steps);
    && s.id in g
    && (forall d :: d in KnownDeps(steps, s.dependsOn) <==> Dep(g, s.id, d))
    && Distinct(KnownDeps(steps, s.dependsOn))
  }

  lemma StepDepsHold(steps: seq<Step>, i: nat)
    requires WellFormed(steps) && i < |steps| && forall s :: s in steps ==> s.id != Blank
    ensures StepDeps(steps, steps[i])
  {
    var s := steps[i];
    assert s in steps;
    ListsOfStep(steps, i);
    forall d | HasStep(steps, d) ensures d in DepsOf(steps) {
      var k :| 0 <= k < |steps| && steps[k].id == d;
      assert steps[k] in steps;
    }
  }

  lemma PlainJoin(steps: seq<Step>, s: Step)
    requires Plain(steps) && s in steps
    ensures IsJoin(steps, {}, s) <==> |KnownDeps(steps, s.dependsOn)| > 1
  {
  }

  // ----- The plan

  ghost predicate Built(steps: seq<Step>, groups: seq<EdgeGroup>) {
    Plain(steps) && EdgesExact(steps, {}, groups)
  }

  lemma CountIsDep(steps: seq<Step>, groups: seq<EdgeGroup>, s: Step, d: Id)
    requires Built(steps, groups) && s in steps
    ensures StepDeps(steps, s)
    ensures EdgeCount(groups, d, s.id) == if Dep(DepsOf(steps), s.id, d) then 1 else 0
  {
    var i :| 0 <= i < |steps| && steps[i] == s;
    StepDepsHold(steps, i);
    if HasStep(steps, d) {
      assert FindStep(steps, d) in steps;
      if ListedEdge(steps, |steps|, d, s.id) {
        var k :| 0 <= k < |steps| && steps[k].id == s.id && d in steps[k].dependsOn;
        SameStep(steps, s, steps[k]);
      }
    }
  }

  lemma NoSwitch(steps: seq<Step>, groups: seq<EdgeGroup>, k: nat)
    requires Built(steps, groups) && k < |groups|
    ensures !groups[k].Switch?
  {
    assert groups[k] in groups && GroupFaithful(steps, {}, groups[k]);
  }

  lemma FanInStep(steps: seq<Step>, groups: seq<EdgeGroup>, k: nat) returns (s: Step)
    requires Built(steps, groups) && k < |groups| && groups[k].FanIn?
    ensures s in steps && s.id == groups[k].target && IsJoin(steps, {}, s)
    ensures groups[k].sources == KnownDeps(steps, s.dependsOn)
  {
    assert groups[k] in groups && GroupFaithful(steps, {}, groups[k]);
    s :| s in steps && s.id == groups[k].target && IsJoin(steps, {}, s) && groups[k].sources == KnownDeps(steps, s.dependsOn);
  }

  /** The step that a fan-in group leads to is reached by no other group. */
  lemma FanInAlone(steps: seq<Step>, groups: seq<EdgeGroup>, k: nat)
    requires Built(steps, groups) && k < |groups| && groups[k].FanIn?
    ensures GathersAll(DepsOf(steps), groups, k)
  {
    var s := FanInStep(steps, groups, k);
    CountIsDep(steps, groups, s, s.id);
    OnlyFanIn(steps, groups, s, k);
    hide Built, IsJoin, EdgeCount, KnownDeps, DepsOf, Dep, OnlyGroup;
  }

  lemma OnlyFanIn(steps: seq<Step>, groups: seq<EdgeGroup>, s: Step, k: nat)
    requires Built(steps, groups) && s in steps && k < |groups| && groups[k].FanIn? && groups[k].target == s.id
    requires IsJoin(steps, {}, s)
    ensures OnlyGroup(groups, k, s.id)
  {
    var d := KnownDeps(steps, s.dependsOn)[0];
    assert d in KnownDeps(steps, s.dependsOn);
    hide Built, IsJoin, EdgeCount, KnownDeps;
    forall j | 0 <= j < |groups| && j != k ensures !Reaches(groups[j], s.id) {
      if groups[j].FanIn? && groups[j].target == s.id {
        FanInOnce(steps, groups, s, j, k, d);
      } else {
        PlainMisses(steps, groups, s, j);
      }
    }
  }

  lemma FanInOnce(steps: seq<Step>, groups: seq<EdgeGroup>, s: Step, j: nat, k: nat, d: Id)
    requires Built(steps, groups) && s in steps && j < |groups| && k < |groups| && groups[j].FanIn? && groups[k].FanIn?
    requires groups[j].target == groups[k].target == s.id && d in KnownDeps(steps, s.dependsOn)
    ensures j == k
  {
    FanInSources(steps, groups, s, j);
    FanInSources(steps, groups, s, k);
    CountIsDep(steps, groups, s, d);
    DistinctOnce(KnownDeps(steps, s.dependsOn), d);
    if j < k {
      EdgeCountPair(groups, j, k, d, s.id);
    } else if k < j {
      EdgeCountPair(groups, k, j, d, s.id);
    }
  }

  lemma FanInSources(steps: seq<Step>, groups: seq<EdgeGroup>, s: Step, k: nat)
    requires Built(steps, groups) && s in steps && k < |groups| && groups[k].FanIn? && groups[k].target == s.id
    ensures IsJoin(steps, {}, s) && groups[k].sources == KnownDeps(steps, s.dependsOn)
  {
    assert groups[k] in groups && GroupFaithful(steps, {}, groups[k]);
    var e :| e in steps && e.id == s.id && IsJoin(steps, {}, e) && groups[k].sources == KnownDeps(steps, e.dependsOn);
    SameStep(steps, s, e);
  }

  /** A step that joins its dependencies is reached by no plain edge. */
  lemma PlainMisses(steps: seq<Step>, groups: seq<EdgeGroup>, s: Step, j: nat)
    requires Built(steps, groups) && s in steps && IsJoin(steps, {}, s)
    requires j < |groups| && (groups[j].FanIn? ==> groups[j].target != s.id)
    ensures !Reaches(groups[j], s.id)
  {
    NoSwitch(steps, groups, j);
    assert groups[j] in groups && GroupFaithful(steps, {}, groups[j]);
    forall e | e in steps && e.id == s.id ensures e == s {
      SameStep(steps, s, e);
    }
  }

  lemma JoinReached(steps: seq<Step>, groups: seq<EdgeGroup>, s: Step)
    requires Built(steps, groups) && s in steps && IsJoin(steps, {}, s)
    ensures ReachedByGroup(DepsOf(steps), groups, s.id)
  {
    var d := KnownDeps(steps, s.dependsOn)[0];
    CountIsDep(steps, groups, s, d);
    assert Dep(DepsOf(steps), s.id, d);
    hide Built, IsJoin, KnownDeps, DepsOf, Dep;
    var k := EdgeCountSome(groups, d, s.id);
    if !(groups[k].FanIn? && groups[k].target == s.id) {
      PlainMisses(steps, groups, s, k);
      MissedCount(groups[k], d, s.id);
    } else {
      FanInAlone(steps, groups, k);
    }
  }

  lemma DepKnown(steps: seq<Step>, groups: seq<EdgeGroup>, s: Step, d: Id)
    requires Built(steps, groups) && s in steps && Dep(DepsOf(steps), s.id, d)
    ensures d in KnownDeps(steps, s.dependsOn)
  {
    CountIsDep(steps, groups, s, d);
  }

  lemma OneElement<T>(s: seq<T>, x: T, y: T)
    requires |s| <= 1 && x in s && y in s
    ensures x == y
  {
  }

  lemma AtMostOneDep(steps: seq<Step>, groups: seq<EdgeGroup>, s: Step, d: Id, x: Id)
    requires Built(steps, groups) && s in steps && !IsJoin(steps, {}, s)
    requires Dep(DepsOf(steps), s.id, d) && Dep(DepsOf(steps), s.id, x)
    ensures d == x
  {
    assert Plain(steps);
    hide *;
    PlainJoin(steps, s);
    DepKnown(steps, groups, s, d);
    DepKnown(steps, groups, s, x);
    OneElement(KnownDeps(steps, s.dependsOn), d, x);
  }

  lemma NoFanInTo(steps: seq<Step>, groups: seq<EdgeGroup>, s: Step, k: nat)
    requires Built(steps, groups) && s in steps && !IsJoin(steps, {}, s) && k < |groups|
    ensures !groups[k].Switch? && (groups[k].FanIn? ==> groups[k].target != s.id)
  {
    hide Built, IsJoin;
    NoSwitch(steps, groups, k);
    if groups[k].FanIn? && groups[k].target == s.id {
      FanInSources(steps, groups, s, k);
    }
  }

  lemma NonJoinReached(steps: seq<Step>, groups: seq<EdgeGroup>, s: Step)
    requires Built(steps, groups) && s in steps && !IsJoin(steps, {}, s)
    ensures ReachedPlainly(DepsOf(steps), groups, s.id)
  {
    hide Built, IsJoin, DepsOf, Dep, EdgeCount, StepDeps;
    var g := DepsOf(steps);
    forall d ensures EdgeCount(groups, d, s.id) == if Dep(g, s.id, d) then 1 else 0 {
      CountIsDep(steps, groups, s, d);
    }
    forall d, x | Dep(g, s.id, d) && Dep(g, s.id, x) ensures d == x {
      AtMostOneDep(steps, groups, s, d, x);
    }
    forall k | 0 <= k < |groups| ensures !groups[k].Switch? && (groups[k].FanIn? ==> groups[k].target != s.id) {
      NoFanInTo(steps, groups, s, k);
    }
  }

  lemma StepReached(steps: seq<Step>, groups: seq<EdgeGroup>, s: Step)
    requires Built(steps, groups) && s in steps
    ensures Reached(DepsOf(steps), groups, s.id)
  {
    if IsJoin(steps, {}, s) {
      JoinReached(steps, groups, s);
    } else {
      NonJoinReached(steps, groups, s);
    }
  }

  lemma MissedCount(e: EdgeGroup, d: Id, t: Id)
    requires !Reaches(e, t)
    ensures GroupCount(e, d, t) == 0
  {
  }

  /** Only the start waits for nothing. */
  lemma OnlyRoot(steps: seq<Step>, v: Id)
    requires Plain(steps) && !Cyclic(DepsOf(steps)) && v in DepsOf(steps)
    ensures StartOf(steps).id in DepsOf(steps)
    ensures v == StartOf(steps).id <==> forall d :: !Dep(DepsOf(steps), v, d)
  {
    var g := DepsOf(steps);
    var start := StartOf(steps);
    assert HasStep(steps, start.id) by {
      var i :| 0 <= i < |steps| && steps[i] == start;
    }
    var s := StepOf(steps, v);
    if s == start {
      if exists d :: Dep(g, v, d) {
        var d :| Dep(g, v, d);
        DirectAncestor(g, v, d);
        var e := StepOf(steps, d);
        if e != start {
          AncestorStep(g, v, d, v);
        }
      }
    } else {
      if v == start.id { SameStep(steps, s, start); }
      var d := AncestorSplit(g, v, start.id);
    }
  }

  /** The builder's groups deliver along the dependencies of a plain workflow. */
  lemma PlanDelivers(steps: seq<Step>, wf: Workflow)
    requires Plain(steps) && !Cyclic(DepsOf(steps)) && EdgesExact(steps, {}, wf.groups) && wf.start == StartOf(steps).id
    ensures Delivers(DepsOf(steps), PlanOf(steps, wf))
  {
    var g, plan := DepsOf(steps), PlanOf(steps, wf);
    forall v | v in g
      ensures v in plan.ids && (v == plan.start <==> forall d :: !Dep(g, v, d)) && plan.start in g && Reached(g, plan.groups, v)
    {
      var s := StepOf(steps, v);
      OnlyRoot(steps, v);
      StepReached(steps, wf.groups, s);
    }
    forall s | s in steps ensures s.id in g {
      var i :| 0 <= i < |steps| && steps[i] == s;
      StepDepsHold(steps, i);
    }
    forall v, d | Dep(g, v, d) ensures d !in plan.ends {
      var s := StepOf(steps, v);
      assert d in s.dependsOn;
    }
    forall k | 0 <= k < |plan.groups| ensures GathersAll(g, plan.groups, k) {
      if plan.groups[k].FanIn? {
        FanInAlone(steps, plan.groups, k);
      }
    }
    assert steps[0] in steps && steps[0].id in g;
  }
}
