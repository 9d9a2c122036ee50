/** What one send brings to the steps below conditions: to a labelled step, and to a step where branches meet again. */
module BranchSends {
  import opened Wrappers
  import opened Graph
  import opened Sequences
  import opened WorkflowSteps
  import opened WorkflowBuild
  import opened Supersteps
  import opened Routing
  import opened SwitchEdges
  import S = Sends
  import M = Messages

  /** What the builder promises of its groups. */
  ghost predicate WellBuilt(steps: seq<Step>, refused: set<Id>, output: Id, groups: seq<EdgeGroup>) {
    && WellFormed(steps) && EdgesExact(steps, refused, groups)
    && (forall c :: c in steps && c.nodeType.Condition? && Listed(steps, |steps|, c.id) ==>
          HasSwitch(steps, refused, output, c.id, groups))
    && (forall e :: e in groups && e.Switch? ==> Listed(steps, |steps|, e.source))
  }

  /** Builds a workflow of which that is true. */
  method BuildBranching(steps: seq<Step>, refused: set<Id>) returns (r: Result<Workflow, BuildError>)
    ensures r.Ok? <==> steps != [] && !Cyclic(DepsOf(steps)) && forall s :: s in steps ==> s.id != Blank
    ensures r.Ok? && WellFormed(steps) ==>
      r.value.outputs != [] && WellBuilt(steps, refused, r.value.outputs[0], r.value.groups)
  {
    hide EdgesExact, Topological, Cyclic, HasSwitch, Listed;
    ghost var order;
    r, order := BuildWorkflow(steps, refused);
  }

  lemma BuiltParts(steps: seq<Step>, refused: set<Id>, output: Id, groups: seq<EdgeGroup>)
    requires WellBuilt(steps, refused, output, groups)
    ensures WellFormed(steps) && EdgesExact(steps, refused, groups)
    ensures forall e :: e in groups && e.Switch? ==> Listed(steps, |steps|, e.source)
  {
  }

  /** No switch belongs to a step that is no condition. */
  lemma NoSwitchOf(steps: seq<Step>, refused: set<Id>, groups: seq<EdgeGroup>, x: Step, k: nat)
    requires WellFormed(steps) && EdgesExact(steps, refused, groups) && x in steps && !x.nodeType.Condition? && k < |groups|
    ensures !(groups[k].Switch? && groups[k].source == x.id)
  {
    FindStepUnique(steps, x);
    assert groups[k] in groups && GroupFaithful(steps, refused, groups[k]);
    hide FindStep;
  }

  /** A step that is no condition sends one message along each of its edges. */
  lemma PlainHits(steps: seq<Step>, refused: set<Id>, output: Id, groups: seq<EdgeGroup>, x: Step, m: M.Msg, t: Step)
    requires WellBuilt(steps, refused, output, groups) && x in steps && !x.nodeType.Condition? && t in steps
    ensures Hits(groups, x.id, m, t.id) == if x.id in t.dependsOn then 1 else 0
  {
    BuiltParts(steps, refused, output, groups);
    FindStepUnique(steps, x);
    ListedIff(steps, x.id, t);
    hide WellBuilt, FindStep, ListedEdge, EdgeCount, Hits, GroupFaithful, WellFormed;
    forall k | 0 <= k < |groups| ensures !(groups[k].Switch? && groups[k].source == x.id) {
      NoSwitchOf(steps, refused, groups, x, k);
    }
    HitsCount(groups, x.id, m, t.id);
    assert EdgeCount(groups, x.id, t.id) == if ListedEdge(steps, |steps|, x.id, t.id) then 1 else 0;
  }

  /** No default of a condition leads to t without t's waiting for it. */
  ghost predicate NoStray(steps: seq<Step>, refused: set<Id>, output: Id, t: Id) {
    t == output ==> forall c :: c in steps && c.nodeType.Condition? ==>
      !DefaultTaken(steps, refused, c) || FirstWaiting(steps, refused, c).Some?
  }

  lemma UnlistedHits(steps: seq<Step>, refused: set<Id>, output: Id, groups: seq<EdgeGroup>, c: Step, m: M.Msg, t: Step)
    requires WellBuilt(steps, refused, output, groups) && c in steps && c.nodeType.Condition? && t in steps
    requires !Listed(steps, |steps|, c.id)
    ensures Hits(groups, c.id, m, t.id) == 0
  {
    FindStepUnique(steps, c);
    forall k | 0 <= k < |groups| ensures !(groups[k].Switch? && groups[k].source == c.id) {
      assert groups[k] in groups;
    }
    HitsCount(groups, c.id, m, t.id);
    UnlistedNoJoin(steps, refused, c, t.id);
  }

  lemma UnlistedNoJoin(steps: seq<Step>, refused: set<Id>, c: Step, t: Id)
    requires !Listed(steps, |steps|, c.id)
    ensures !JoinEdge(steps, refused, |steps|, c.id, t)
  {
    hide IsJoin;
  }

  /** A condition sends nothing to a step that does not wait for it. */
  lemma StrangerHits(steps: seq<Step>, refused: set<Id>, output: Id, groups: seq<EdgeGroup>, c: Step, m: M.Msg, chosen: string,
                     t: Step)
    requires WellBuilt(steps, refused, output, groups) && c in steps && c.nodeType.Condition? && t in steps
    requires Supersteps.Chosen(m, c.id) == Some(chosen) && Choosable(c, chosen)
    requires c.id !in t.dependsOn && NoStray(steps, refused, output, t.id)
    ensures Hits(groups, c.id, m, t.id) == 0
  {
    hide EdgesExact, HasSwitch, WellFormed, Hits, HasCase, ListedEdge, Supersteps.Chosen;
    if !Listed(steps, |steps|, c.id) {
      UnlistedHits(steps, refused, output, groups, c, m, t);
    } else {
      HitsAreDeliveries(groups, c.id, m, chosen, t.id);
      ListedIff(steps, c.id, t);
      if Deliveries(groups, c.id, chosen, t.id) > 0 {
        StrayDelivery(steps, refused, output, c, groups, chosen, t.id);
      }
    }
  }

  /** A labelled step that waits for the condition alone gets nothing when another label is chosen. */
  lemma UnchosenHits(steps: seq<Step>, refused: set<Id>, output: Id, groups: seq<EdgeGroup>, c: Step, m: M.Msg, chosen: string,
                     t: Step)
    requires WellBuilt(steps, refused, output, groups) && c in steps && c.nodeType.Condition? && t in steps
    requires Supersteps.Chosen(m, c.id) == Some(chosen) && Choosable(c, chosen)
    requires OnBranch(c, t) && |t.dependsOn| <= 1 && t.inputBranch != chosen && NoStray(steps, refused, output, t.id)
    ensures Hits(groups, c.id, m, t.id) == 0
  {
    hide *;
    BuiltParts(steps, refused, output, groups);
    OnBranchLists(c, t);
    IsListed(steps, c, t);
    NoJoin(steps, refused, t);
    JoinEdgeIff(steps, refused, c, t);
    HitsAreDeliveries(groups, c.id, m, chosen, t.id);
    BuiltForOne(steps, refused, output, groups, c);
    var e := DeliveriesAre(steps, refused, output, c, groups, chosen, t.id);
    RoutesElsewhere(steps, refused, output, c, e, chosen, t);
  }

  lemma OnBranchLists(c: Step, t: Step)
    requires OnBranch(c, t)
    ensures c.id in t.dependsOn
  {
  }

  lemma BuiltForOne(steps: seq<Step>, refused: set<Id>, output: Id, groups: seq<EdgeGroup>, c: Step)
    requires WellBuilt(steps, refused, output, groups) && c in steps && c.nodeType.Condition?
    requires Listed(steps, |steps|, c.id)
    ensures BuiltFor(steps, refused, output, c, groups)
  {
  }

  lemma RoutesElsewhere(steps: seq<Step>, refused: set<Id>, output: Id, c: Step, e: EdgeGroup, chosen: string, t: Step)
    requires WellFormed(steps) && c in steps && c.nodeType.Condition? && t in steps
    requires SwitchFor(steps, refused, output, c.id, e) && e.Switch?
    requires OnBranch(c, t) && !IsJoin(steps, refused, t) && t.inputBranch != chosen
    requires Choosable(c, chosen) && NoStray(steps, refused, output, t.id)
    ensures Route(e.cases, e.otherwise, Some(chosen)) != t.id
  {
    assert UniqueIds(steps);
    hide IsJoin, OnBranch, Route, SwitchFor, WellFormed, DefaultOf, NoStray, Choosable, UniqueIds;
    SwitchRoutes(steps, refused, output, c, e, chosen);
    if HasCase(steps, refused, c, chosen) {
      var s :| s in steps && Cased(steps, refused, c, s) && s.inputBranch == chosen &&
               s.id == Route(e.cases, e.otherwise, Some(chosen));
      if s.id == t.id { SameStep(steps, s, t); }
    } else {
      LeadsElsewhere(steps, refused, output, c, chosen, t);
    }
  }

  lemma IsListed(steps: seq<Step>, c: Step, t: Step)
    requires t in steps && c.id in t.dependsOn
    ensures Listed(steps, |steps|, c.id)
  {
    var k :| 0 <= k < |steps| && steps[k] == t;
  }

  lemma LeadsElsewhere(steps: seq<Step>, refused: set<Id>, output: Id, c: Step, chosen: string, t: Step)
    requires WellFormed(steps) && c in steps && c.nodeType.Condition?
    requires t in steps && OnBranch(c, t) && !IsJoin(steps, refused, t)
    requires Choosable(c, chosen) && !HasCase(steps, refused, c, chosen) && NoStray(steps, refused, output, t.id)
    ensures DefaultOf(steps, refused, c, output) != t.id
  {
    hide IsJoin, OnBranch;
    var first := FirstWaiting(steps, refused, c);
    if first.Some? && first.value.id == t.id {
      SameStep(steps, first.value, t);
    }
  }

  /** No fan-in group leads to a step below a branch. */
  lemma NotGathered(steps: seq<Step>, refused: set<Id>, groups: seq<EdgeGroup>, t: Step)
    requires WellFormed(steps) && EdgesExact(steps, refused, groups) && t in steps && !IsJoin(steps, refused, t)
    ensures forall k :: 0 <= k < |groups| ==> groups[k].FanIn? ==> groups[k].target != t.id
  {
    hide IsJoin, EdgeCount;
    forall k | 0 <= k < |groups| && groups[k].FanIn? ensures groups[k].target != t.id {
      assert groups[k] in groups && GroupFaithful(steps, refused, groups[k]);
      var x := GroupGathers(steps, refused, groups[k]);
      if x.id == t.id { SameStep(steps, x, t); }
    }
  }

  /** Where branches meet again nothing is gathered: the step gets one message whenever one of the steps it waits for
      sends, so that it is not left waiting for a branch that is not taken. */
  lemma MergeGetsOne(steps: seq<Step>, refused: set<Id>, output: Id, groups: seq<EdgeGroup>, a: Step, j: Step, run: Run, ref: Ref)
    requires WellBuilt(steps, refused, output, groups) && a in steps && !a.nodeType.Condition?
    requires j in steps && BelowBranch(steps, j) && a.id in j.dependsOn && j.id in run.stations
    ensures j.id in Send(run, groups, a.id, ref).stations
    ensures Send(run, groups, a.id, ref).stations[j.id].next == run.stations[j.id].next + [One(ref)]
  {
    hide *;
    BuiltParts(steps, refused, output, groups);
    MergeNotJoin(steps, refused, j);
    NotGathered(steps, refused, groups, j);
    SendRouted(run, groups, a.id, ref, j.id);
    PlainHits(steps, refused, output, groups, a, Read(run.heap, ref), j);
    S.RepeatNone(run.stations[j.id].next, One(ref));
  }

  lemma MergeNotJoin(steps: seq<Step>, refused: set<Id>, j: Step)
    requires WellFormed(steps) && j in steps && BelowBranch(steps, j)
    ensures !IsJoin(steps, refused, j)
  {
    hide IsJoin, BelowBranch, WellFormed;
    JoinIff(steps, refused, j);
  }
}
