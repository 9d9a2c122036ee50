/** Which outputs a step may read for the results not to depend on the schedule. */
module SiblingReads {
  import opened Wrappers
  import opened Graph
  import opened Sequences
  import opened Ranks
  import opened WorkflowSteps
  import opened WorkflowBuild
  import opened Supersteps
  import opened PlainWorkflows
  import opened MessageObjects
  import opened Behaviours
  import opened Views
  import opened RunResults
  import opened TimedRuns
  import T = RunTheorems
  import R = Routing
  import M = Messages

  // ----- One step that looks for one output

  /** All steps answer p, but v fails unless it finds an output of w. */
  function Peeking(v: Id, w: Id, p: Payload): Behaviour {
    (x: Id, seen: map<Id, Payload>, user: Option<Payload>) => if x == v && w !in seen then None else Some(p)
  }

  lemma PeekingReads(g: Deps, wanted: Deps, v: Id, w: Id, p: Payload)
    requires v in wanted && w in wanted[v]
    ensures ReadsOnly(g, wanted, Peeking(v, w, p))
  {
  }

  lemma PeekedAnswers(c: Setting, s: Run, v: Id, w: Id, p: Payload)
    requires Ranked(c.g, c.rank) && Settled(c, s) && c.behave == Peeking(v, w, p) && w in c.g && w != v
    ensures Succeeded(s, w)
  {
    hide Ranked, Settled, Saw;
    var seen := ExplainedBy(c, s, w);
    assert EndedWith(s, w, Some(p));
  }

  /** Run before the others of its rank, w is found by v; run after them, it is not. */
  lemma PeekEnds(c: Setting, s: Run, v: Id, w: Id, p: Payload)
    requires Ranked(c.g, c.rank) && Settled(c, s) && c.behave == Peeking(v, w, p) && v in c.g && w in c.g
    requires Varies(c.g, c.rank, v, w) && (c.timing == Early(w) || c.timing == Late(w))
    ensures v in s.stations && s.stations[v].ended == [if c.timing == Early(w) then Some(p) else None]
  {
    hide Ranked, Settled, Saw, Carried, Root;
    PeekedAnswers(c, s, v, w, p);
    var seen := ExplainedBy(c, s, v);
    SawAt(c, s, v, seen, w);
  }

  lemma TimedPeek(steps: seq<Step>, wf: Workflow, order: seq<Id>, rank: map<Id, nat>, v: Id, w: Id, p: Payload,
                  timing: Timing) returns (acts: seq<Action>)
    requires T.Runnable(steps, wf, order) && Ranked(DepsOf(steps), rank) && v in DepsOf(steps) && w in DepsOf(steps)
    requires Varies(DepsOf(steps), rank, v, w) && (timing == Early(w) || timing == Late(w))
    ensures Completes(steps, wf, M.EmptyMsg, Peeking(v, w, p), |order|, acts)
    ensures var s := Exec(PlanOf(steps, wf), M.EmptyMsg, acts);
      v in s.stations && s.stations[v].ended == [if timing == Early(w) then Some(p) else None]
  {
    var c := SettingOf(steps, wf, rank, timing, Peeking(v, w, p), M.EmptyMsg);
    assert Fresh(M.EmptyMsg);
    hide T.Runnable, Ranked, Varies, Settled, Completes, DepsOf, PlanOf, Exec, KeptAlways, Fresh;
    acts := TimedRun(steps, wf, order, rank, timing, Peeking(v, w, p), M.EmptyMsg);
    CompleteSettles(steps, wf, order, rank, timing, M.EmptyMsg, Peeking(v, w, p), |order|, acts);
    PeekEnds(c, Exec(PlanOf(steps, wf), M.EmptyMsg, acts), v, w, p);
  }

  lemma NotConfluent(steps: seq<Step>, wf: Workflow, behave: Behaviour, limit: nat, acts: seq<Action>,
                     acts': seq<Action>, v: Id)
    requires Completes(steps, wf, M.EmptyMsg, behave, limit, acts) && Completes(steps, wf, M.EmptyMsg, behave, limit, acts')
    requires v in DepsOf(steps)
    requires !SameEnd(Exec(PlanOf(steps, wf), M.EmptyMsg, acts), Exec(PlanOf(steps, wf), M.EmptyMsg, acts'), v)
    ensures !Confluent(steps, wf, behave)
  {
    assert Fresh(M.EmptyMsg);
    hide Completes, SameEnd, DepsOf, PlanOf, Exec, Fresh;
    assert !SameResults(DepsOf(steps), Exec(PlanOf(steps, wf), M.EmptyMsg, acts), Exec(PlanOf(steps, wf), M.EmptyMsg, acts'));
  }

  /** A step that looks for an output it may find or not: whether it fails depends on the schedule. */
  lemma VaryingIsNotConfluent(steps: seq<Step>, wf: Workflow, order: seq<Id>, rank: map<Id, nat>, v: Id, w: Id, p: Payload)
    requires T.Runnable(steps, wf, order) && Ranked(DepsOf(steps), rank) && v in DepsOf(steps) && w in DepsOf(steps)
    requires Varies(DepsOf(steps), rank, v, w)
    ensures !Confluent(steps, wf, Peeking(v, w, p))
  {
    hide *;
    var first := TimedPeek(steps, wf, order, rank, v, w, p, Early(w));
    var last := TimedPeek(steps, wf, order, rank, v, w, p, Late(w));
    Unlike(Exec(PlanOf(steps, wf), M.EmptyMsg, first), Exec(PlanOf(steps, wf), M.EmptyMsg, last), v, p);
    NotConfluent(steps, wf, Peeking(v, w, p), |order|, first, last, v);
  }

  lemma Unlike(s: Run, s': Run, v: Id, p: Payload)
    requires v in s.stations && v in s'.stations && s.stations[v].ended == [Some(p)] && s'.stations[v].ended == [None]
    ensures !SameEnd(s, s', v)
  {
    assert [Some(p)][0] != None;
  }

  // ----- The exact condition

  /** All behaviours that read only the outputs listed are confluent exactly if every step finds each output listed for
      it in all schedules or in none. */
  lemma ConfluentIffSteady(steps: seq<Step>, wf: Workflow, order: seq<Id>, rank: map<Id, nat>, wanted: Deps, p: Payload)
    requires T.Runnable(steps, wf, order) && Ranked(DepsOf(steps), rank) && wanted.Keys == DepsOf(steps).Keys
    ensures (forall behave :: ReadsOnly(DepsOf(steps), wanted, behave) ==> Confluent(steps, wf, behave)) <==>
            Steady(DepsOf(steps), rank, wanted)
  {
    var g := DepsOf(steps);
    hide T.Runnable, Ranked, Varies, ReadsOnly, Confluent, DepsOf;
    if Steady(g, rank, wanted) {
      forall behave | ReadsOnly(g, wanted, behave) ensures Confluent(steps, wf, behave) {
        SteadyIsConfluent(steps, wf, order, rank, wanted, behave);
      }
    } else {
      var v, w :| v in g && w in g && v in wanted && w in wanted[v] && Varies(g, rank, v, w);
      PeekingReads(g, wanted, v, w, p);
      VaryingIsNotConfluent(steps, wf, order, rank, v, w, p);
    }
  }

  /** Every step reads nothing but v, which reads w. */
  function OnlyRead(g: Deps, v: Id, w: Id): (wanted: Deps)
    requires v in g
    ensures wanted.Keys == g.Keys && wanted[v] == {w}
  {
    map x | x in g :: if x == v then {w} else {}
  }

  /** And so one step may look for one output exactly if that does not vary. */
  lemma PeekingConfluentIff(steps: seq<Step>, wf: Workflow, order: seq<Id>, rank: map<Id, nat>, v: Id, w: Id, p: Payload)
    requires T.Runnable(steps, wf, order) && Ranked(DepsOf(steps), rank) && v in DepsOf(steps) && w in DepsOf(steps)
    ensures Confluent(steps, wf, Peeking(v, w, p)) <==> !Varies(DepsOf(steps), rank, v, w)
  {
    var g := DepsOf(steps);
    hide T.Runnable, Ranked, Varies, Confluent, DepsOf, ReadsOnly;
    if Varies(g, rank, v, w) {
      VaryingIsNotConfluent(steps, wf, order, rank, v, w, p);
    } else {
      PeekingReads(g, OnlyRead(g, v, w), v, w, p);
      SteadyIsConfluent(steps, wf, order, rank, OnlyRead(g, v, w), Peeking(v, w, p));
    }
  }

  /** In every plain workflow, of two steps that wait for the same step and nothing else neither may look for the other's
      output. */
  lemma ReadingASiblingIsNotConfluent(steps: seq<Step>, wf: Workflow, order: seq<Id>, d: Id, a: Id, b: Id, p: Payload)
    requires T.Runnable(steps, wf, order) && SoleDep(DepsOf(steps), a, d) && SoleDep(DepsOf(steps), b, d) && a != b
    ensures !Confluent(steps, wf, Peeking(b, a, p)) && !Confluent(steps, wf, Peeking(a, b, p))
  {
    var g := DepsOf(steps);
    T.RunnableParts(steps, wf, order);
    hide T.Runnable, Varies, Confluent, DepsOf, Plain, Topological;
    var rank := RanksExist(g, order);
    SiblingsVary(g, rank, d, a, b);
    SiblingsVary(g, rank, d, b, a);
    VaryingIsNotConfluent(steps, wf, order, rank, b, a, p);
    VaryingIsNotConfluent(steps, wf, order, rank, a, b, p);
  }

  /** But whoever waits for one of them, and for nothing else, may look for the other's, without waiting for it. */
  lemma ReadingAnUncleIsConfluent(steps: seq<Step>, wf: Workflow, order: seq<Id>, d: Id, a: Id, b: Id, v: Id, p: Payload)
    requires T.Runnable(steps, wf, order) && SoleDep(DepsOf(steps), a, d) && SoleDep(DepsOf(steps), b, d) && a != b
    requires SoleDep(DepsOf(steps), v, a)
    ensures Confluent(steps, wf, Peeking(v, b, p)) && !Ancestor(DepsOf(steps), b, v)
  {
    var g := DepsOf(steps);
    T.RunnableParts(steps, wf, order);
    hide T.Runnable, Varies, Confluent, DepsOf, Plain, Topological;
    var rank := RanksExist(g, order);
    UncleSeen(g, rank, d, a, b, v);
    PeekingConfluentIff(steps, wf, order, rank, v, b, p);
  }

  // ----- The smallest workflow with siblings

  /** Two agents a and b that both wait for the start s, and for nothing else. */
  function SiblingSteps(s: Id, a: Id, b: Id): seq<Step> {
    [Step(s, NodeType.Start, [], "", []), Step(a, Agent, [s], "", []), Step(b, Agent, [s], "", [])]
  }

  function SiblingWorkflow(s: Id, a: Id, b: Id): Workflow {
    Workflow(s, [b], [FanOut(s, [a, b])])
  }

  ghost predicate Apart(s: Id, a: Id, b: Id) {
    s != a && s != b && a != b && s != Blank && a != Blank && b != Blank
  }

  lemma OwnDeps(steps: seq<Step>, i: nat)
    requires UniqueIds(steps) && i < |steps| && steps[i].id != Blank
    ensures steps[i].id in DepsOf(steps)
    ensures forall d :: d in DepsOf(steps)[steps[i].id] <==> d in steps[i].dependsOn
  {
    ListsOfStep(steps, i);
  }

  lemma SiblingDeps(s: Id, a: Id, b: Id)
    requires Apart(s, a, b)
    ensures DepsOf(SiblingSteps(s, a, b)) == map[s := {}, a := {s}, b := {s}]
  {
    var steps := SiblingSteps(s, a, b);
    hide DepsOf;
    OwnDeps(steps, 0);
    OwnDeps(steps, 1);
    OwnDeps(steps, 2);
    KeysOf(s, a, b);
    var g := DepsOf(steps);
    assert g[s] == {} && g[a] == {s} && g[b] == {s};
  }

  lemma KeysOf(s: Id, a: Id, b: Id)
    requires Apart(s, a, b)
    ensures DepsOf(SiblingSteps(s, a, b)).Keys == {s, a, b}
  {
    var steps := SiblingSteps(s, a, b);
    assert steps[0].id == s && steps[1].id == a && steps[2].id == b;
    assert forall x :: HasStep(steps, x) <==> x == s || x == a || x == b;
    hide ListsOf;
  }

  lemma SiblingsInOrder(s: Id, a: Id, b: Id)
    requires Apart(s, a, b)
    ensures Topological(DepsOf(SiblingSteps(s, a, b)), [s, a, b])
    ensures forall t, d :: Dep(DepsOf(SiblingSteps(s, a, b)), t, d) <==> d == s && (t == a || t == b)
  {
    SiblingDeps(s, a, b);
    hide DepsOf;
    var order := [s, a, b];
    assert order[..1][0] == s && order[..2][0] == s;
  }

  lemma SiblingsWellFormed(s: Id, a: Id, b: Id)
    requires Apart(s, a, b)
    ensures var steps := SiblingSteps(s, a, b);
      && WellFormed(steps) && StartOf(steps) == steps[0]
      && (forall x :: x in steps <==> x == steps[0] || x == steps[1] || x == steps[2])
  {
    var steps := SiblingSteps(s, a, b);
    assert steps[0].nodeType.Start?;
  }

  lemma ThreeSteps(s: Id, a: Id, b: Id)
    requires Apart(s, a, b)
    ensures var steps := SiblingSteps(s, a, b);
      && |steps| == 3 && steps[0].id == s && steps[1].id == a && steps[2].id == b
      && forall i :: 0 <= i < 3 ==>
           steps[i].id != Blank && (steps[i].nodeType.Start? || steps[i].nodeType.Agent?) && steps[i].inputBranch == ""
  {
  }

  lemma SiblingsPlain(s: Id, a: Id, b: Id)
    requires Apart(s, a, b)
    ensures Plain(SiblingSteps(s, a, b)) && StartOf(SiblingSteps(s, a, b)).id == s
  {
    hide *;
    ThreeSteps(s, a, b);
    SiblingsInOrder(s, a, b);
    SiblingsWellFormed(s, a, b);
    DirectAncestor(DepsOf(SiblingSteps(s, a, b)), a, s);
    DirectAncestor(DepsOf(SiblingSteps(s, a, b)), b, s);
    PlainOfThree(SiblingSteps(s, a, b));
  }

  lemma PlainOfThree(steps: seq<Step>)
    requires |steps| == 3 && WellFormed(steps) && StartOf(steps) == steps[0]
    requires forall x :: x in steps ==> x == steps[0] || x == steps[1] || x == steps[2]
    requires forall i :: 0 <= i < 3 ==> steps[i].id != Blank && (steps[i].nodeType.Start? || steps[i].nodeType.Agent?)
    requires forall i :: 0 <= i < 3 ==> steps[i].inputBranch == ""
    requires Ancestor(DepsOf(steps), steps[0].id, steps[1].id) && Ancestor(DepsOf(steps), steps[0].id, steps[2].id)
    ensures Plain(steps)
  {
    hide DepsOf, Ancestor, WellFormed, StartOf;
  }

  lemma SiblingEdge(s: Id, a: Id, b: Id, d: Id, t: Id)
    requires Apart(s, a, b)
    ensures EdgeCount(SiblingWorkflow(s, a, b).groups, d, t) == if d == s && (t == a || t == b) then 1 else 0
    ensures ListedEdge(SiblingSteps(s, a, b), 3, d, t) <==> d == s && (t == a || t == b)
  {
    var steps, groups := SiblingSteps(s, a, b), SiblingWorkflow(s, a, b).groups;
    assert groups[..0] == [] && EdgeCount(groups, d, t) == GroupCount(groups[0], d, t);
    assert steps[1].id == a && steps[2].id == b;
  }

  lemma SiblingsExact(s: Id, a: Id, b: Id)
    requires Apart(s, a, b)
    ensures EdgesExact(SiblingSteps(s, a, b), {}, SiblingWorkflow(s, a, b).groups)
  {
    var steps, groups := SiblingSteps(s, a, b), SiblingWorkflow(s, a, b).groups;
    forall d, t ensures EdgeCount(groups, d, t) == (if d == s && (t == a || t == b) then 1 else 0)
      && (ListedEdge(steps, 3, d, t) <==> d == s && (t == a || t == b))
    {
      SiblingEdge(s, a, b, d, t);
    }
    assert steps[0].id == s && steps[1] in steps && steps[2] in steps;
    R.NoJoin(steps, {}, steps[1]);
    R.NoJoin(steps, {}, steps[2]);
    hide EdgeCount, ListedEdge, KnownDeps, IsJoin, FindStep;
    assert forall x :: x in steps ==> !x.nodeType.Condition?;
    assert PlainEdge(steps, {}, s, a) && PlainEdge(steps, {}, s, b);
    assert GroupFaithful(steps, {}, groups[0]);
  }

  /** They are plain and are built to just this plan. */
  lemma SiblingsAreRunnable(s: Id, a: Id, b: Id)
    requires Apart(s, a, b)
    ensures T.Runnable(SiblingSteps(s, a, b), SiblingWorkflow(s, a, b), [s, a, b])
    ensures SoleDep(DepsOf(SiblingSteps(s, a, b)), a, s) && SoleDep(DepsOf(SiblingSteps(s, a, b)), b, s)
  {
    var steps := SiblingSteps(s, a, b);
    SiblingsPlain(s, a, b);
    SiblingsInOrder(s, a, b);
    SiblingsExact(s, a, b);
    hide DepsOf, Dep, Plain, StartOf, Topological, EdgesExact, T.Runnable;
    MakeRunnable(s, a, b);
  }

  lemma MakeRunnable(s: Id, a: Id, b: Id)
    requires Plain(SiblingSteps(s, a, b)) && StartOf(SiblingSteps(s, a, b)).id == s
    requires Topological(DepsOf(SiblingSteps(s, a, b)), [s, a, b])
    requires EdgesExact(SiblingSteps(s, a, b), {}, SiblingWorkflow(s, a, b).groups)
    ensures T.Runnable(SiblingSteps(s, a, b), SiblingWorkflow(s, a, b), [s, a, b])
  {
    hide Plain, EdgesExact, Topological, DepsOf, StartOf;
  }
}
