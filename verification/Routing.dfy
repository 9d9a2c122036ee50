/** Condition steps: choosing a branch, marking the others as skipped, and sending on along the chosen one. */
module Routing {
  import opened Wrappers
  import opened Graph
  import opened Sequences
  import opened WorkflowSteps
  import opened WorkflowBuild
  import opened Supersteps
  import opened Sends
  import TextSearch
  import M = Messages

  // ----- Choosing

  /** One of the two occurs in the other. */
  predicate Overlaps(branch: string, answer: string, lower: string -> string): (r: bool)
    ensures r <==> exists k :: TextSearch.At(answer, lower(branch), k) || TextSearch.At(lower(branch), answer, k)
  {
    TextSearch.Find(answer, lower(branch)).Some? || TextSearch.Find(lower(branch), answer).Some?
  }

  /** b is the first branch with property p. */
  ghost predicate FirstSuch(branches: seq<string>, p: string -> bool, b: string) {
    exists i :: 0 <= i < |branches| && branches[i] == b && p(b) && forall j :: 0 <= j < i ==> !p(branches[j])
  }

  ghost predicate AnySuch(branches: seq<string>, p: string -> bool) {
    exists i :: 0 <= i < |branches| && p(branches[i])
  }

  /** Reads the classifier's answer, already trimmed and in lower case; asked is false when there is no one to ask. */
  method SelectBranch(branches: seq<string>, asked: bool, answer: string, lower: string -> string) returns (b: string)
    ensures if branches == [] then b == "" else b in branches
    ensures asked && AnySuch(branches, x => lower(x) == answer) ==> FirstSuch(branches, x => lower(x) == answer, b)
    ensures asked && !AnySuch(branches, x => lower(x) == answer) && AnySuch(branches, x => Overlaps(x, answer, lower)) ==>
      FirstSuch(branches, x => Overlaps(x, answer, lower), b)
    ensures branches != [] && (asked ==> !AnySuch(branches, x => lower(x) == answer || Overlaps(x, answer, lower))) ==> b == branches[0]
  {
    hide Overlaps;
    if branches == [] { return ""; }
    if !asked { return branches[0]; }
    var i := 0;
    while i < |branches|
      invariant 0 <= i <= |branches|
      invariant forall j :: 0 <= j < i ==> lower(branches[j]) != answer
    {
      if lower(branches[i]) == answer { return branches[i]; }
      i := i + 1;
    }
    i := 0;
    while i < |branches|
      invariant 0 <= i <= |branches|
      invariant forall j :: 0 <= j < i ==> !Overlaps(branches[j], answer, lower)
    {
      if Overlaps(branches[i], answer, lower) { return branches[i]; }
      i := i + 1;
    }
    b := branches[0];
  }

  // ----- Marking what is skipped

  /** s waits for condition c and carries the label of another branch than the chosen one. */
  predicate Unchosen(s: Step, c: Id, chosen: string) {
    s.inputBranch != "" && c in s.dependsOn && s.inputBranch != chosen
  }

  /** m after condition c has chosen. */
  function WithChoice(m: M.Msg, steps: seq<Step>, c: Id, chosen: string, text: M.Payload): M.Msg {
    var completed := m.completed + {c};
    m.(conditionOutputs := m.conditionOutputs[c := chosen], outputs := m.outputs[c := text], completed := completed,
       skipped := m.skipped + set s | s in steps && s.id != Blank && s.id !in completed && Unchosen(s, c, chosen) :: s.id)
  }

  /** A condition that cannot be evaluated takes its first branch. text is the chosen label as an output. */
  method ProcessCondition(m: M.StateMessage, steps: seq<Step>, c: Step, evaluated: Option<string>,
                          text: string -> M.Payload)
    returns (chosen: string)
    modifies m
    ensures chosen == if evaluated.Some? then evaluated.value else if c.branches != [] then c.branches[0] else ""
    ensures m.View() == WithChoice(old(m.View()), steps, c.id, chosen, text(chosen))
    ensures m.conditionOutputs == old(m.conditionOutputs)[c.id := chosen]
    ensures m.outputs == old(m.outputs)[c.id := text(chosen)] && m.completedNodes == old(m.completedNodes) + {c.id}
    ensures forall v :: v in old(m.skipped) ==> v in m.skipped
    ensures forall v :: v in m.skipped && v !in old(m.skipped) ==> v != Blank && v !in m.completedNodes && (exists s ::
      s in steps && s.id == v && c.id in s.dependsOn && s.inputBranch != "" && s.inputBranch != chosen)
    ensures forall s :: s in steps && c.id in s.dependsOn && s.inputBranch != "" && s.inputBranch != chosen ==>
      s.id == Blank || s.id in m.completedNodes || s.id in m.skipped
    ensures m.failedNodes == old(m.failedNodes) && m.userInput == old(m.userInput) && m.runId == old(m.runId)
  {
    chosen := if evaluated.Some? then evaluated.value else if c.branches != [] then c.branches[0] else "";
    m.conditionOutputs := m.conditionOutputs[c.id := chosen];
    m.outputs := m.outputs[c.id := text(chosen)];
    m.completedNodes := m.completedNodes + {c.id};
    ghost var was, completed := m.skipped, m.completedNodes;
    ghost var view := m.View();
    var i := 0;
    while i < |steps|
      invariant 0 <= i <= |steps|
      invariant m.View() == view.(skipped := m.skipped)
      invariant m.skipped == was + set s | s in steps[..i] && s.id != Blank && s.id !in completed && Unchosen(s, c.id, chosen) :: s.id
    {
      var other := steps[i];
      assert steps[..i + 1] == steps[..i] + [other];
      if other.id != Blank && other.id !in m.completedNodes && other.id !in m.skipped && Unchosen(other, c.id, chosen) {
        m.skipped := m.skipped + {other.id};
      }
      i := i + 1;
    }
    assert steps[..i] == steps;
  }

  // ----- Sending on

  /** How many times one group delivers a message, sent by step, to t, unless it is a fan-in group leading there. */
  function GroupHits(e: EdgeGroup, step: Id, m: M.Msg, t: Id): nat {
    if e.Switch? then if e.source == step && Route(e.cases, e.otherwise, Chosen(m, step)) == t then 1 else 0
    else GroupCount(e, step, t)
  }

  function Hits(groups: seq<EdgeGroup>, step: Id, m: M.Msg, t: Id): nat {
    if groups == [] then 0 else
      Hits(groups[..|groups| - 1], step, m, t) + GroupHits(groups[|groups| - 1], step, m, t)
  }

  lemma ViaRouted(s: Run, k: nat, e: EdgeGroup, step: Id, ref: Ref, t: Id)
    requires t in s.stations && (e.FanIn? ==> e.target != t)
    ensures t in SendVia(s, k, e, step, ref).stations
    ensures SendVia(s, k, e, step, ref).stations[t].next ==
      s.stations[t].next + Repeat(One(ref), GroupHits(e, step, Read(s.heap, ref), t))
  {
    hide Route, Read, Chosen, GroupCount;
    if e.Switch? {
      RepeatNone(s.stations[t].next, One(ref));
    } else {
      hide SendVia;
      ViaPlain(s, k, e, step, ref, t);
    }
  }

  lemma {:induction false} SendRouted(s: Run, groups: seq<EdgeGroup>, step: Id, ref: Ref, t: Id)
    requires t in s.stations && forall k :: 0 <= k < |groups| ==> groups[k].FanIn? ==> groups[k].target != t
    ensures t in Send(s, groups, step, ref).stations
    ensures Send(s, groups, step, ref).stations[t].next ==
      s.stations[t].next + Repeat(One(ref), Hits(groups, step, Read(s.heap, ref), t))
  {
    if groups == [] {
      RepeatNone(s.stations[t].next, One(ref));
    } else {
      hide SendVia, OnlyNext, GroupHits, Read, Repeat;
      var n := |groups| - 1;
      var mid := Send(s, groups[..n], step, ref);
      SendRouted(s, groups[..n], step, ref, t);
      SendHeap(s, groups[..n], step, ref);
      ViaRouted(mid, n, groups[n], step, ref, t);
      RepeatAdd(One(ref), Hits(groups[..n], step, Read(s.heap, ref), t), GroupHits(groups[n], step, Read(s.heap, ref), t));
    }
  }

  lemma SendHeap(s: Run, groups: seq<EdgeGroup>, step: Id, ref: Ref)
    ensures Send(s, groups, step, ref).heap == s.heap
  {
    SendKeeps(s, groups, step, ref);
  }

  lemma {:induction false} HitsCount(groups: seq<EdgeGroup>, step: Id, m: M.Msg, t: Id)
    requires forall k :: 0 <= k < |groups| ==> !(groups[k].Switch? && groups[k].source == step)
    ensures Hits(groups, step, m, t) == EdgeCount(groups, step, t)
  {
    if groups != [] {
      HitsCount(groups[..|groups| - 1], step, m, t);
    }
  }

  /** With one switch for the sender. */
  lemma {:induction false} HitsOnce(groups: seq<EdgeGroup>, k: nat, step: Id, m: M.Msg, t: Id)
    requires k < |groups| && groups[k].Switch? && groups[k].source == step
    requires forall j :: 0 <= j < |groups| && j != k && groups[j].Switch? ==> groups[j].source != step
    ensures Hits(groups, step, m, t) == EdgeCount(groups, step, t) +
      if Route(groups[k].cases, groups[k].otherwise, Chosen(m, step)) == t then 1 else 0
  {
    hide Route, Chosen;
    var n := |groups| - 1;
    if k < n {
      HitsOnce(groups[..n], k, step, m, t);
    } else {
      HitsCount(groups[..n], step, m, t);
    }
  }

  // ----- The two agree

  /** Steps of the same branch are the same step, and a labelled step waits for the condition alone. */
  ghost predicate OneStepPerLabel(steps: seq<Step>, c: Step) {
    && "" !in c.branches
    && (forall s, e :: s in steps && e in steps && OnBranch(c, s) && OnBranch(c, e) && s.inputBranch == e.inputBranch ==> s == e)
    && (forall s :: s in steps && OnBranch(c, s) ==> s.dependsOn == [c.id])
  }

  predicate OnBranch(c: Step, s: Step) {
    c.id in s.dependsOn && s.inputBranch in c.branches
  }

  lemma {:induction false} RouteFinds(cases: seq<(string, Id)>, otherwise: Id, chosen: string, t: Id)
    requires exists i :: 0 <= i < |cases| && cases[i].0 == chosen
    requires forall i :: 0 <= i < |cases| && cases[i].0 == chosen ==> cases[i].1 == t
    ensures Route(cases, otherwise, Some(chosen)) == t
  {
    if cases[0].0 != chosen {
      var i :| 0 <= i < |cases| && cases[i].0 == chosen;
      assert cases[1..][i - 1] == cases[i];
      RouteFinds(cases[1..], otherwise, chosen, t);
    }
  }

  lemma NoJoin(steps: seq<Step>, refused: set<Id>, s: Step)
    requires |s.dependsOn| <= 1
    ensures !IsJoin(steps, refused, s)
  {
    FewKnown(steps, s.dependsOn);
  }

  lemma NotJoined(steps: seq<Step>, refused: set<Id>, s: Step, d: Id)
    requires WellFormed(steps) && s in steps && |s.dependsOn| <= 1
    ensures !JoinEdge(steps, refused, |steps|, d, s.id)
  {
    NoJoin(steps, refused, s);
    forall k | 0 <= k < |steps| && steps[k].id == s.id ensures steps[k] == s {
      assert steps[k] in steps;
      SameStep(steps, s, steps[k]);
    }
  }

  /** The switch leads from a chosen label to the one step that carries it. */
  lemma SwitchPicks(steps: seq<Step>, refused: set<Id>, output: Id, c: Step, e: EdgeGroup, s: Step)
    requires WellFormed(steps) && c in steps && OneStepPerLabel(steps, c) && s in steps && OnBranch(c, s)
    requires SwitchFor(steps, refused, output, c.id, e)
    ensures e.Switch? && Route(e.cases, e.otherwise, Some(s.inputBranch)) == s.id
  {
    hide Route, IsJoin, JoinEdge;
    FindStepUnique(steps, c);
    var ds, added :| JoinsAdded(steps, refused, added) && Downstream(steps, |steps|, c.id, ds) &&
                     IsSwitchFor(e, FindStep(steps, c.id), output, ds, added);
    assert steps[..|steps|] == steps;
    NotJoined(steps, refused, s, c.id);
    assert s in ds && (c.id, s.id) !in added;
    var i :| 0 <= i < |e.cases| && e.cases[i].1 == s.id;
    CaseLabel(steps, c, ds, added, e.cases, i, s);
    forall k | 0 <= k < |e.cases| && e.cases[k].0 == s.inputBranch ensures e.cases[k].1 == s.id {
      CaseTarget(steps, c, ds, added, e.cases, k, s);
    }
    RouteFinds(e.cases, e.otherwise, s.inputBranch, s.id);
  }

  lemma CaseLabel(steps: seq<Step>, c: Step, ds: seq<Step>, added: set<(Id, Id)>, cases: seq<(string, Id)>, i: nat,
                  s: Step)
    requires WellFormed(steps) && s in steps && Downstream(steps, |steps|, c.id, ds)
    requires CasesSound(c.id, c.branches, ds, added, cases) && i < |cases| && cases[i].1 == s.id
    ensures cases[i].0 == s.inputBranch
  {
    assert steps[..|steps|] == steps;
    var x :| x in ds && x.id == s.id && x.inputBranch == cases[i].0;
    SameStep(steps, x, s);
  }

  lemma CaseTarget(steps: seq<Step>, c: Step, ds: seq<Step>, added: set<(Id, Id)>, cases: seq<(string, Id)>, k: nat,
                   s: Step)
    requires WellFormed(steps) && s in steps
    requires Downstream(steps, |steps|, c.id, ds) && OneStepPerLabel(steps, c) && OnBranch(c, s)
    requires CasesSound(c.id, c.branches, ds, added, cases) && k < |cases| && cases[k].0 == s.inputBranch
    ensures cases[k].1 == s.id
  {
    assert steps[..|steps|] == steps;
    var x :| x in ds && x.id == cases[k].1 && x.inputBranch == cases[k].0;
    assert OnBranch(c, x);
  }

  lemma FanInElsewhere(steps: seq<Step>, refused: set<Id>, groups: seq<EdgeGroup>, s: Step)
    requires WellFormed(steps) && EdgesExact(steps, refused, groups) && s in steps && |s.dependsOn| <= 1
    ensures forall k :: 0 <= k < |groups| ==> groups[k].FanIn? ==> groups[k].target != s.id
  {
    NoJoin(steps, refused, s);
    hide IsJoin, KnownDeps, EdgeCount;
    forall k | 0 <= k < |groups| && groups[k].FanIn? ensures groups[k].target != s.id {
      assert groups[k] in groups && GroupFaithful(steps, refused, groups[k]);
      var x :| x in steps && x.id == groups[k].target && IsJoin(steps, refused, x) && groups[k].sources == KnownDeps(steps, x.dependsOn);
      if x.id == s.id { SameStep(steps, x, s); }
    }
  }

  lemma NoPlainEdge(steps: seq<Step>, refused: set<Id>, groups: seq<EdgeGroup>, c: Step, s: Step)
    requires WellFormed(steps) && EdgesExact(steps, refused, groups) && c in steps && c.nodeType.Condition?
    requires s in steps && |s.dependsOn| <= 1
    ensures EdgeCount(groups, c.id, s.id) == 0
  {
    FindStepUnique(steps, c);
    NotJoined(steps, refused, s, c.id);
  }

  lemma LabelledGets(steps: seq<Step>, refused: set<Id>, output: Id, groups: seq<EdgeGroup>, c: Step, chosen: Step,
                     s: Step,
                     run: Run, ref: Ref)
    requires WellFormed(steps) && EdgesExact(steps, refused, groups) && HasSwitch(steps, refused, output, c.id, groups)
    requires c in steps && c.nodeType.Condition? && OneStepPerLabel(steps, c)
    requires chosen in steps && OnBranch(c, chosen) && s in steps && OnBranch(c, s) && s.id in run.stations
    requires Supersteps.Chosen(Read(run.heap, ref), c.id) == Some(chosen.inputBranch)
    ensures s.id in Send(run, groups, c.id, ref).stations
    ensures Send(run, groups, c.id, ref).stations[s.id].next ==
      run.stations[s.id].next + if s.inputBranch == chosen.inputBranch then [One(ref)] else []
  {
    LabelledAlone(steps, c, s);
    FanInElsewhere(steps, refused, groups, s);
    NoPlainEdge(steps, refused, groups, c, s);
    hide Send, EdgesExact, WellFormed, OneStepPerLabel, Route, EdgeCount, Hits, Read, Supersteps.Chosen, OnBranch, SwitchFor;
    var k :| 0 <= k < |groups| && SwitchFor(steps, refused, output, c.id, groups[k]) &&
             forall j :: 0 <= j < |groups| && j != k && groups[j].Switch? ==> groups[j].source != c.id;
    SwitchPicks(steps, refused, output, c, groups[k], chosen);
    SwitchSource(steps, refused, output, c, groups[k]);
    HitsOnce(groups, k, c.id, Read(run.heap, ref), s.id);
    SendRouted(run, groups, c.id, ref, s.id);
    RepeatNone(run.stations[s.id].next, One(ref));
    if s.id == chosen.id { SameStep(steps, s, chosen); }
    if s.inputBranch == chosen.inputBranch { SameLabel(steps, c, s, chosen); }
  }

  lemma SameLabel(steps: seq<Step>, c: Step, s: Step, e: Step)
    requires OneStepPerLabel(steps, c) && s in steps && e in steps
    requires OnBranch(c, s) && OnBranch(c, e) && s.inputBranch == e.inputBranch
    ensures s == e
  {
  }

  lemma SwitchSource(steps: seq<Step>, refused: set<Id>, output: Id, c: Step, e: EdgeGroup)
    requires WellFormed(steps) && c in steps && SwitchFor(steps, refused, output, c.id, e)
    ensures e.Switch? && e.source == c.id
  {
    FindStepUnique(steps, c);
  }

  lemma LabelledAlone(steps: seq<Step>, c: Step, s: Step)
    requires OneStepPerLabel(steps, c) && s in steps && OnBranch(c, s)
    ensures |s.dependsOn| <= 1 && s.inputBranch != ""
  {
  }

  /** When a condition with one step per label has chosen the label of one of them and sends its message on, that
      step gets it and is not skipped; every other labelled step gets nothing and is skipped. */
  lemma RoutingAndSkippingAgree(steps: seq<Step>, refused: set<Id>, output: Id, groups: seq<EdgeGroup>, c: Step,
                                chosen: Step,
                                before: M.Msg, text: M.Payload, run: Run, ref: Ref, s: Step)
    requires WellFormed(steps) && EdgesExact(steps, refused, groups) && HasSwitch(steps, refused, output, c.id, groups)
    requires c in steps && c.nodeType.Condition? && OneStepPerLabel(steps, c)
    requires chosen in steps && OnBranch(c, chosen)
    requires Read(run.heap, ref) == WithChoice(before, steps, c.id, chosen.inputBranch, text)
    requires s in steps && OnBranch(c, s) && s.id in run.stations && s.id != Blank && s != c
    requires s.id !in before.completed && s.id !in before.skipped
    ensures s.id in Send(run, groups, c.id, ref).stations
    ensures Send(run, groups, c.id, ref).stations[s.id].next ==
      run.stations[s.id].next + if s.inputBranch == chosen.inputBranch then [One(ref)] else []
    ensures s.id in Read(run.heap, ref).skipped <==> s.inputBranch != chosen.inputBranch
  {
    LabelledGets(steps, refused, output, groups, c, chosen, s, run, ref);
    SkippedIff(steps, c, chosen, before, text, s);
    hide *;
  }

  lemma SkippedIff(steps: seq<Step>, c: Step, chosen: Step, before: M.Msg, text: M.Payload, s: Step)
    requires WellFormed(steps) && c in steps && s in steps
    requires OnBranch(c, s) && OneStepPerLabel(steps, c) && s.id != Blank && s != c
    requires s.id !in before.completed && s.id !in before.skipped
    ensures s.id in WithChoice(before, steps, c.id, chosen.inputBranch, text).skipped <==> s.inputBranch != chosen.inputBranch
    ensures Supersteps.Chosen(WithChoice(before, steps, c.id, chosen.inputBranch, text), c.id) == Some(chosen.inputBranch)
  {
    if s.id == c.id { SameStep(steps, s, c); }
    var skipped := set x | x in steps && x.id != Blank && x.id !in before.completed + {c.id} && Unchosen(x, c.id, chosen.inputBranch) :: x.id;
    if s.id in skipped {
      var x :| x in steps && x.id == s.id && Unchosen(x, c.id, chosen.inputBranch);
      SameStep(steps, x, s);
    }
  }
}
