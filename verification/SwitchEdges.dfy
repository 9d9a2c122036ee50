/** What a condition delivers once its switch is counted too: when that goes beyond the dependencies listed. */
module SwitchEdges {
  import opened Wrappers
  import opened Graph
  import opened WorkflowSteps
  import opened WorkflowBuild
  import opened Supersteps
  import opened Routing
  import M = Messages

  // ----- Where the switch leads

  /** s waits for condition c, carries one of its labels, and is not gathered by a fan-in group. */
  predicate Cased(steps: seq<Step>, refused: set<Id>, c: Step, s: Step) {
    OnBranch(c, s) && !IsJoin(steps, refused, s)
  }

  /** Some step has a case for the label. */
  ghost predicate HasCase(steps: seq<Step>, refused: set<Id>, c: Step, branch: string) {
    exists s :: s in steps && Cased(steps, refused, c, s) && s.inputBranch == branch
  }

  /** The first of the steps ds that has no case. */
  function FirstUncased(steps: seq<Step>, refused: set<Id>, c: Step, ds: seq<Step>): (s: Option<Step>)
    ensures s.Some? ==> s.value in ds && !Cased(steps, refused, c, s.value)
    ensures s.None? ==> forall x :: x in ds ==> Cased(steps, refused, c, x)
    ensures s.Some? ==> exists k :: 0 <= k < |ds| && ds[k] == s.value && forall j :: 0 <= j < k ==> Cased(steps, refused, c, ds[j])
  {
    if ds == [] then None
    else if !Cased(steps, refused, c, ds[0]) then Some(ds[0])
    else
      assert forall j :: 0 < j < |ds| ==> ds[j] == ds[1..][j - 1];
      FirstUncased(steps, refused, c, ds[1..])
  }

  /** Where a label without a case leads: to the first step waiting for c that has no case, else to the first output. */
  function DefaultOf(steps: seq<Step>, refused: set<Id>, c: Step, output: Id): Id {
    var first := FirstUncased(steps, refused, c, Listing(steps, |steps|, c.id));
    if first.Some? then first.value.id else output
  }

  lemma JoinEdgeIff(steps: seq<Step>, refused: set<Id>, c: Step, s: Step)
    requires WellFormed(steps) && c in steps && s in steps
    ensures JoinEdge(steps, refused, |steps|, c.id, s.id) <==> c.id in s.dependsOn && IsJoin(steps, refused, s)
  {
    FindStepUnique(steps, c);
    hide IsJoin, FindStep;
    var k :| 0 <= k < |steps| && steps[k] == s;
    if JoinEdge(steps, refused, |steps|, c.id, s.id) {
      var i :| 0 <= i < |steps| && steps[i].id == s.id && IsJoin(steps, refused, steps[i]) && c.id in KnownDeps(steps, steps[i].dependsOn);
      SameStep(steps, s, steps[i]);
    }
  }

  lemma JoinAdded(steps: seq<Step>, refused: set<Id>, added: set<(Id, Id)>, c: Step, s: Step)
    requires WellFormed(steps) && JoinsAdded(steps, refused, added) && c in steps && s in steps && c.id in s.dependsOn
    ensures (c.id, s.id) in added <==> IsJoin(steps, refused, s)
  {
    FindStepUnique(steps, c);
    JoinEdgeIff(steps, refused, c, s);
    hide IsJoin, JoinEdge, FindStep;
  }

  lemma LedToIff(steps: seq<Step>, refused: set<Id>, c: Step, ds: seq<Step>, added: set<(Id, Id)>, output: Id, e: EdgeGroup,
                 s: Step)
    requires WellFormed(steps) && JoinsAdded(steps, refused, added) && Downstream(steps, |steps|, c.id, ds)
    requires c in steps && IsSwitchFor(e, c, output, ds, added) && s in ds
    ensures LeadsTo(e.cases, s.id) <==> Cased(steps, refused, c, s)
  {
    assert steps[..|steps|] == steps;
    JoinAdded(steps, refused, added, c, s);
    hide IsJoin, JoinEdge, JoinsAdded, Listing;
    if i :| 0 <= i < |e.cases| && e.cases[i].1 == s.id {
      var x :| x in ds && x.id == s.id && x.inputBranch == e.cases[i].0;
      SameStep(steps, x, s);
    }
  }

  /** The default of the switch. */
  lemma {:induction false} DefaultFound(steps: seq<Step>, refused: set<Id>, c: Step, ds: seq<Step>, cases: seq<(string, Id)>, k: nat)
    requires forall s :: s in ds ==> (LeadsTo(cases, s.id) <==> Cased(steps, refused, c, s))
    requires k < |ds| && !LeadsTo(cases, ds[k].id) && forall j :: 0 <= j < k ==> LeadsTo(cases, ds[j].id)
    ensures FirstUncased(steps, refused, c, ds) == Some(ds[k])
  {
    hide Cased, LeadsTo;
    assert ds[0] in ds;
    if k > 0 {
      assert forall s :: s in ds[1..] ==> s in ds;
      DefaultFound(steps, refused, c, ds[1..], cases, k - 1);
    }
  }

  lemma DefaultIs(steps: seq<Step>, refused: set<Id>, c: Step, ds: seq<Step>, added: set<(Id, Id)>, output: Id, e: EdgeGroup)
    requires WellFormed(steps) && JoinsAdded(steps, refused, added) && Downstream(steps, |steps|, c.id, ds)
    requires c in steps && IsSwitchFor(e, c, output, ds, added)
    ensures e.otherwise == DefaultOf(steps, refused, c, output)
  {
    forall s | s in ds ensures LeadsTo(e.cases, s.id) <==> Cased(steps, refused, c, s) {
      LedToIff(steps, refused, c, ds, added, output, e, s);
    }
    assert ds == Listing(steps, |steps|, c.id);
    hide Cased, LeadsTo, Listing, JoinsAdded, CasesSound;
    if s :| s in ds && !LeadsTo(e.cases, s.id) {
      var k :| 0 <= k < |ds| && e.otherwise == ds[k].id && !LeadsTo(e.cases, ds[k].id) &&
               forall j :: 0 <= j < k ==> LeadsTo(e.cases, ds[j].id);
      DefaultFound(steps, refused, c, ds, e.cases, k);
    }
  }

  lemma {:induction false} RouteCases(cases: seq<(string, Id)>, otherwise: Id, chosen: string)
    ensures var t := Route(cases, otherwise, Some(chosen));
      if exists i :: 0 <= i < |cases| && cases[i].0 == chosen then exists i :: 0 <= i < |cases| && cases[i] == (chosen, t)
      else t == otherwise
  {
    if cases != [] && cases[0].0 != chosen {
      RouteCases(cases[1..], otherwise, chosen);
      assert forall i :: 0 <= i < |cases[1..]| ==> cases[1..][i] == cases[i + 1];
      if i :| 0 <= i < |cases| && cases[i].0 == chosen {
        assert cases[1..][i - 1].0 == chosen;
      }
    } else if cases != [] {
      assert cases[0] == (chosen, cases[0].1);
    }
  }

  lemma CaseIsCased(steps: seq<Step>, refused: set<Id>, c: Step, ds: seq<Step>, added: set<(Id, Id)>, output: Id, e: EdgeGroup,
                    i: nat) returns (s: Step)
    requires WellFormed(steps) && JoinsAdded(steps, refused, added) && Downstream(steps, |steps|, c.id, ds)
    requires c in steps && IsSwitchFor(e, c, output, ds, added) && i < |e.cases|
    ensures s in steps && Cased(steps, refused, c, s) && e.cases[i] == (s.inputBranch, s.id)
  {
    assert steps[..|steps|] == steps;
    s :| s in ds && s.id == e.cases[i].1 && s.inputBranch == e.cases[i].0;
    JoinAdded(steps, refused, added, c, s);
  }

  lemma CasedHasCase(steps: seq<Step>, refused: set<Id>, c: Step, ds: seq<Step>, added: set<(Id, Id)>, output: Id, e: EdgeGroup,
                     s: Step)
    requires WellFormed(steps) && JoinsAdded(steps, refused, added) && Downstream(steps, |steps|, c.id, ds)
    requires c in steps && IsSwitchFor(e, c, output, ds, added) && s in steps && Cased(steps, refused, c, s)
    ensures exists i :: 0 <= i < |e.cases| && e.cases[i].0 == s.inputBranch
  {
    assert steps[..|steps|] == steps && s in ds;
    LedToIff(steps, refused, c, ds, added, output, e, s);
    var i :| 0 <= i < |e.cases| && e.cases[i].1 == s.id;
    var x := CaseIsCased(steps, refused, c, ds, added, output, e, i);
    SameStep(steps, x, s);
  }

  /** A label with a case leads to a step that carries it and waits for c; any other to the default. */
  lemma SwitchRoutes(steps: seq<Step>, refused: set<Id>, output: Id, c: Step, e: EdgeGroup, chosen: string)
    requires WellFormed(steps) && c in steps && SwitchFor(steps, refused, output, c.id, e)
    ensures e.Switch? && e.source == c.id
    ensures var t := Route(e.cases, e.otherwise, Some(chosen));
      if HasCase(steps, refused, c, chosen)
      then exists s :: s in steps && Cased(steps, refused, c, s) && s.inputBranch == chosen && s.id == t
      else t == DefaultOf(steps, refused, c, output)
  {
    FindStepUnique(steps, c);
    var ds, added :| JoinsAdded(steps, refused, added) && Downstream(steps, |steps|, c.id, ds) &&
                     IsSwitchFor(e, FindStep(steps, c.id), output, ds, added);
    RouteCases(e.cases, e.otherwise, chosen);
    DefaultIs(steps, refused, c, ds, added, output, e);
    hide WellFormed, JoinsAdded, Downstream, Cased, Route, DefaultOf, FindStep;
    if s :| s in steps && Cased(steps, refused, c, s) && s.inputBranch == chosen {
      CasedHasCase(steps, refused, c, ds, added, output, e, s);
    }
    if i :| 0 <= i < |e.cases| && e.cases[i] == (chosen, Route(e.cases, e.otherwise, Some(chosen))) {
      var s := CaseIsCased(steps, refused, c, ds, added, output, e, i);
    }
    if i :| 0 <= i < |e.cases| && e.cases[i].0 == chosen {
      var s := CaseIsCased(steps, refused, c, ds, added, output, e, i);
      assert HasCase(steps, refused, c, chosen);
    }
  }

  // ----- How often a step is delivered to

  /** A message in which a condition has chosen a label. */
  function Choosing(c: Id, chosen: string): M.Msg {
    M.EmptyMsg.(conditionOutputs := map[c := chosen])
  }

  /** What a condition's message counts for at t, fan-in groups and the switch included. */
  function Deliveries(groups: seq<EdgeGroup>, c: Id, chosen: string, t: Id): nat {
    Hits(groups, c, Choosing(c, chosen), t)
  }

  /** Nothing about the message matters but the choice. */
  lemma {:induction false} HitsAreDeliveries(groups: seq<EdgeGroup>, c: Id, m: M.Msg, chosen: string, t: Id)
    requires Supersteps.Chosen(m, c) == Some(chosen)
    ensures Hits(groups, c, m, t) == Deliveries(groups, c, chosen, t)
  {
    if groups != [] {
      HitsAreDeliveries(groups[..|groups| - 1], c, m, chosen, t);
      hide Route, GroupCount;
    }
  }

  /** The builder's groups for steps in which c is a condition with steps below it. */
  ghost predicate BuiltFor(steps: seq<Step>, refused: set<Id>, output: Id, c: Step, groups: seq<EdgeGroup>) {
    && WellFormed(steps) && c in steps && c.nodeType.Condition?
    && EdgesExact(steps, refused, groups) && HasSwitch(steps, refused, output, c.id, groups)
  }

  /** A condition's message counts once at every fan-in group that gathers it, and once where the switch leads. */
  lemma DeliveriesAre(steps: seq<Step>, refused: set<Id>, output: Id, c: Step, groups: seq<EdgeGroup>, chosen: string, t: Id)
    returns (e: EdgeGroup)
    requires BuiltFor(steps, refused, output, c, groups)
    ensures SwitchFor(steps, refused, output, c.id, e) && e.Switch?
    ensures Deliveries(groups, c.id, chosen, t) ==
      (if JoinEdge(steps, refused, |steps|, c.id, t) then 1 else 0) +
      (if Route(e.cases, e.otherwise, Some(chosen)) == t then 1 else 0)
  {
    FindStepUnique(steps, c);
    var k :| 0 <= k < |groups| && SwitchFor(steps, refused, output, c.id, groups[k]) &&
             forall j :: 0 <= j < |groups| && j != k && groups[j].Switch? ==> groups[j].source != c.id;
    e := groups[k];
    SwitchRoutes(steps, refused, output, c, e, chosen);
    hide SwitchFor, JoinEdge, Route, FindStep, HasCase, Cased, DefaultOf;
    HitsOnce(groups, k, c.id, Choosing(c.id, chosen), t);
  }

  /** What a condition can choose: one of its branches, or nothing if it has none. */
  predicate Choosable(c: Step, chosen: string) {
    if c.branches == [] then chosen == "" else chosen in c.branches
  }

  /** Some label that can be chosen has no case, so that the default is taken. */
  ghost predicate DefaultTaken(steps: seq<Step>, refused: set<Id>, c: Step) {
    exists chosen :: Choosable(c, chosen) && !HasCase(steps, refused, c, chosen)
  }

  /** The switch can lead to a step that does not wait for the condition. */
  ghost predicate Strays(steps: seq<Step>, groups: seq<EdgeGroup>, c: Step) {
    exists chosen, t :: Choosable(c, chosen) && Deliveries(groups, c.id, chosen, t) > 0 && !ListedEdge(steps, |steps|, c.id, t)
  }

  /** A step can be reached twice by one message of the condition. */
  ghost predicate Doubles(groups: seq<EdgeGroup>, c: Step) {
    exists chosen, t :: Choosable(c, chosen) && Deliveries(groups, c.id, chosen, t) > 1
  }

  lemma {:induction false} ListingIs(steps: seq<Step>, n: nat, c: Id, s: Step)
    requires n <= |steps|
    ensures s in Listing(steps, n, c) <==> s in steps[..n] && c in s.dependsOn
  {
    if n > 0 {
      ListingIs(steps, n - 1, c, s);
      assert steps[..n] == steps[..n - 1] + [steps[n - 1]];
    }
  }

  lemma ListedIff(steps: seq<Step>, c: Id, s: Step)
    requires WellFormed(steps) && s in steps
    ensures ListedEdge(steps, |steps|, c, s.id) <==> c in s.dependsOn
  {
    var k :| 0 <= k < |steps| && steps[k] == s;
    if ListedEdge(steps, |steps|, c, s.id) {
      var i :| 0 <= i < |steps| && steps[i].id == s.id && c in steps[i].dependsOn;
      SameStep(steps, s, steps[i]);
    }
  }

  /** The first step waiting for c that has no case. */
  function FirstWaiting(steps: seq<Step>, refused: set<Id>, c: Step): (s: Option<Step>)
    ensures s.Some? ==> s.value in steps && c.id in s.value.dependsOn && !Cased(steps, refused, c, s.value)
    ensures s.None? ==> forall x :: x in steps && c.id in x.dependsOn ==> Cased(steps, refused, c, x)
  {
    var s := FirstUncased(steps, refused, c, Listing(steps, |steps|, c.id));
    assert steps[..|steps|] == steps && forall x :: x in Listing(steps, |steps|, c.id) <==> x in steps && c.id in x.dependsOn by {
      forall x ensures x in Listing(steps, |steps|, c.id) <==> x in steps && c.id in x.dependsOn {
        ListingIs(steps, |steps|, c.id, x);
        assert steps[..|steps|] == steps;
      }
    }
    s
  }

  lemma JoinIsListed(steps: seq<Step>, refused: set<Id>, c: Step, t: Id) returns (s: Step)
    requires JoinEdge(steps, refused, |steps|, c.id, t)
    ensures s in steps && s.id == t && c.id in s.dependsOn && IsJoin(steps, refused, s) && ListedEdge(steps, |steps|, c.id, t)
  {
    var k :| 0 <= k < |steps| && steps[k].id == t && IsJoin(steps, refused, steps[k]) && c.id in KnownDeps(steps, steps[k].dependsOn);
    s := steps[k];
  }

  /** A delivery that no dependency asks for goes to the first output, for want of any other default. */
  lemma StrayDelivery(steps: seq<Step>, refused: set<Id>, output: Id, c: Step, groups: seq<EdgeGroup>, chosen: string, t: Id)
    requires BuiltFor(steps, refused, output, c, groups) && Deliveries(groups, c.id, chosen, t) > 0
    requires !ListedEdge(steps, |steps|, c.id, t)
    ensures !HasCase(steps, refused, c, chosen) && FirstWaiting(steps, refused, c).None? && t == output
  {
    var e := DeliveriesAre(steps, refused, output, c, groups, chosen, t);
    SwitchRoutes(steps, refused, output, c, e, chosen);
    hide Deliveries, Route, EdgesExact, HasSwitch, IsJoin, SwitchFor, JoinEdge, ListedEdge, Listing, FirstUncased;
    if JoinEdge(steps, refused, |steps|, c.id, t) {
      var s := JoinIsListed(steps, refused, c, t);
    }
    if s :| s in steps && Cased(steps, refused, c, s) && s.inputBranch == chosen && s.id == t {
      ListedIff(steps, c.id, s);
    }
    if w :| w in steps && FirstWaiting(steps, refused, c) == Some(w) {
      ListedIff(steps, c.id, w);
    }
  }

  /** A condition can reach a step that does not wait for it exactly if some label it can choose has no case, all steps
      that wait for it have one, and the first output does not wait for it. */
  lemma StraysIff(steps: seq<Step>, refused: set<Id>, output: Id, c: Step, groups: seq<EdgeGroup>)
    requires BuiltFor(steps, refused, output, c, groups)
    ensures Strays(steps, groups, c) <==>
      DefaultTaken(steps, refused, c) && FirstWaiting(steps, refused, c).None? && !ListedEdge(steps, |steps|, c.id, output)
  {
    hide BuiltFor, HasCase, Deliveries, ListedEdge, SwitchFor, Route;
    if Strays(steps, groups, c) {
      var chosen, t :| Choosable(c, chosen) && Deliveries(groups, c.id, chosen, t) > 0 && !ListedEdge(steps, |steps|, c.id, t);
      StrayDelivery(steps, refused, output, c, groups, chosen, t);
    }
    if DefaultTaken(steps, refused, c) && FirstWaiting(steps, refused, c).None? && !ListedEdge(steps, |steps|, c.id, output) {
      var chosen :| Choosable(c, chosen) && !HasCase(steps, refused, c, chosen);
      DefaultDelivery(steps, refused, output, c, groups, chosen);
    }
  }

  /** A label without a case delivers to the default. */
  lemma DefaultDelivery(steps: seq<Step>, refused: set<Id>, output: Id, c: Step, groups: seq<EdgeGroup>, chosen: string)
    requires BuiltFor(steps, refused, output, c, groups) && !HasCase(steps, refused, c, chosen)
    ensures var t := DefaultOf(steps, refused, c, output);
      Deliveries(groups, c.id, chosen, t) == 1 + if JoinEdge(steps, refused, |steps|, c.id, t) then 1 else 0
    ensures DefaultOf(steps, refused, c, output) ==
      if FirstWaiting(steps, refused, c).Some? then FirstWaiting(steps, refused, c).value.id else output
  {
    var e := DeliveriesAre(steps, refused, output, c, groups, chosen, DefaultOf(steps, refused, c, output));
    SwitchRoutes(steps, refused, output, c, e, chosen);
    hide Deliveries, Route, EdgesExact, HasSwitch, IsJoin, SwitchFor, JoinEdge, ListedEdge, Listing, FirstUncased;
  }

  lemma DoubledDelivery(steps: seq<Step>, refused: set<Id>, output: Id, c: Step, groups: seq<EdgeGroup>, chosen: string, t: Id)
    requires BuiltFor(steps, refused, output, c, groups) && Deliveries(groups, c.id, chosen, t) > 1
    ensures !HasCase(steps, refused, c, chosen) && FirstWaiting(steps, refused, c).Some?
    ensures IsJoin(steps, refused, FirstWaiting(steps, refused, c).value)
  {
    var e := DeliveriesAre(steps, refused, output, c, groups, chosen, t);
    SwitchRoutes(steps, refused, output, c, e, chosen);
    hide Deliveries, Route, EdgesExact, HasSwitch, IsJoin, SwitchFor, JoinEdge, ListedEdge, Listing, FirstUncased;
    var s := JoinIsListed(steps, refused, c, t);
    if x :| x in steps && Cased(steps, refused, c, x) && x.inputBranch == chosen && x.id == t {
      SameStep(steps, x, s);
    }
    if w :| w in steps && FirstWaiting(steps, refused, c) == Some(w) && w.id == s.id {
      SameStep(steps, w, s);
    }
  }

  /** A condition can reach a step twice with one message exactly if some label it can choose has no case, and the first
      step without a case that waits for it is gathered by a fan-in group. */
  lemma DoublesIff(steps: seq<Step>, refused: set<Id>, output: Id, c: Step, groups: seq<EdgeGroup>)
    requires BuiltFor(steps, refused, output, c, groups)
    ensures Doubles(groups, c) <==>
      DefaultTaken(steps, refused, c) && FirstWaiting(steps, refused, c).Some? &&
      IsJoin(steps, refused, FirstWaiting(steps, refused, c).value)
  {
    hide HasCase, Deliveries, ListedEdge, SwitchFor, Route, EdgesExact, HasSwitch, IsJoin, JoinEdge, DefaultOf, FirstWaiting;
    if Doubles(groups, c) {
      var chosen, t :| Choosable(c, chosen) && Deliveries(groups, c.id, chosen, t) > 1;
      DoubledDelivery(steps, refused, output, c, groups, chosen, t);
    }
    var first := FirstWaiting(steps, refused, c);
    if DefaultTaken(steps, refused, c) && first.Some? && IsJoin(steps, refused, first.value) {
      var chosen :| Choosable(c, chosen) && !HasCase(steps, refused, c, chosen);
      DefaultDelivery(steps, refused, output, c, groups, chosen);
      JoinEdgeIff(steps, refused, c, first.value);
    }
  }

  // ----- One workflow for each

  /** A join of a condition and another step, with no label. */
  function JoinBelow(x: Id, c: Id, j: Id): seq<Step> {
    [Step(x, Agent, [], "", []), Step(c, NodeType.Condition, [], "", ["yes"]), Step(j, Agent, [c, x], "", [])]
  }

  /** The join is delivered to by its fan-in group and by the switch. */
  lemma JoinIsDoubled(x: Id, c: Id, j: Id, output: Id, groups: seq<EdgeGroup>)
    requires x != c && x != j && c != j
    requires BuiltFor(JoinBelow(x, c, j), {}, output, JoinBelow(x, c, j)[1], groups)
    ensures Deliveries(groups, c, "yes", j) == 2
  {
    var steps := JoinBelow(x, c, j);
    var cond, join := steps[1], steps[2];
    JoinJoins(x, c, j);
    assert forall s :: s in steps && c in s.dependsOn ==> s == join;
    assert c in join.dependsOn && !Cased(steps, {}, cond, join) && join in steps && cond in steps;
    hide BuiltFor, IsJoin, JoinEdge, DefaultOf, Deliveries, FirstWaiting;
    assert FirstWaiting(steps, {}, cond) == Some(join);
    DefaultDelivery(steps, {}, output, cond, groups, "yes");
    BuiltWell(steps, {}, output, cond, groups);
    JoinEdgeIff(steps, {}, cond, join);
  }

  lemma BuiltWell(steps: seq<Step>, refused: set<Id>, output: Id, c: Step, groups: seq<EdgeGroup>)
    requires BuiltFor(steps, refused, output, c, groups)
    ensures WellFormed(steps)
  {
  }

  lemma JoinJoins(x: Id, c: Id, j: Id)
    requires x != c && x != j && c != j
    ensures IsJoin(JoinBelow(x, c, j), {}, JoinBelow(x, c, j)[2])
  {
    var steps := JoinBelow(x, c, j);
    assert HasStep(steps, c) && HasStep(steps, x) by { assert steps[0].id == x && steps[1].id == c; }
    assert [c, x][..1] == [c] && [c][..0] == [];
    assert KnownDeps(steps, [c]) == [c] && KnownDeps(steps, [c, x]) == [c, x];
    assert forall s :: s in steps ==> s.inputBranch == "";
  }

  /** A condition with a step for one of its two labels, and an end step after that. */
  function LabelWithoutStep(c: Id, y: Id, z: Id): seq<Step> {
    [Step(c, NodeType.Condition, [], "", ["yes", "no"]), Step(y, Agent, [c], "yes", []), Step(z, NodeType.End, [y], "", [])]
  }

  /** Choosing the other label runs the end step, which does not wait for the condition. */
  lemma OutputIsReached(c: Id, y: Id, z: Id, groups: seq<EdgeGroup>)
    requires c != y && c != z && y != z
    requires BuiltFor(LabelWithoutStep(c, y, z), {}, z, LabelWithoutStep(c, y, z)[0], groups)
    ensures Deliveries(groups, c, "no", z) == 1 && !ListedEdge(LabelWithoutStep(c, y, z), 3, c, z)
  {
    var steps := LabelWithoutStep(c, y, z);
    var cond, step := steps[0], steps[1];
    NoJoin(steps, {}, step);
    assert forall s :: s in steps && c in s.dependsOn ==> s == step;
    assert Cased(steps, {}, cond, step) && cond in steps && step in steps;
    assert !ListedEdge(steps, 3, c, z);
    hide BuiltFor, IsJoin, JoinEdge, DefaultOf, Deliveries, FirstWaiting, ListedEdge;
    DefaultDelivery(steps, {}, z, cond, groups, "no");
    if JoinEdge(steps, {}, 3, c, z) {
      var s := JoinIsListed(steps, {}, cond, z);
    }
  }
}
