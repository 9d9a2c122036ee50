/** Turning the steps of a workflow into the edge groups of the execution library. */
module WorkflowBuild {
  import opened Wrappers
  import opened Graph
  import opened Sequences
  import opened WorkflowSteps
  import TopologicalValidate

  /** FanIn delivers once, when every source has sent. Switch delivers to its first case with the chosen label. */
  datatype EdgeGroup =
    | FanIn(sources: seq<Id>, target: Id)
    | FanOut(source: Id, targets: seq<Id>)
    | Single(source: Id, target: Id)
    | Switch(source: Id, cases: seq<(string, Id)>, otherwise: Id)

  datatype Workflow = Workflow(start: Id, outputs: seq<Id>, groups: seq<EdgeGroup>)

  datatype BuildError = NoSteps | MissingId | Cycle(step: Id)

  // ----- Reading the steps

  function FindStep(steps: seq<Step>, id: Id): (s: Step)
    requires HasStep(steps, id)
    ensures s in steps && s.id == id
  {
    if steps[0].id == id then steps[0] else
      assert steps == [steps[0]] + steps[1..];
      FindStep(steps[1..], id)
  }

  lemma {:induction false} FindStepUnique(steps: seq<Step>, s: Step)
    requires UniqueIds(steps) && s in steps
    ensures HasStep(steps, s.id) && FindStep(steps, s.id) == s
  {
    var i :| 0 <= i < |steps| && steps[i] == s;
    if i > 0 {
      assert steps[0].id != steps[i].id;
      assert steps[1..][i - 1] == s;
      FindStepUnique(steps[1..], s);
    }
  }

  function KnownDeps(steps: seq<Step>, deps: seq<Id>): (known: seq<Id>)
    ensures forall d :: d in known <==> d in deps && HasStep(steps, d)
    ensures Distinct(deps) ==> Distinct(known)
  {
    if deps == [] then [] else
      var rest := KnownDeps(steps, deps[..|deps| - 1]);
      var d := deps[|deps| - 1];
      if HasStep(steps, d) then rest + [d] else rest
  }

  lemma {:induction false} KnownInOrder(steps: seq<Step>, deps: seq<Id>)
    ensures TakenFrom(KnownDeps(steps, deps), deps)
  {
    if deps != [] {
      var n := |deps| - 1;
      assert deps == deps[..n] + [deps[n]];
      KnownInOrder(steps, deps[..n]);
      hide TakenFrom;
      TakenSkips(KnownDeps(steps, deps[..n]), deps[..n], deps[n]);
      TakenTakes(KnownDeps(steps, deps[..n]), deps[..n], deps[n]);
    }
  }

  /** The step's inputs are gathered by one fan-in group: it has several known dependencies, none of them
      carries a branch label, and the library did not refuse the group. */
  predicate IsJoin(steps: seq<Step>, refused: set<Id>, s: Step) {
    && |KnownDeps(steps, s.dependsOn)| > 1
    && (forall d :: d in KnownDeps(steps, s.dependsOn) ==> FindStep(steps, d).inputBranch == "")
    && s.id !in refused
  }

  ghost predicate WellFormed(steps: seq<Step>) {
    && UniqueIds(steps)
    && (forall s :: s in steps ==> Distinct(s.dependsOn))
  }

  // ----- What a list of edge groups delivers

  /** How many deliveries from d to t one group stands for, switches aside. */
  function GroupCount(e: EdgeGroup, d: Id, t: Id): nat {
    match e
    case FanIn(sources, target) => if target == t then multiset(sources)[d] else 0
    case FanOut(source, targets) => if source == d then multiset(targets)[t] else 0
    case Single(source, target) => if source == d && target == t then 1 else 0
    case Switch(_, _, _) => 0
  }

  function EdgeCount(groups: seq<EdgeGroup>, d: Id, t: Id): nat {
    if groups == [] then 0 else
      EdgeCount(groups[..|groups| - 1], d, t) + GroupCount(groups[|groups| - 1], d, t)
  }

  /** One of the first n steps is t, joins its dependencies, and d is one of them. */
  ghost predicate JoinEdge(steps: seq<Step>, refused: set<Id>, n: int, d: Id, t: Id) {
    exists k :: 0 <= k < n <= |steps| && steps[k].id == t && IsJoin(steps, refused, steps[k]) &&
                d in KnownDeps(steps, steps[k].dependsOn)
  }

  /** One of the first n steps is t and lists d. */
  ghost predicate ListedEdge(steps: seq<Step>, n: int, d: Id, t: Id) {
    exists k :: 0 <= k < n <= |steps| && steps[k].id == t && d in steps[k].dependsOn
  }

  ghost predicate GroupFaithful(steps: seq<Step>, refused: set<Id>, e: EdgeGroup) {
    match e
    case FanIn(sources, target) =>
      exists s :: s in steps && s.id == target && IsJoin(steps, refused, s) && sources == KnownDeps(steps, s.dependsOn)
    case FanOut(source, targets) =>
      && HasStep(steps, source) && !FindStep(steps, source).nodeType.Condition?
      && forall t :: t in targets ==> PlainEdge(steps, refused, source, t)
    case Single(source, target) =>
      && HasStep(steps, source) && !FindStep(steps, source).nodeType.Condition?
      && PlainEdge(steps, refused, source, target)
    case Switch(source, _, _) =>
      HasStep(steps, source) && FindStep(steps, source).nodeType.Condition?
  }

  /** t lists d and does not join its dependencies. */
  ghost predicate PlainEdge(steps: seq<Step>, refused: set<Id>, d: Id, t: Id) {
    exists s :: s in steps && s.id == t && d in s.dependsOn && !IsJoin(steps, refused, s)
  }

  lemma DistinctOnce<T>(s: seq<T>, x: T)
    requires Distinct(s)
    ensures multiset(s)[x] == if x in s then 1 else 0
  {
    if s != [] {
      var n := |s| - 1;
      assert s == s[..n] + [s[n]];
      DistinctOnce(s[..n], x);
    }
  }

  // ----- First pass: fan-in groups

  method FanInPass(steps: seq<Step>, refused: set<Id>) returns (groups: seq<EdgeGroup>, added: set<(Id, Id)>)
    ensures forall e :: e in groups ==> e.FanIn? && GroupFaithful(steps, refused, e)
    ensures forall d, t :: HasStep(steps, d) ==> ((d, t) in added <==> JoinEdge(steps, refused, |steps|, d, t))
    ensures CountsJoins(steps, refused, |steps|, groups)
  {
    groups, added := [], {};
    var i := 0;
    while i < |steps|
      invariant 0 <= i <= |steps|
      invariant forall e :: e in groups ==> e.FanIn? && GroupFaithful(steps, refused, e)
      invariant forall d, t :: HasStep(steps, d) ==> ((d, t) in added <==> JoinEdge(steps, refused, i, d, t))
      invariant CountsJoins(steps, refused, i, groups)
    {
      var s := steps[i];
      var deps := s.dependsOn;
      var before := groups;
      if |deps| > 1 {
        var sources := KnownDeps(steps, deps);
        var conditional := exists d :: d in sources && FindStep(steps, d).inputBranch != "";
        if !conditional && |sources| > 1 && s.id !in refused {
          groups := groups + [FanIn(sources, s.id)];
          added := added + set dep | dep in deps :: (dep, s.id);
        }
      }
      FewKnown(steps, deps);
      JoinCountStep(steps, refused, i, before, groups);
      JoinEdgeStep(steps, refused, i);
      i := i + 1;
    }
  }

  /** The first n steps' joins count once each. */
  ghost predicate CountsJoins(steps: seq<Step>, refused: set<Id>, n: int, groups: seq<EdgeGroup>) {
    WellFormed(steps) ==> forall d, t :: EdgeCount(groups, d, t) == if JoinEdge(steps, refused, n, d, t) then 1 else 0
  }

  lemma JoinCountStep(steps: seq<Step>, refused: set<Id>, i: nat, before: seq<EdgeGroup>, groups: seq<EdgeGroup>)
    requires i < |steps| && CountsJoins(steps, refused, i, before)
    requires groups == if IsJoin(steps, refused, steps[i])
                       then before + [FanIn(KnownDeps(steps, steps[i].dependsOn), steps[i].id)] else before
    ensures CountsJoins(steps, refused, i + 1, groups)
  {
    var s := steps[i];
    JoinEdgeStep(steps, refused, i);
    if WellFormed(steps) && IsJoin(steps, refused, s) {
      assert groups[..|groups| - 1] == before;
      assert Distinct(s.dependsOn) by { assert s in steps; }
      forall d, t ensures EdgeCount(groups, d, t) == if JoinEdge(steps, refused, i + 1, d, t) then 1 else 0 {
        DistinctOnce(KnownDeps(steps, s.dependsOn), d);
      }
    }
  }

  lemma FewKnown(steps: seq<Step>, deps: seq<Id>)
    ensures |KnownDeps(steps, deps)| <= |deps|
  {
  }

  lemma JoinEdgeStep(steps: seq<Step>, refused: set<Id>, i: nat)
    requires i < |steps|
    ensures forall d, t :: JoinEdge(steps, refused, i + 1, d, t) <==>
      JoinEdge(steps, refused, i, d, t) ||
      (t == steps[i].id && IsJoin(steps, refused, steps[i]) && d in KnownDeps(steps, steps[i].dependsOn))
  {
    forall d, t | JoinEdge(steps, refused, i, d, t) ensures JoinEdge(steps, refused, i + 1, d, t) {
      var k :| 0 <= k < i && steps[k].id == t && IsJoin(steps, refused, steps[k]) && d in KnownDeps(steps, steps[k].dependsOn);
    }
  }

  // ----- Second pass: who is downstream of whom

  /** Those of the first n steps that list d, in their order. */
  function Listing(steps: seq<Step>, n: nat, d: Id): seq<Step>
    requires n <= |steps|
  {
    if n == 0 then [] else
      var before := Listing(steps, n - 1, d);
      if d in steps[n - 1].dependsOn then before + [steps[n - 1]] else before
  }

  lemma {:induction false} ListingInOrder(steps: seq<Step>, n: nat, d: Id)
    requires n <= |steps|
    ensures TakenFrom(Listing(steps, n, d), steps[..n])
  {
    if n > 0 {
      ListingInOrder(steps, n - 1, d);
      assert steps[..n] == steps[..n - 1] + [steps[n - 1]];
      hide TakenFrom;
      TakenSkips(Listing(steps, n - 1, d), steps[..n - 1], steps[n - 1]);
      TakenTakes(Listing(steps, n - 1, d), steps[..n - 1], steps[n - 1]);
    }
  }

  /** ds lists in order, and once each, those of the first n steps that list d. */
  ghost predicate Downstream(steps: seq<Step>, n: int, d: Id, ds: seq<Step>) {
    && 0 <= n <= |steps| && ds == Listing(steps, n, d)
    && (forall s :: s in ds <==> s in steps[..n] && d in s.dependsOn)
    && (forall i, j :: 0 <= i < j < |ds| ==> ds[i].id != ds[j].id)
  }

  /** Which steps list a source, the sources in the order of their first mention. */
  datatype NodeDeps = NodeDeps(sources: seq<Id>, downs: map<Id, seq<Step>>)

  function AppendOne(steps: seq<Step>, nd: NodeDeps, dep: Id, s: Step): NodeDeps {
    if !HasStep(steps, dep) then nd
    else if dep in nd.downs then nd.(downs := nd.downs[dep := nd.downs[dep] + [s]])
    else NodeDeps(nd.sources + [dep], nd.downs[dep := [s]])
  }

  function AppendAll(steps: seq<Step>, nd: NodeDeps, deps: seq<Id>, s: Step): NodeDeps {
    if deps == [] then nd else
      AppendOne(steps, AppendAll(steps, nd, deps[..|deps| - 1], s), deps[|deps| - 1], s)
  }

  function Collect(steps: seq<Step>, n: nat): NodeDeps
    requires n <= |steps|
  {
    if n == 0 then NodeDeps([], map[]) else
      AppendAll(steps, Collect(steps, n - 1), steps[n - 1].dependsOn, steps[n - 1])
  }

  method DownstreamPass(steps: seq<Step>) returns (nd: NodeDeps)
    ensures nd == Collect(steps, |steps|)
  {
    nd := NodeDeps([], map[]);
    var i := 0;
    while i < |steps|
      invariant 0 <= i <= |steps| && nd == Collect(steps, i)
    {
      var s := steps[i];
      var j := 0;
      while j < |s.dependsOn|
        invariant 0 <= j <= |s.dependsOn| && nd == AppendAll(steps, Collect(steps, i), s.dependsOn[..j], s)
      {
        var dep := s.dependsOn[j];
        assert s.dependsOn[..j + 1][..j] == s.dependsOn[..j];
        if HasStep(steps, dep) {
          if dep !in nd.downs {
            nd := NodeDeps(nd.sources + [dep], nd.downs[dep := [s]]);
          } else {
            nd := nd.(downs := nd.downs[dep := nd.downs[dep] + [s]]);
          }
        }
        j := j + 1;
      }
      assert s.dependsOn[..j] == s.dependsOn;
      i := i + 1;
    }
  }

  /** One of the first n steps lists d. */
  ghost predicate Listed(steps: seq<Step>, n: int, d: Id) {
    exists k :: 0 <= k < n <= |steps| && d in steps[k].dependsOn
  }

  ghost function ListAt(nd: NodeDeps, d: Id): seq<Step> {
    if d in nd.downs then nd.downs[d] else []
  }

  ghost predicate Keyed(nd: NodeDeps) {
    Distinct(nd.sources) && forall d :: d in nd.sources <==> d in nd.downs
  }

  lemma {:induction false} AppendAllKeys(steps: seq<Step>, nd: NodeDeps, deps: seq<Id>, s: Step)
    requires Keyed(nd)
    ensures Keyed(AppendAll(steps, nd, deps, s))
    ensures forall d :: d in AppendAll(steps, nd, deps, s).downs <==> d in nd.downs || (d in deps && HasStep(steps, d))
  {
    if deps != [] {
      var n := |deps| - 1;
      AppendAllKeys(steps, nd, deps[..n], s);
      assert forall d :: d in deps <==> d in deps[..n] || d == deps[n];
    }
  }

  lemma {:induction false} AppendAllAt(steps: seq<Step>, nd: NodeDeps, deps: seq<Id>, s: Step, d: Id)
    requires Distinct(deps) && HasStep(steps, d)
    ensures ListAt(AppendAll(steps, nd, deps, s), d) == if d in deps then ListAt(nd, d) + [s] else ListAt(nd, d)
  {
    if deps != [] {
      var n := |deps| - 1;
      AppendAllAt(steps, nd, deps[..n], s, d);
      assert d in deps <==> d in deps[..n] || d == deps[n];
    }
  }

  /** What the second pass has collected after n steps. */
  ghost predicate Collected(steps: seq<Step>, n: int, nd: NodeDeps) {
    && Keyed(nd)
    && (forall d :: d in nd.downs <==> HasStep(steps, d) && Listed(steps, n, d))
    && (WellFormed(steps) ==> forall d :: HasStep(steps, d) ==> Downstream(steps, n, d, ListAt(nd, d)))
  }

  lemma {:induction false} CollectKeys(steps: seq<Step>, n: nat)
    requires n <= |steps|
    ensures Keyed(Collect(steps, n))
    ensures forall d :: d in Collect(steps, n).downs <==> HasStep(steps, d) && Listed(steps, n, d)
  {
    if n > 0 {
      CollectKeys(steps, n - 1);
      AppendAllKeys(steps, Collect(steps, n - 1), steps[n - 1].dependsOn, steps[n - 1]);
      ListedStep(steps, n - 1);
    }
  }

  lemma CollectNext(steps: seq<Step>, n: nat, d: Id, before: seq<Step>, after: seq<Step>)
    requires 0 < n <= |steps| && Distinct(steps[n - 1].dependsOn) && HasStep(steps, d)
    requires before == ListAt(Collect(steps, n - 1), d) && after == ListAt(Collect(steps, n), d)
    ensures after == if d in steps[n - 1].dependsOn then before + [steps[n - 1]] else before
  {
    AppendAllAt(steps, Collect(steps, n - 1), steps[n - 1].dependsOn, steps[n - 1], d);
  }

  lemma {:induction false} CollectDownstream(steps: seq<Step>, n: nat, d: Id, ds: seq<Step>)
    requires n <= |steps| && UniqueIds(steps) && HasStep(steps, d)
    requires forall i :: 0 <= i < |steps| ==> Distinct(steps[i].dependsOn)
    requires ds == ListAt(Collect(steps, n), d)
    ensures Downstream(steps, n, d, ds)
  {
    if n > 0 {
      var before := ListAt(Collect(steps, n - 1), d);
      CollectDownstream(steps, n - 1, d, before);
      CollectNext(steps, n, d, before, ds);
      DownstreamGrows(steps, n, d, before, ds);
    }
  }

  lemma CollectCollects(steps: seq<Step>)
    ensures Collected(steps, |steps|, Collect(steps, |steps|))
  {
    CollectKeys(steps, |steps|);
    if WellFormed(steps) {
      forall d | HasStep(steps, d) ensures Downstream(steps, |steps|, d, ListAt(Collect(steps, |steps|), d)) {
        CollectDownstream(steps, |steps|, d, ListAt(Collect(steps, |steps|), d));
      }
    }
  }

  lemma ListedStep(steps: seq<Step>, i: nat)
    requires i < |steps|
    ensures forall d :: Listed(steps, i + 1, d) <==> Listed(steps, i, d) || d in steps[i].dependsOn
  {
    forall d | Listed(steps, i, d) ensures Listed(steps, i + 1, d) {
      var k :| 0 <= k < i && d in steps[k].dependsOn;
    }
  }

  lemma DownstreamGrows(steps: seq<Step>, n: nat, d: Id, ds: seq<Step>, longer: seq<Step>)
    requires UniqueIds(steps) && 0 < n <= |steps| && Downstream(steps, n - 1, d, ds)
    requires longer == if d in steps[n - 1].dependsOn then ds + [steps[n - 1]] else ds
    ensures Downstream(steps, n, d, longer)
  {
    var s := steps[n - 1];
    assert steps[..n] == steps[..n - 1] + [s];
    forall x | x in ds ensures x.id != s.id {
      var k :| 0 <= k < n - 1 && steps[..n - 1][k] == x;
      assert steps[k] == x;
    }
    forall a, b | 0 <= a < b < |longer| ensures longer[a].id != longer[b].id {
      if b == |ds| {
        assert longer[a] == ds[a];
      }
    }
  }

  // ----- Third pass: switches, fan-outs and single edges

  /** Some step of ds is t and carries label b. */
  ghost predicate LabelledFor(ds: seq<Step>, b: string, t: Id) {
    exists s :: s in ds && s.id == t && s.inputBranch == b
  }

  ghost predicate LeadsTo(cases: seq<(string, Id)>, t: Id) {
    exists i :: 0 <= i < |cases| && cases[i].1 == t
  }

  /** Each case leads to a step of ds with that label which no fan-in group serves yet. */
  ghost predicate CasesSound(source: Id, branches: seq<string>, ds: seq<Step>, added: set<(Id, Id)>,
                             cases: seq<(string, Id)>) {
    forall i :: 0 <= i < |cases| ==>
      LabelledFor(ds, cases[i].0, cases[i].1) && cases[i].0 in branches && (source, cases[i].1) !in added
  }

  /** The cases of a condition, in the order of its branches; grouped holds the ids they lead to. */
  method BranchCases(source: Id, branches: seq<string>, ds: seq<Step>, added: set<(Id, Id)>)
    returns (cases: seq<(string, Id)>, grouped: set<Id>)
    ensures CasesSound(source, branches, ds, added, cases)
    ensures forall t :: t in grouped <==> LeadsTo(cases, t)
    ensures forall s :: s in ds && s.inputBranch in branches && (source, s.id) !in added ==> s.id in grouped
  {
    cases, grouped := [], {};
    var i := 0;
    while i < |branches|
      invariant 0 <= i <= |branches|
      invariant CasesSound(source, branches, ds, added, cases)
      invariant forall t :: t in grouped <==> LeadsTo(cases, t)
      invariant forall s :: s in ds && s.inputBranch in branches[..i] && (source, s.id) !in added ==> s.id in grouped
    {
      assert branches[..i + 1] == branches[..i] + [branches[i]];
      cases, grouped := CasesForLabel(source, branches, branches[i], ds, added, cases, grouped);
      i := i + 1;
    }
    assert branches[..i] == branches;
  }

  method CasesForLabel(source: Id, branches: seq<string>, b: string, ds: seq<Step>, added: set<(Id, Id)>,
                       cases0: seq<(string, Id)>, grouped0: set<Id>)
    returns (cases: seq<(string, Id)>, grouped: set<Id>)
    requires b in branches && CasesSound(source, branches, ds, added, cases0)
    requires forall t :: t in grouped0 <==> LeadsTo(cases0, t)
    ensures CasesSound(source, branches, ds, added, cases)
    ensures forall t :: t in grouped <==> LeadsTo(cases, t)
    ensures grouped0 <= grouped
    ensures forall s :: s in ds && s.inputBranch == b && (source, s.id) !in added ==> s.id in grouped
  {
    cases, grouped := cases0, grouped0;
    var j := 0;
    while j < |ds|
      invariant 0 <= j <= |ds|
      invariant CasesSound(source, branches, ds, added, cases)
      invariant forall t :: t in grouped <==> LeadsTo(cases, t)
      invariant grouped0 <= grouped
      invariant forall s :: s in ds[..j] && s.inputBranch == b && (source, s.id) !in added ==> s.id in grouped
    {
      var s := ds[j];
      assert ds[..j + 1] == ds[..j] + [s];
      if s.inputBranch == b && (source, s.id) !in added && s.id !in grouped {
        LeadsToAppend(cases, (b, s.id));
        assert s in ds && LabelledFor(ds, b, s.id);
        cases := cases + [(b, s.id)];
        grouped := grouped + {s.id};
      }
      j := j + 1;
    }
    assert ds[..j] == ds;
  }

  lemma LeadsToAppend(cases: seq<(string, Id)>, c: (string, Id))
    ensures forall t :: LeadsTo(cases + [c], t) <==> LeadsTo(cases, t) || t == c.1
  {
    var longer := cases + [c];
    forall t | LeadsTo(cases, t) ensures LeadsTo(longer, t) {
      var i :| 0 <= i < |cases| && cases[i].1 == t;
      assert longer[i].1 == t;
    }
    assert longer[|cases|] == c;
  }

  /** The ids of the steps of ds that the source does not reach yet. */
  function Unlinked(source: Id, ds: seq<Step>, added: set<(Id, Id)>): (ids: seq<Id>)
    ensures forall t :: t in ids <==> exists s :: s in ds && s.id == t && (source, t) !in added
    ensures (forall i, j :: 0 <= i < j < |ds| ==> ds[i].id != ds[j].id) ==> Distinct(ids)
  {
    if ds == [] then [] else
      var n := |ds| - 1;
      var rest := Unlinked(source, ds[..n], added);
      assert ds == ds[..n] + [ds[n]];
      if (source, ds[n].id) in added then rest else rest + [ds[n].id]
  }

  /** The edges that exist once the sources in done have been linked. */
  ghost predicate Linked(steps: seq<Step>, refused: set<Id>, done: seq<Id>, d: Id, t: Id) {
    || JoinEdge(steps, refused, |steps|, d, t)
    || (d in done && HasStep(steps, d) && !FindStep(steps, d).nodeType.Condition? && PlainEdge(steps, refused, d, t))
  }

  ghost predicate CountsLinked(steps: seq<Step>, refused: set<Id>, done: seq<Id>, groups: seq<EdgeGroup>) {
    forall d, t :: EdgeCount(groups, d, t) == if Linked(steps, refused, done, d, t) then 1 else 0
  }

  ghost predicate JoinsAdded(steps: seq<Step>, refused: set<Id>, added: set<(Id, Id)>) {
    forall d, t :: HasStep(steps, d) ==> ((d, t) in added <==> JoinEdge(steps, refused, |steps|, d, t))
  }

  /** The one group that leads from a source to the steps that list it and are not yet linked to it, if any. */
  method LinkSource(steps: seq<Step>, outputs: seq<Id>, added: set<(Id, Id)>, source: Id, ds: seq<Step>)
    returns (group: Option<EdgeGroup>)
    requires HasStep(steps, source) && outputs != []
    ensures IsLink(steps, outputs[0], added, source, ds, group)
  {
    var step := FindStep(steps, source);
    if step.nodeType.Condition? {
      var cases, grouped := BranchCases(source, step.branches, ds, added);
      var i := 0;
      while i < |ds| && ds[i].id in grouped
        invariant 0 <= i <= |ds|
        invariant forall k :: 0 <= k < i ==> ds[k].id in grouped
      {
        i := i + 1;
      }
      var otherwise := if i < |ds| then ds[i].id else outputs[0];
      group := Some(Switch(source, cases, otherwise));
    } else {
      group := LinkGroup(source, Unlinked(source, ds, added));
    }
  }

  function LinkGroup(source: Id, targets: seq<Id>): Option<EdgeGroup> {
    if |targets| > 1 then Some(FanOut(source, targets))
    else if |targets| == 1 then Some(Single(source, targets[0]))
    else None
  }

  /** group is what leads from the source to the steps ds that list it: a switch, or an edge to those not yet linked. */
  ghost predicate IsLink(steps: seq<Step>, output: Id, added: set<(Id, Id)>, source: Id, ds: seq<Step>,
                         group: Option<EdgeGroup>)
    requires HasStep(steps, source)
  {
    if FindStep(steps, source).nodeType.Condition? then
      group.Some? && IsSwitchFor(group.value, FindStep(steps, source), output, ds, added)
    else
      group == LinkGroup(source, Unlinked(source, ds, added))
  }

  /** The cases cover every step labelled with a branch and not joined; the rest go to the first other step. */
  ghost predicate IsSwitchFor(e: EdgeGroup, step: Step, output: Id, ds: seq<Step>, added: set<(Id, Id)>) {
    && e.Switch? && e.source == step.id
    && CasesSound(step.id, step.branches, ds, added, e.cases)
    && (forall s :: s in ds && s.inputBranch in step.branches && (step.id, s.id) !in added ==> LeadsTo(e.cases, s.id))
    && ((forall s :: s in ds ==> LeadsTo(e.cases, s.id)) ==> e.otherwise == output)
    && ((exists s :: s in ds && !LeadsTo(e.cases, s.id)) ==>
          exists k :: 0 <= k < |ds| && e.otherwise == ds[k].id && !LeadsTo(e.cases, ds[k].id) &&
                      forall j :: 0 <= j < k ==> LeadsTo(e.cases, ds[j].id))
  }

  /** Linking one plain source adds exactly its plain edges. */
  lemma LinkedStep(steps: seq<Step>, refused: set<Id>, added: set<(Id, Id)>, done: seq<Id>, source: Id,
                   ds: seq<Step>, groups: seq<EdgeGroup>)
    requires WellFormed(steps) && JoinsAdded(steps, refused, added)
    requires HasStep(steps, source) && !FindStep(steps, source).nodeType.Condition? && source !in done
    requires Downstream(steps, |steps|, source, ds)
    requires CountsLinked(steps, refused, done, groups)
    ensures var group := LinkGroup(source, Unlinked(source, ds, added));
      && CountsLinked(steps, refused, done + [source], if group.Some? then groups + [group.value] else groups)
      && (group.Some? ==> GroupFaithful(steps, refused, group.value))
  {
    var ids := Unlinked(source, ds, added);
    forall t ensures t in ids <==> PlainEdge(steps, refused, source, t) {
      UnlinkedPlain(steps, refused, added, source, ds, t);
    }
    var group := LinkGroup(source, ids);
    var longer := if group.Some? then groups + [group.value] else groups;
    forall d, t ensures EdgeCount(longer, d, t) == if Linked(steps, refused, done + [source], d, t) then 1 else 0 {
      DistinctOnce(ids, t);
      if group.Some? { assert longer[..|longer| - 1] == groups; }
      if d == source && t in ids {
        assert (source, t) !in added;
        assert !Linked(steps, refused, done, d, t);
      }
    }
  }

  lemma UnlinkedPlain(steps: seq<Step>, refused: set<Id>, added: set<(Id, Id)>, source: Id, ds: seq<Step>, t: Id)
    requires WellFormed(steps) && JoinsAdded(steps, refused, added)
    requires HasStep(steps, source) && Downstream(steps, |steps|, source, ds)
    ensures t in Unlinked(source, ds, added) <==> PlainEdge(steps, refused, source, t)
  {
    assert steps[..|steps|] == steps;
    if t in Unlinked(source, ds, added) {
      var s :| s in ds && s.id == t && (source, t) !in added;
      var k :| 0 <= k < |steps| && steps[k] == s;
      assert !JoinEdge(steps, refused, |steps|, source, t);
      assert !IsJoin(steps, refused, s);
    }
    if PlainEdge(steps, refused, source, t) {
      var s :| s in steps && s.id == t && source in s.dependsOn && !IsJoin(steps, refused, s);
      var k :| 0 <= k < |steps| && steps[k] == s;
      assert !JoinEdge(steps, refused, |steps|, source, t);
      assert s in ds && s.id == t && (source, t) !in added;
    }
  }

  /** The conditions in done have one switch each, built from what is downstream of them. */
  ghost predicate Switched(steps: seq<Step>, refused: set<Id>, output: Id, done: seq<Id>, groups: seq<EdgeGroup>) {
    && (forall k :: 0 <= k < |groups| && groups[k].Switch? ==> groups[k].source in done)
    && (forall i, j :: 0 <= i < j < |groups| && groups[i].Switch? && groups[j].Switch? ==> groups[i].source != groups[j].source)
    && (forall d :: d in done && HasStep(steps, d) && FindStep(steps, d).nodeType.Condition? ==>
          exists k :: 0 <= k < |groups| && SwitchFor(steps, refused, output, d, groups[k]))
  }

  /** e is the switch of condition d. */
  ghost predicate SwitchFor(steps: seq<Step>, refused: set<Id>, output: Id, d: Id, e: EdgeGroup) {
    && HasStep(steps, d)
    && exists ds, added :: JoinsAdded(steps, refused, added) && Downstream(steps, |steps|, d, ds) &&
                           IsSwitchFor(e, FindStep(steps, d), output, ds, added)
  }

  lemma SwitchedStep(steps: seq<Step>, refused: set<Id>, output: Id, done: seq<Id>, groups: seq<EdgeGroup>,
                     d: Id, group: Option<EdgeGroup>)
    requires Switched(steps, refused, output, done, groups) && d !in done && HasStep(steps, d)
    requires FindStep(steps, d).nodeType.Condition? ==>
      group.Some? && group.value.Switch? && group.value.source == d && SwitchFor(steps, refused, output, d, group.value)
    requires !FindStep(steps, d).nodeType.Condition? ==> group.Some? ==> !group.value.Switch?
    ensures Switched(steps, refused, output, done + [d], if group.Some? then groups + [group.value] else groups)
  {
    var longer := if group.Some? then groups + [group.value] else groups;
    assert groups == longer[..|groups|];
    forall x | x in done + [d] && HasStep(steps, x) && FindStep(steps, x).nodeType.Condition?
      ensures exists k :: 0 <= k < |longer| && SwitchFor(steps, refused, output, x, longer[k])
    {
      if x == d {
        assert longer[|groups|] == group.value;
      } else {
        var k :| 0 <= k < |groups| && SwitchFor(steps, refused, output, x, groups[k]);
        assert longer[k] == groups[k];
      }
    }
  }

  /** What the groups are once the sources in done are linked, for steps without repeated ids or dependencies. */
  ghost predicate LinkedUpTo(steps: seq<Step>, refused: set<Id>, output: Id, done: seq<Id>, groups: seq<EdgeGroup>) {
    && (forall e :: e in groups ==> GroupFaithful(steps, refused, e))
    && CountsLinked(steps, refused, done, groups)
    && Switched(steps, refused, output, done, groups)
  }

  lemma LinkedUpToStep(steps: seq<Step>, refused: set<Id>, output: Id, added: set<(Id, Id)>, done: seq<Id>, source: Id,
                       ds: seq<Step>, groups: seq<EdgeGroup>, group: Option<EdgeGroup>)
    requires WellFormed(steps) && JoinsAdded(steps, refused, added) && LinkedUpTo(steps, refused, output, done, groups)
    requires HasStep(steps, source) && source !in done && Downstream(steps, |steps|, source, ds)
    requires IsLink(steps, output, added, source, ds, group)
    ensures LinkedUpTo(steps, refused, output, done + [source], if group.Some? then groups + [group.value] else groups)
  {
    if FindStep(steps, source).nodeType.Condition? {
      assert SwitchFor(steps, refused, output, source, group.value);
      SwitchedStep(steps, refused, output, done, groups, source, group);
      SwitchCounts(steps, refused, done, source, groups, group.value);
      assert GroupFaithful(steps, refused, group.value);
    } else {
      SwitchedStep(steps, refused, output, done, groups, source, group);
      LinkedStep(steps, refused, added, done, source, ds, groups);
    }
  }

  lemma SwitchCounts(steps: seq<Step>, refused: set<Id>, done: seq<Id>, source: Id, groups: seq<EdgeGroup>,
                     e: EdgeGroup)
    requires CountsLinked(steps, refused, done, groups) && e.Switch?
    requires HasStep(steps, source) && FindStep(steps, source).nodeType.Condition?
    ensures CountsLinked(steps, refused, done + [source], groups + [e])
  {
    assert (groups + [e])[..|groups|] == groups;
    forall d, t ensures Linked(steps, refused, done + [source], d, t) <==> Linked(steps, refused, done, d, t) {}
  }

  lemma NextPrefix(s: seq<Id>, n: nat)
    requires n < |s| && Distinct(s)
    ensures s[..n + 1] == s[..n] + [s[n]] && s[n] !in s[..n]
  {
  }

  /** LinkedUpTo for the first n sources, promised for steps without repeated ids or dependencies. */
  ghost predicate Progress(steps: seq<Step>, refused: set<Id>, output: Id, sources: seq<Id>, n: int,
                           groups: seq<EdgeGroup>) {
    0 <= n <= |sources| && (WellFormed(steps) ==> LinkedUpTo(steps, refused, output, sources[..n], groups))
  }

  lemma ProgressStep(steps: seq<Step>, refused: set<Id>, output: Id, added: set<(Id, Id)>, nd: NodeDeps, n: nat,
                     groups: seq<EdgeGroup>, group: Option<EdgeGroup>)
    requires n < |nd.sources| && Collected(steps, |steps|, nd)
    requires nd.sources[n] in nd.downs && HasStep(steps, nd.sources[n])
    requires JoinsAdded(steps, refused, added) && Progress(steps, refused, output, nd.sources, n, groups)
    requires IsLink(steps, output, added, nd.sources[n], nd.downs[nd.sources[n]], group)
    ensures Progress(steps, refused, output, nd.sources, n + 1, if group.Some? then groups + [group.value] else groups)
  {
    if WellFormed(steps) {
      NextPrefix(nd.sources, n);
      assert ListAt(nd, nd.sources[n]) == nd.downs[nd.sources[n]];
      LinkedUpToStep(steps, refused, output, added, nd.sources[..n], nd.sources[n], nd.downs[nd.sources[n]], groups, group);
    }
  }

  method LinkPass(steps: seq<Step>, ghost refused: set<Id>, outputs: seq<Id>, joins: seq<EdgeGroup>,
                  added: set<(Id, Id)>, nd: NodeDeps)
    returns (groups: seq<EdgeGroup>)
    requires outputs != [] && Collected(steps, |steps|, nd)
    requires JoinsAdded(steps, refused, added)
    requires Progress(steps, refused, outputs[0], nd.sources, 0, joins)
    ensures Progress(steps, refused, outputs[0], nd.sources, |nd.sources|, groups)
  {
    groups := joins;
    var n := 0;
    while n < |nd.sources|
      invariant Progress(steps, refused, outputs[0], nd.sources, n, groups)
    {
      assert nd.sources[n] in nd.downs;
      var group := LinkSource(steps, outputs, added, nd.sources[n], nd.downs[nd.sources[n]]);
      ProgressStep(steps, refused, outputs[0], added, nd, n, groups, group);
      groups := if group.Some? then groups + [group.value] else groups;
      n := n + 1;
    }
  }

  function EndIds(steps: seq<Step>): (ids: seq<Id>)
    ensures forall x :: x in ids <==> exists s :: s in steps && s.nodeType.End? && s.id == x
  {
    if steps == [] then [] else
      var n := |steps| - 1;
      assert steps == steps[..n] + [steps[n]];
      EndIds(steps[..n]) + if steps[n].nodeType.End? then [steps[n].id] else []
  }

  /** The end steps are named in their order. */
  lemma {:induction false} EndsInOrder(steps: seq<Step>)
    ensures TakenFrom(EndIds(steps), Ids(steps))
  {
    if steps != [] {
      var n := |steps| - 1;
      EndsInOrder(steps[..n]);
      assert Ids(steps) == Ids(steps[..n]) + [steps[n].id];
      var before := EndIds(steps[..n]);
      hide TakenFrom;
      assert before + [] == before;
      TakenSkips(before, Ids(steps[..n]), steps[n].id);
      TakenTakes(before, Ids(steps[..n]), steps[n].id);
    }
  }

  /** The first start node, or the first step when there is none. */
  function StartOf(steps: seq<Step>): (s: Step)
    requires steps != []
    ensures s in steps
    ensures s.nodeType.Start? || (s == steps[0] && forall x :: x in steps ==> !x.nodeType.Start?)
    ensures exists i :: 0 <= i < |steps| && steps[i] == s && forall j :: 0 <= j < i ==> !steps[j].nodeType.Start?
  {
    if exists i :: 0 <= i < |steps| && steps[i].nodeType.Start? then FirstStart(steps) else steps[0]
  }

  function FirstStart(steps: seq<Step>): (s: Step)
    requires exists i :: 0 <= i < |steps| && steps[i].nodeType.Start?
    ensures s in steps && s.nodeType.Start?
    ensures exists i :: 0 <= i < |steps| && steps[i] == s && forall j :: 0 <= j < i ==> !steps[j].nodeType.Start?
  {
    if steps[0].nodeType.Start? then steps[0] else
      assert steps == [steps[0]] + steps[1..];
      assert forall j :: 0 < j < |steps| ==> steps[j] == steps[1..][j - 1];
      FirstStart(steps[1..])
  }

  /** Switches aside, the groups hold one delivery for each listed dependency on a known step that is no condition, one
      from each condition that a fan-in group gathers, and none besides. */
  ghost predicate EdgesExact(steps: seq<Step>, refused: set<Id>, groups: seq<EdgeGroup>) {
    && (forall e :: e in groups ==> GroupFaithful(steps, refused, e))
    && (forall d, t :: HasStep(steps, d) && !FindStep(steps, d).nodeType.Condition? ==>
          EdgeCount(groups, d, t) == if ListedEdge(steps, |steps|, d, t) then 1 else 0)
    && (forall d, t :: HasStep(steps, d) && FindStep(steps, d).nodeType.Condition? ==>
          EdgeCount(groups, d, t) == if JoinEdge(steps, refused, |steps|, d, t) then 1 else 0)
    && (forall d, t :: !HasStep(steps, d) ==> EdgeCount(groups, d, t) == 0)
  }

  // ----- Which steps are gathered

  lemma {:induction false} EdgeCountAt(groups: seq<EdgeGroup>, i: nat, d: Id, t: Id)
    requires i < |groups|
    ensures EdgeCount(groups, d, t) >= GroupCount(groups[i], d, t)
  {
    var n := |groups| - 1;
    if i < n {
      EdgeCountAt(groups[..n], i, d, t);
    }
  }

  lemma {:induction false} EdgeCountPair(groups: seq<EdgeGroup>, i: nat, j: nat, d: Id, t: Id)
    requires i < j < |groups|
    ensures EdgeCount(groups, d, t) >= GroupCount(groups[i], d, t) + GroupCount(groups[j], d, t)
  {
    var n := |groups| - 1;
    if j < n {
      EdgeCountPair(groups[..n], i, j, d, t);
    } else {
      EdgeCountAt(groups[..n], i, d, t);
    }
  }

  lemma {:induction false} EdgeCountSome(groups: seq<EdgeGroup>, d: Id, t: Id) returns (k: nat)
    requires EdgeCount(groups, d, t) > 0
    ensures k < |groups| && GroupCount(groups[k], d, t) > 0
  {
    var n := |groups| - 1;
    if GroupCount(groups[n], d, t) > 0 {
      k := n;
    } else {
      k := EdgeCountSome(groups[..n], d, t);
    }
  }

  /** s waits for several steps that there are. */
  ghost predicate Several(steps: seq<Step>, s: Step) {
    exists d, e :: d in s.dependsOn && e in s.dependsOn && d != e && HasStep(steps, d) && HasStep(steps, e)
  }

  /** s waits for a step that carries a branch label. */
  ghost predicate BelowBranch(steps: seq<Step>, s: Step) {
    exists d :: d in steps && d.id in s.dependsOn && d.inputBranch != ""
  }

  /** e gathers just the steps that s waits for. */
  ghost predicate GathersFor(steps: seq<Step>, e: EdgeGroup, s: Step) {
    && e.FanIn? && e.target == s.id && Distinct(e.sources)
    && forall d :: d in e.sources <==> d in s.dependsOn && HasStep(steps, d)
  }

  /** Group number k is the only fan-in group that leads to t. */
  ghost predicate OneFanIn(groups: seq<EdgeGroup>, k: nat, t: Id) {
    && k < |groups| && groups[k].FanIn? && groups[k].target == t
    && forall j :: 0 <= j < |groups| && j != k && groups[j].FanIn? ==> groups[j].target != t
  }

  /** s waits for several steps, none of them on a branch, and the library does not refuse to gather them. */
  ghost predicate Gatherable(steps: seq<Step>, refused: set<Id>, s: Step) {
    Several(steps, s) && !BelowBranch(steps, s) && s.id !in refused
  }

  /** Just those steps are gathered by a fan-in group, by one only and with all they wait for. */
  ghost predicate GatheredExactly(steps: seq<Step>, refused: set<Id>, groups: seq<EdgeGroup>) {
    && (forall e :: e in groups && e.FanIn? ==>
          exists s :: s in steps && GathersFor(steps, e, s) && Gatherable(steps, refused, s))
    && (forall s :: s in steps && Gatherable(steps, refused, s) ==>
          exists k: nat :: OneFanIn(groups, k, s.id) && GathersFor(steps, groups[k], s))
  }

  lemma TwoOf<T>(s: seq<T>, a: T, b: T)
    requires a in s && b in s && a != b
    ensures |s| > 1
  {
    var i :| 0 <= i < |s| && s[i] == a;
    var j :| 0 <= j < |s| && s[j] == b;
  }

  lemma JoinIff(steps: seq<Step>, refused: set<Id>, s: Step)
    requires WellFormed(steps) && s in steps
    ensures IsJoin(steps, refused, s) <==> Gatherable(steps, refused, s)
  {
    var known := KnownDeps(steps, s.dependsOn);
    if |known| > 1 {
      assert known[0] in known && known[1] in known && known[0] != known[1];
    }
    if d, e :| d in s.dependsOn && e in s.dependsOn && d != e && HasStep(steps, d) && HasStep(steps, e) {
      TwoOf(known, d, e);
    }
    if d :| d in known && FindStep(steps, d).inputBranch != "" {
      assert FindStep(steps, d) in steps && FindStep(steps, d).id in s.dependsOn;
    }
    if x :| x in steps && x.id in s.dependsOn && x.inputBranch != "" {
      FindStepUnique(steps, x);
      assert x.id in known;
    }
  }

  lemma GroupGathers(steps: seq<Step>, refused: set<Id>, e: EdgeGroup) returns (s: Step)
    requires WellFormed(steps) && GroupFaithful(steps, refused, e) && e.FanIn?
    ensures s in steps && GathersFor(steps, e, s) && IsJoin(steps, refused, s) && e.sources == KnownDeps(steps, s.dependsOn)
  {
    s :| s in steps && s.id == e.target && IsJoin(steps, refused, s) && e.sources == KnownDeps(steps, s.dependsOn);
  }

  lemma CountOfJoin(steps: seq<Step>, refused: set<Id>, groups: seq<EdgeGroup>, s: Step, d: Id)
    requires WellFormed(steps) && EdgesExact(steps, refused, groups) && s in steps && IsJoin(steps, refused, s)
    requires d in KnownDeps(steps, s.dependsOn)
    ensures EdgeCount(groups, d, s.id) == 1
  {
    var i :| 0 <= i < |steps| && steps[i] == s;
    hide IsJoin, EdgeCount, FindStep;
    assert ListedEdge(steps, |steps|, d, s.id) && JoinEdge(steps, refused, |steps|, d, s.id);
  }

  lemma CountsOnce(steps: seq<Step>, refused: set<Id>, groups: seq<EdgeGroup>, s: Step, k: nat, d: Id)
    requires WellFormed(steps) && EdgesExact(steps, refused, groups) && s in steps && k < |groups|
    requires groups[k].FanIn? && groups[k].target == s.id && d in KnownDeps(steps, s.dependsOn)
    ensures GroupCount(groups[k], d, s.id) == 1 && GathersFor(steps, groups[k], s)
  {
    assert groups[k] in groups && GroupFaithful(steps, refused, groups[k]);
    var x := GroupGathers(steps, refused, groups[k]);
    SameStep(steps, x, s);
    DistinctOnce(groups[k].sources, d);
  }

  lemma JoinHasGroup(steps: seq<Step>, refused: set<Id>, groups: seq<EdgeGroup>, s: Step) returns (k: nat)
    requires WellFormed(steps) && EdgesExact(steps, refused, groups) && s in steps && IsJoin(steps, refused, s)
    ensures OneFanIn(groups, k, s.id) && GathersFor(steps, groups[k], s)
  {
    var d := KnownDeps(steps, s.dependsOn)[0];
    assert d in KnownDeps(steps, s.dependsOn);
    CountOfJoin(steps, refused, groups, s, d);
    k := EdgeCountSome(groups, d, s.id);
    assert groups[k] in groups && GroupFaithful(steps, refused, groups[k]);
    NoPlainToJoin(steps, refused, groups[k], s, d);
    hide EdgesExact, IsJoin, EdgeCount, GroupCount, KnownDeps, WellFormed, GathersFor;
    CountsOnce(steps, refused, groups, s, k, d);
    forall j | 0 <= j < |groups| && j != k && groups[j].FanIn? ensures groups[j].target != s.id {
      if groups[j].target == s.id {
        CountsOnce(steps, refused, groups, s, j, d);
        if j < k {
          EdgeCountPair(groups, j, k, d, s.id);
        } else {
          EdgeCountPair(groups, k, j, d, s.id);
        }
      }
    }
  }

  lemma NoPlainToJoin(steps: seq<Step>, refused: set<Id>, e: EdgeGroup, s: Step, d: Id)
    requires WellFormed(steps) && s in steps && IsJoin(steps, refused, s)
    requires GroupFaithful(steps, refused, e) && GroupCount(e, d, s.id) > 0
    ensures e.FanIn? && e.target == s.id
  {
    PlainNotJoin(steps, refused, d, s);
    hide IsJoin, PlainEdge;
  }

  lemma PlainNotJoin(steps: seq<Step>, refused: set<Id>, d: Id, s: Step)
    requires WellFormed(steps) && s in steps && IsJoin(steps, refused, s)
    ensures !PlainEdge(steps, refused, d, s.id)
  {
    hide IsJoin;
    if x :| x in steps && x.id == s.id && d in x.dependsOn && !IsJoin(steps, refused, x) {
      SameStep(steps, x, s);
    }
  }

  lemma EdgesGather(steps: seq<Step>, refused: set<Id>, groups: seq<EdgeGroup>)
    requires WellFormed(steps) && EdgesExact(steps, refused, groups)
    ensures GatheredExactly(steps, refused, groups)
  {
    hide IsJoin, Gatherable, GathersFor, WellFormed, GroupFaithful, EdgeCount;
    forall e | e in groups && e.FanIn?
      ensures exists s :: s in steps && GathersFor(steps, e, s) && Gatherable(steps, refused, s)
    {
      var s := GroupGathers(steps, refused, e);
      JoinIff(steps, refused, s);
    }
    forall s | s in steps && Gatherable(steps, refused, s)
      ensures exists k: nat :: OneFanIn(groups, k, s.id) && GathersFor(steps, groups[k], s)
    {
      JoinIff(steps, refused, s);
      var k := JoinHasGroup(steps, refused, groups, s);
    }
  }

  /** Builds the workflow. refused are the steps whose fan-in group the library turns down. */
  method BuildWorkflow(steps: seq<Step>, refused: set<Id>) returns (r: Result<Workflow, BuildError>,
                       ghost order: seq<Id>)
    ensures r.Ok? <==> steps != [] && !Cyclic(DepsOf(steps)) && forall s :: s in steps ==> s.id != Blank
    ensures r.Ok? ==> Topological(DepsOf(steps), order)
    ensures r.Ok? ==> r.value.start == StartOf(steps).id
    ensures r.Ok? ==> r.value.outputs == if EndIds(steps) != [] then EndIds(steps) else [steps[|steps| - 1].id]
    ensures r.Ok? && WellFormed(steps) ==> EdgesExact(steps, refused, r.value.groups)
    ensures r.Ok? && WellFormed(steps) ==> GatheredExactly(steps, refused, r.value.groups)
    ensures r.Ok? && WellFormed(steps) ==>
      forall c :: c in steps && c.nodeType.Condition? && Listed(steps, |steps|, c.id) ==>
        HasSwitch(steps, refused, r.value.outputs[0], c.id, r.value.groups)
    ensures r.Ok? && WellFormed(steps) ==> forall e :: e in r.value.groups && e.Switch? ==> Listed(steps, |steps|, e.source)
    ensures r == Err(NoSteps) <==> steps == [] && !Cyclic(DepsOf(steps))
    ensures r == Err(MissingId) <==> !Cyclic(DepsOf(steps)) && exists s :: s in steps && s.id == Blank
  {
    var checked;
    checked, order := TopologicalValidate.Validate(steps);
    if checked.Err? { return Err(Cycle(checked.error)), order; }
    var i := 0;
    while i < |steps|
      invariant 0 <= i <= |steps| && forall k :: 0 <= k < i ==> steps[k].id != Blank
    {
      if steps[i].id == Blank {
        assert steps[i] in steps;
        return Err(MissingId), order;
      }
      i := i + 1;
    }
    if steps == [] { return Err(NoSteps), order; }
    var outputs := if EndIds(steps) != [] then EndIds(steps) else [steps[|steps| - 1].id];
    var joins, added := FanInPass(steps, refused);
    var nd := DownstreamPass(steps);
    CollectCollects(steps);
    if WellFormed(steps) { NothingLinked(steps, refused, outputs[0], joins); }
    assert nd.sources[..0] == [];
    var groups := LinkPass(steps, refused, outputs, joins, added, nd);
    assert nd.sources[..|nd.sources|] == nd.sources;
    if WellFormed(steps) {
      LinkedExact(steps, refused, outputs[0], nd, groups);
      EdgesGather(steps, refused, groups);
    }
    r := Ok(Workflow(StartOf(steps).id, outputs, groups));
  }

  /** The groups hold the switch of condition c, and no second one for it. */
  ghost predicate HasSwitch(steps: seq<Step>, refused: set<Id>, output: Id, c: Id, groups: seq<EdgeGroup>) {
    exists k :: 0 <= k < |groups| && SwitchFor(steps, refused, output, c, groups[k]) &&
                forall j :: 0 <= j < |groups| && j != k && groups[j].Switch? ==> groups[j].source != c
  }

  lemma NothingLinked(steps: seq<Step>, refused: set<Id>, output: Id, joins: seq<EdgeGroup>)
    requires forall e :: e in joins ==> e.FanIn? && GroupFaithful(steps, refused, e)
    requires forall d, t :: EdgeCount(joins, d, t) == if JoinEdge(steps, refused, |steps|, d, t) then 1 else 0
    ensures LinkedUpTo(steps, refused, output, [], joins)
  {
    assert forall k :: 0 <= k < |joins| ==> joins[k] in joins;
  }

  lemma LinkedExact(steps: seq<Step>, refused: set<Id>, output: Id, nd: NodeDeps,
                    groups: seq<EdgeGroup>)
    requires WellFormed(steps) && Collected(steps, |steps|, nd)
    requires LinkedUpTo(steps, refused, output, nd.sources, groups)
    ensures EdgesExact(steps, refused, groups)
    ensures forall c :: c in steps && c.nodeType.Condition? && Listed(steps, |steps|, c.id) ==>
      HasSwitch(steps, refused, output, c.id, groups)
    ensures forall e :: e in groups && e.Switch? ==> Listed(steps, |steps|, e.source)
  {
    forall d, t ensures HasStep(steps, d) && !FindStep(steps, d).nodeType.Condition? ==>
      (Linked(steps, refused, nd.sources, d, t) <==> ListedEdge(steps, |steps|, d, t))
    {
      if HasStep(steps, d) && !FindStep(steps, d).nodeType.Condition? {
        LinkedIsListed(steps, refused, nd, d, t);
      }
    }
    forall c | c in steps && c.nodeType.Condition? && Listed(steps, |steps|, c.id)
      ensures HasSwitch(steps, refused, output, c.id, groups)
    {
      FindStepUnique(steps, c);
      assert c.id in nd.sources;
      var k :| 0 <= k < |groups| && SwitchFor(steps, refused, output, c.id, groups[k]);
      assert groups[k].Switch? && groups[k].source == c.id;
    }
  }

  lemma LinkedIsListed(steps: seq<Step>, refused: set<Id>, nd: NodeDeps, d: Id, t: Id)
    requires Collected(steps, |steps|, nd)
    requires HasStep(steps, d) && !FindStep(steps, d).nodeType.Condition?
    ensures Linked(steps, refused, nd.sources, d, t) <==> ListedEdge(steps, |steps|, d, t)
  {
    ListedSplits(steps, refused, d, t);
    if ListedEdge(steps, |steps|, d, t) {
      assert Listed(steps, |steps|, d);
    }
  }

  lemma ListedSplits(steps: seq<Step>, refused: set<Id>, d: Id, t: Id)
    requires HasStep(steps, d)
    ensures ListedEdge(steps, |steps|, d, t) <==> JoinEdge(steps, refused, |steps|, d, t) || PlainEdge(steps, refused, d, t)
  {
    if ListedEdge(steps, |steps|, d, t) {
      var k :| 0 <= k < |steps| && steps[k].id == t && d in steps[k].dependsOn;
      assert steps[k] in steps;
    }
    if PlainEdge(steps, refused, d, t) {
      var s :| s in steps && s.id == t && d in s.dependsOn && !IsJoin(steps, refused, s);
      IndexOfStep(steps, s);
    }
  }

  lemma IndexOfStep(steps: seq<Step>, s: Step)
    requires s in steps
    ensures exists k :: 0 <= k < |steps| && steps[k] == s
  {
  }
}
