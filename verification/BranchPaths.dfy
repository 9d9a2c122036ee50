/** Below a condition: steps that are passed over never begin, and where branches meet again a step is run once for each
    step before it that has ended. */
module BranchPaths {
  import opened Wrappers
  import opened Graph
  import opened Sequences
  import opened WorkflowSteps
  import opened WorkflowBuild
  import opened Supersteps
  import opened Routing
  import opened SwitchEdges
  import opened BranchSends
  import opened BranchRuns
  import S = Sends
  import R = RunOrder
  import M = Messages

  // ----- Every message there is, is in the heap

  predicate BatchIn(n: nat, b: Batch) {
    match b
    case One(r) => r < n
    case Gathered(refs) => forall i :: 0 <= i < |refs| ==> refs[i] < n
  }

  ghost predicate StationIn(n: nat, st: Station) {
    && (forall i :: 0 <= i < |st.now| ==> BatchIn(n, st.now[i])) && (forall i :: 0 <= i < |st.next| ==> BatchIn(n, st.next[i]))
    && (forall i :: 0 <= i < |st.active| ==> st.active[i].ref < n)
  }

  ghost predicate StationsIn(n: nat, stations: map<Id, Station>) {
    forall v :: v in stations ==> StationIn(n, stations[v])
  }

  ghost predicate BufferIn(n: nat, buffer: seq<(Id, Ref)>) {
    forall i :: 0 <= i < |buffer| ==> buffer[i].1 < n
  }

  ghost predicate AllIn(s: Run) {
    StationsIn(|s.heap|, s.stations) && forall k :: k in s.buffers ==> BufferIn(|s.heap|, s.buffers[k])
  }

  lemma DeliverIn(n: nat, stations: map<Id, Station>, t: Id, b: Batch)
    requires StationsIn(n, stations) && BatchIn(n, b)
    ensures StationsIn(n, DeliverTo(stations, t, b))
  {
    hide BatchIn;
  }

  lemma {:induction false} DeliverAllIn(n: nat, stations: map<Id, Station>, ts: seq<Id>, b: Batch)
    requires StationsIn(n, stations) && BatchIn(n, b)
    ensures StationsIn(n, DeliverToAll(stations, ts, b))
  {
    hide StationsIn, BatchIn, DeliverTo;
    if ts != [] {
      DeliverAllIn(n, stations, ts[..|ts| - 1], b);
      DeliverIn(n, DeliverToAll(stations, ts[..|ts| - 1], b), ts[|ts| - 1], b);
    }
  }

  lemma RefsIn(n: nat, buffer: seq<(Id, Ref)>)
    requires BufferIn(n, buffer)
    ensures BatchIn(n, Gathered(Refs(buffer)))
  {
  }

  lemma BufferOf(s: Run, k: nat, step: Id, ref: Ref)
    requires AllIn(s) && ref < |s.heap|
    ensures BufferIn(|s.heap|, Buffer(s, k) + [(step, ref)])
  {
  }

  lemma ViaIn(s: Run, k: nat, e: EdgeGroup, step: Id, ref: Ref)
    requires AllIn(s) && ref < |s.heap|
    ensures AllIn(SendVia(s, k, e, step, ref)) && SendVia(s, k, e, step, ref).heap == s.heap
  {
    hide StationsIn, BufferIn, Refs, Complete, Buffer, DeliverTo, DeliverToAll, Route, Chosen, Read;
    match e
    case FanIn(sources, target) =>
      BufferOf(s, k, step, ref);
      RefsIn(|s.heap|, Buffer(s, k) + [(step, ref)]);
      DeliverIn(|s.heap|, s.stations, target, Gathered(Refs(Buffer(s, k) + [(step, ref)])));
      NothingIn(|s.heap|);
    case FanOut(_, targets) => DeliverAllIn(|s.heap|, s.stations, targets, One(ref));
    case Single(_, target) => DeliverIn(|s.heap|, s.stations, target, One(ref));
    case Switch(source, cases, otherwise) =>
      DeliverIn(|s.heap|, s.stations, Route(cases, otherwise, Chosen(Read(s.heap, ref), source)), One(ref));
  }

  lemma NothingIn(n: nat)
    ensures BufferIn(n, [])
  {
  }

  lemma {:induction false} SendIn(s: Run, groups: seq<EdgeGroup>, step: Id, ref: Ref)
    requires AllIn(s) && ref < |s.heap|
    ensures AllIn(Send(s, groups, step, ref)) && Send(s, groups, step, ref).heap == s.heap
  {
    hide AllIn, SendVia;
    if groups != [] {
      var n := |groups| - 1;
      SendIn(s, groups[..n], step, ref);
      ViaIn(Send(s, groups[..n], step, ref), n, groups[n], step, ref);
    }
  }

  lemma MoreIn(n: nat, more: nat, st: Station)
    requires StationIn(n, st) && n <= more
    ensures StationIn(more, st)
  {
  }

  lemma BeginIn(s: Run, x: Id, k: nat)
    requires AllIn(s) && x in s.stations && k < |s.stations[x].now|
    ensures AllIn(DoBegin(s, x, k))
  {
    var s' := DoBegin(s, x, k);
    assert StationIn(|s.heap|, s.stations[x]);
    hide M.Merge, ReadAll, Read;
    forall v | v in s'.stations ensures StationIn(|s'.heap|, s'.stations[v]) {
      MoreIn(|s.heap|, |s'.heap|, s.stations[v]);
    }
    forall j | j in s'.buffers ensures BufferIn(|s'.heap|, s'.buffers[j]) {
      assert BufferIn(|s.heap|, s.buffers[j]);
    }
  }

  /** Only the station of x has changed, which is no longer at work on activation k. */
  ghost predicate Recording(s: Run, mid: Run, x: Id, k: nat) {
    && x in s.stations && k < |s.stations[x].active| && mid.stations.Keys == s.stations.Keys
    && mid.buffers == s.buffers && |mid.heap| == |s.heap|
    && (forall v :: v in s.stations && v != x ==> mid.stations[v] == s.stations[v])
    && mid.stations[x] == s.stations[x].(active := Without(s.stations[x].active, k), ended := mid.stations[x].ended)
    && |mid.stations[x].ended| == |s.stations[x].ended| + 1
  }

  lemma RecordingIn(s: Run, mid: Run, x: Id, k: nat)
    requires AllIn(s) && Recording(s, mid, x, k)
    ensures AllIn(mid) && s.stations[x].active[k].ref < |mid.heap|
  {
    assert StationIn(|s.heap|, s.stations[x]);
    forall v | v in mid.stations ensures StationIn(|mid.heap|, mid.stations[v]) {
      assert StationIn(|s.heap|, s.stations[v]);
    }
  }

  lemma ResultRecording(s: Run, x: Id, k: nat, result: Option<Payload>)
    requires x in s.stations && k < |s.stations[x].active|
    ensures Recording(s, Recorded(s, x, k, result), x, k)
  {
    hide M.WithResult;
  }

  lemma ChoiceRecording(b: Branching, s: Run, x: Id, k: nat, chosen: string)
    requires x in s.stations && k < |s.stations[x].active|
    ensures Recording(s, ChoiceRecorded(b, s, x, k, chosen), x, k)
  {
    hide WithChoice;
  }

  lemma AfterIn(b: Branching, s: Run, limit: nat, m: Move)
    requires AllIn(s) && Possible(b, s, limit, m)
    ensures AllIn(After(b, s, m))
  {
    hide DoBegin, Recorded, ChoiceRecorded, Recording, AllIn, Send;
    match m
    case Act(a) =>
      match a {
        case Begin(x, k) => BeginIn(s, x, k);
        case Finish(x, k, result) =>
          ResultRecording(s, x, k, result);
          RecordingIn(s, Recorded(s, x, k, result), x, k);
          SendIn(Recorded(s, x, k, result), b.plan.groups, x, s.stations[x].active[k].ref);
        case Advance => AdvanceIn(s);
      }
    case Choose(c, k, chosen) =>
      ChoiceRecording(b, s, c, k, chosen);
      RecordingIn(s, ChoiceRecorded(b, s, c, k, chosen), c, k);
      SendIn(ChoiceRecorded(b, s, c, k, chosen), b.plan.groups, c, s.stations[c].active[k].ref);
  }

  lemma AdvanceIn(s: Run)
    requires AllIn(s)
    ensures AllIn(DoAdvance(s))
  {
    hide BatchIn;
    forall v | v in s.stations ensures StationIn(|s.heap|, DoAdvance(s).stations[v]) {
      assert StationIn(|s.heap|, s.stations[v]);
    }
  }

  lemma {:induction false} RunIn(b: Branching, input: M.Msg, limit: nat, moves: seq<Move>)
    requires Scheduled(b, input, limit, moves)
    ensures AllIn(RunOf(b, input, moves))
  {
    hide AllIn, After, Possible;
    if moves == [] {
      InitialIn(b, input);
    } else {
      var n := |moves| - 1;
      RunIn(b, input, limit, moves[..n]);
      AfterIn(b, RunOf(b, input, moves[..n]), limit, moves[n]);
    }
  }

  lemma InitialIn(b: Branching, input: M.Msg)
    ensures AllIn(Initial(b.plan, input))
  {
  }

  // ----- What a move brings to one step

  /** The workflow is built as it should be, and t is neither gathered nor reached by a stray default. */
  ghost predicate Below(b: Branching, refused: set<Id>, output: Id, t: Step) {
    && WellBuilt(b.steps, refused, output, b.plan.groups) && b.plan.ids == IdsIn(b.steps)
    && t in b.steps && !IsJoin(b.steps, refused, t) && NoStray(b.steps, refused, output, t.id) && t.id != b.plan.start
  }

  /** How many messages have come to t, and how many of them it has begun on or still waits with. */
  function Arrived(st: Station): nat {
    |st.now| + |st.next| + |st.begun|
  }

  lemma SentTo(b: Branching, refused: set<Id>, output: Id, t: Step, mid: Run, x: Id, ref: Ref)
    requires Below(b, refused, output, t) && t.id in mid.stations
    ensures var s' := Send(mid, b.plan.groups, x, ref);
      && t.id in s'.stations && s'.stations[t.id] == mid.stations[t.id].(next := s'.stations[t.id].next)
      && s'.stations[t.id].next == mid.stations[t.id].next + Repeat(One(ref), Hits(b.plan.groups, x, Read(mid.heap, ref), t.id))
      && s'.stations.Keys == mid.stations.Keys
      && forall v :: v in mid.stations ==> s'.stations[v].ended == mid.stations[v].ended
  {
    hide Send, Hits, IsJoin, NoStray, EdgesExact, HasSwitch;
    NotGathered(b.steps, refused, b.plan.groups, t);
    SendRouted(mid, b.plan.groups, x, ref, t.id);
    S.SendKeeps(mid, b.plan.groups, x, ref);
  }

  lemma StepAt(b: Branching, x: Id) returns (s: Step)
    requires x in IdsIn(b.steps)
    ensures s in b.steps && s.id == x
  {
    s :| s in b.steps && s.id == x;
  }

  lemma NoConditionAt(steps: seq<Step>, s: Step)
    requires s in steps && !ConditionAt(steps, s.id)
    ensures !s.nodeType.Condition?
  {
    var i :| 0 <= i < |steps| && steps[i] == s;
  }

  lemma ChooserAt(steps: seq<Step>, x: Id, chosen: string) returns (s: Step)
    requires CanChoose(steps, x, chosen)
    ensures s in steps && s.id == x && s.nodeType.Condition? && Choosable(s, chosen)
  {
    var i :| 0 <= i < |steps| && steps[i].id == x && steps[i].nodeType.Condition? && Choosable(steps[i], chosen);
    s := steps[i];
  }

  /** A step that is no condition brings t a message exactly if t waits for it and it forwards at all. */
  lemma FinishBrings(b: Branching, refused: set<Id>, output: Id, t: Step, s: Run, limit: nat, x: Id, k: nat,
                     result: Option<Payload>)
    requires Below(b, refused, output, t) && s.stations.Keys == IdsIn(b.steps)
    requires Possible(b, s, limit, Act(Finish(x, k, result)))
    ensures var s' := DoFinish(b.plan, s, x, k, result);
      && t.id in s.stations && s'.stations.Keys == s.stations.Keys
      && Arrived(s'.stations[t.id]) == Arrived(s.stations[t.id]) + (if x in t.dependsOn && x !in b.plan.ends then 1 else 0)
      && (forall v :: v in s.stations ==> |s'.stations[v].ended| == |s.stations[v].ended| + if v == x then 1 else 0)
      && (x != t.id && !(x in t.dependsOn && x !in b.plan.ends) ==> s'.stations[t.id] == s.stations[t.id])
  {
    BelowParts(b, refused, output, t);
    hide Below, IsJoin, Hits, Send, Recorded, WellBuilt, ConditionAt;
    var mid, ref := Recorded(s, x, k, result), s.stations[x].active[k].ref;
    ResultRecording(s, x, k, result);
    var xs := StepAt(b, x);
    NoConditionAt(b.steps, xs);
    PlainHits(b.steps, refused, output, b.plan.groups, xs, Read(mid.heap, ref), t);
    SentTo(b, refused, output, t, mid, x, ref);
    S.RepeatNone(mid.stations[t.id].next, One(ref));
  }

  lemma BelowParts(b: Branching, refused: set<Id>, output: Id, t: Step)
    requires Below(b, refused, output, t)
    ensures WellBuilt(b.steps, refused, output, b.plan.groups) && t in b.steps && t.id in IdsIn(b.steps)
    ensures b.plan.ids == IdsIn(b.steps) && t.id != b.plan.start && NoStray(b.steps, refused, output, t.id)
  {
  }

  /** If t waits for c, then for nothing else, and on another branch of it than the one chosen. */
  ghost predicate NotMeant(b: Branching, t: Step, c: Id, chosen: string) {
    c in t.dependsOn ==>
      |t.dependsOn| <= 1 && t.inputBranch != chosen && exists cs :: cs in b.steps && cs.id == c && OnBranch(cs, t)
  }

  lemma ChoiceKnown(b: Branching, s: Run, c: Id, k: nat, chosen: string)
    requires c in s.stations && k < |s.stations[c].active| && s.stations[c].active[k].ref < |s.heap|
    ensures Supersteps.Chosen(Read(ChoiceRecorded(b, s, c, k, chosen).heap, s.stations[c].active[k].ref), c) == Some(chosen)
  {
  }

  /** A choice brings t nothing, if t does not wait for the condition, or does so under another label. */
  lemma ChoiceBrings(b: Branching, refused: set<Id>, output: Id, t: Step, s: Run, limit: nat, c: Id, k: nat, chosen: string)
    requires Below(b, refused, output, t) && s.stations.Keys == IdsIn(b.steps) && AllIn(s)
    requires Possible(b, s, limit, Choose(c, k, chosen))
    requires NotMeant(b, t, c, chosen)
    ensures var s' := DoChoose(b, s, c, k, chosen);
      && t.id in s.stations && s'.stations.Keys == s.stations.Keys
      && Arrived(s'.stations[t.id]) == Arrived(s.stations[t.id])
      && (forall v :: v in s.stations ==> |s'.stations[v].ended| == |s.stations[v].ended| + if v == c then 1 else 0)
      && (c != t.id ==> s'.stations[t.id] == s.stations[t.id])
  {
    hide *;
    BelowParts(b, refused, output, t);
    PossibleChoice(b, s, limit, c, k, chosen);
    ActiveIn(s, c, k);
    ChoiceKnown(b, s, c, k, chosen);
    ChoiceRecording(b, s, c, k, chosen);
    var cs := ChooserAt(b.steps, c, chosen);
    NoHits(b, refused, output, t, Read(ChoiceRecorded(b, s, c, k, chosen).heap, s.stations[c].active[k].ref), cs, chosen);
    SentNothing(b, refused, output, t, s, ChoiceRecorded(b, s, c, k, chosen), c, k);
    ChooseIs(b, s, c, k, chosen);
  }

  lemma PossibleChoice(b: Branching, s: Run, limit: nat, c: Id, k: nat, chosen: string)
    requires Possible(b, s, limit, Choose(c, k, chosen))
    ensures c in s.stations && k < |s.stations[c].active| && CanChoose(b.steps, c, chosen)
  {
  }

  lemma ChooseIs(b: Branching, s: Run, c: Id, k: nat, chosen: string)
    requires c in s.stations && k < |s.stations[c].active|
    ensures DoChoose(b, s, c, k, chosen) ==
      Send(ChoiceRecorded(b, s, c, k, chosen), b.plan.groups, c, s.stations[c].active[k].ref)
  {
  }

  lemma SentNothing(b: Branching, refused: set<Id>, output: Id, t: Step, s: Run, mid: Run, c: Id, k: nat)
    requires Below(b, refused, output, t) && t.id in s.stations && Recording(s, mid, c, k)
    requires Hits(b.plan.groups, c, Read(mid.heap, s.stations[c].active[k].ref), t.id) == 0
    ensures var s' := Send(mid, b.plan.groups, c, s.stations[c].active[k].ref);
      && s'.stations.Keys == s.stations.Keys
      && Arrived(s'.stations[t.id]) == Arrived(s.stations[t.id])
      && (forall v :: v in s.stations ==> |s'.stations[v].ended| == |s.stations[v].ended| + if v == c then 1 else 0)
      && (c != t.id ==> s'.stations[t.id] == s.stations[t.id])
  {
    hide Below, Hits, Send, Read;
    SentTo(b, refused, output, t, mid, c, s.stations[c].active[k].ref);
    S.RepeatNone(mid.stations[t.id].next, One(s.stations[c].active[k].ref));
  }

  lemma ActiveIn(s: Run, c: Id, k: nat)
    requires AllIn(s) && c in s.stations && k < |s.stations[c].active|
    ensures s.stations[c].active[k].ref < |s.heap|
  {
    assert StationIn(|s.heap|, s.stations[c]);
  }

  lemma NoHits(b: Branching, refused: set<Id>, output: Id, t: Step, m: M.Msg, c: Step, chosen: string)
    requires WellBuilt(b.steps, refused, output, b.plan.groups) && t in b.steps && NoStray(b.steps, refused, output, t.id)
    requires c in b.steps && c.nodeType.Condition? && Choosable(c, chosen) && Supersteps.Chosen(m, c.id) == Some(chosen)
    requires NotMeant(b, t, c.id, chosen)
    ensures Hits(b.plan.groups, c.id, m, t.id) == 0
  {
    BuiltParts(b.steps, refused, output, b.plan.groups);
    assert UniqueIds(b.steps);
    hide WellBuilt, OnBranch, NoStray, Choosable, Supersteps.Chosen, Hits, WellFormed, EdgesExact, UniqueIds;
    if c.id in t.dependsOn {
      var cs :| cs in b.steps && cs.id == c.id && OnBranch(cs, t);
      SameStep(b.steps, cs, c);
      UnchosenHits(b.steps, refused, output, b.plan.groups, c, m, chosen, t);
    } else {
      StrangerHits(b.steps, refused, output, b.plan.groups, c, m, chosen, t);
    }
  }

  // ----- Steps that are passed over

  /** t waits for condition c, and for nothing else, under a label that is never chosen. */
  ghost predicate NeverChosen(b: Branching, moves: seq<Move>, c: Step, t: Step) {
    && c in b.steps && c.nodeType.Condition? && OnBranch(c, t) && t.dependsOn == [c.id]
    && forall chosen :: Chose(moves, c.id, chosen) ==> chosen != t.inputBranch
  }

  lemma NeverBefore(b: Branching, moves: seq<Move>, c: Step, t: Step)
    requires NeverChosen(b, moves, c, t) && moves != []
    ensures NeverChosen(b, moves[..|moves| - 1], c, t)
    ensures moves[|moves| - 1].Choose? && moves[|moves| - 1].step == c.id ==> moves[|moves| - 1].chosen != t.inputBranch
  {
    assert moves == moves[..|moves| - 1] + [moves[|moves| - 1]];
    ChoseMore(moves[..|moves| - 1], moves[|moves| - 1]);
    hide Chose, OnBranch;
  }

  lemma StaysUntouched(b: Branching, refused: set<Id>, output: Id, c: Step, t: Step, s: Run, limit: nat, m: Move)
    requires Below(b, refused, output, t) && s.stations.Keys == IdsIn(b.steps) && AllIn(s) && t.id in s.stations
    requires c in b.steps && c.nodeType.Condition? && OnBranch(c, t) && t.dependsOn == [c.id]
    requires m.Choose? && m.step == c.id ==> m.chosen != t.inputBranch
    requires R.Untouched(s.stations[t.id]) && Possible(b, s, limit, m)
    ensures t.id in After(b, s, m).stations && R.Untouched(After(b, s, m).stations[t.id])
  {
    hide Below, AllIn, DoBegin, DoFinish, DoChoose, ConditionAt, CanChoose, NotMeant;
    match m
    case Act(a) =>
      match a {
        case Begin(x, k) => OthersBegin(s, x, k, t.id);
        case Finish(x, k, result) =>
          FinishBrings(b, refused, output, t, s, limit, x, k, result);
          IsConditionAt(b.steps, c);
        case Advance => AdvanceUntouched(s, t.id);
      }
    case Choose(x, k, chosen) =>
      NeverMeant(b, c, t, x, chosen);
      ChoiceBrings(b, refused, output, t, s, limit, x, k, chosen);
  }

  lemma AdvanceUntouched(s: Run, t: Id)
    requires t in s.stations && R.Untouched(s.stations[t])
    ensures t in DoAdvance(s).stations && R.Untouched(DoAdvance(s).stations[t])
  {
  }

  lemma OthersBegin(s: Run, x: Id, k: nat, t: Id)
    requires x in s.stations && k < |s.stations[x].now| && t in s.stations && t != x
    ensures t in DoBegin(s, x, k).stations && DoBegin(s, x, k).stations[t] == s.stations[t]
  {
  }

  lemma IsConditionAt(steps: seq<Step>, c: Step)
    requires c in steps && c.nodeType.Condition?
    ensures ConditionAt(steps, c.id)
  {
    var i :| 0 <= i < |steps| && steps[i] == c;
  }

  lemma NeverMeant(b: Branching, c: Step, t: Step, x: Id, chosen: string)
    requires c in b.steps && OnBranch(c, t) && t.dependsOn == [c.id] && (x == c.id ==> chosen != t.inputBranch)
    ensures NotMeant(b, t, x, chosen)
  {
    hide OnBranch;
  }

  lemma InitialUntouched(b: Branching, input: M.Msg, t: Id)
    requires t in b.plan.ids && t != b.plan.start
    ensures t in Initial(b.plan, input).stations && R.Untouched(Initial(b.plan, input).stations[t])
  {
  }

  /** A step whose label is never chosen never gets anything, and so never begins. */
  lemma {:induction false} PassedOverNeverBegins(b: Branching, refused: set<Id>, output: Id, input: M.Msg, limit: nat,
                                                 moves: seq<Move>, c: Step, t: Step)
    requires Below(b, refused, output, t) && Scheduled(b, input, limit, moves) && NeverChosen(b, moves, c, t)
    ensures t.id in RunOf(b, input, moves).stations && R.Untouched(RunOf(b, input, moves).stations[t.id])
  {
    BelowParts(b, refused, output, t);
    assert OnBranch(c, t) && t.dependsOn == [c.id] && c in b.steps && c.nodeType.Condition?;
    hide Below, WellBuilt, NoStray, After, Possible, NeverChosen, R.Untouched, OnBranch;
    if moves == [] {
      InitialUntouched(b, input, t.id);
    } else {
      var n := |moves| - 1;
      NeverBefore(b, moves, c, t);
      PassedOverNeverBegins(b, refused, output, input, limit, moves[..n], c, t);
      RunIn(b, input, limit, moves[..n]);
      RunKeys(b, input, moves[..n]);
      StaysUntouched(b, refused, output, c, t, RunOf(b, input, moves[..n]), limit, moves[n]);
    }
  }

  // ----- Where branches meet again

  /** How often the steps ds have ended, all together. */
  function Endings(s: Run, ds: seq<Id>): nat {
    if ds == [] then 0 else
      var d := ds[|ds| - 1];
      Endings(s, ds[..|ds| - 1]) + if d in s.stations then |s.stations[d].ended| else 0
  }

  /** x has ended once more, or nothing has. */
  ghost predicate EndsMore(s: Run, s': Run, x: Id, n: nat) {
    && s'.stations.Keys == s.stations.Keys && x in s.stations
    && forall v :: v in s.stations ==> |s'.stations[v].ended| == |s.stations[v].ended| + if v == x then n else 0
  }

  lemma {:induction false} EndingsMore(s: Run, s': Run, x: Id, n: nat, ds: seq<Id>)
    requires EndsMore(s, s', x, n) && Distinct(ds)
    ensures Endings(s', ds) == Endings(s, ds) + if x in ds then n else 0
  {
    if ds != [] {
      var k := |ds| - 1;
      EndingsMore(s, s', x, n, ds[..k]);
      assert ds == ds[..k] + [ds[k]];
    }
  }

  /** t waits for steps that forward, none of them a condition. */
  ghost predicate Fed(b: Branching, t: Step) {
    && Distinct(t.dependsOn)
    && (forall d :: d in t.dependsOn ==> d !in b.plan.ends)
    && (forall s :: s in b.steps && s.id in t.dependsOn ==> !s.nodeType.Condition?)
  }

  lemma BeginArrives(s: Run, x: Id, k: nat, t: Id)
    requires x in s.stations && k < |s.stations[x].now| && t in s.stations
    ensures var s' := DoBegin(s, x, k); t in s'.stations && Arrived(s'.stations[t]) == Arrived(s.stations[t])
    ensures EndsMore(s, DoBegin(s, x, k), x, 0)
  {
    hide M.Merge, Read, ReadAll;
  }

  lemma AdvanceArrives(s: Run, t: Id)
    requires t in s.stations
    ensures t in DoAdvance(s).stations && Arrived(DoAdvance(s).stations[t]) == Arrived(s.stations[t])
    ensures EndsMore(s, DoAdvance(s), t, 0)
  {
  }

  lemma FedNotMeant(b: Branching, t: Step, c: Id, chosen: string)
    requires Fed(b, t) && CanChoose(b.steps, c, chosen)
    ensures c !in t.dependsOn && NotMeant(b, t, c, chosen)
  {
    var cs := ChooserAt(b.steps, c, chosen);
  }

  lemma MakeEndsMore(s: Run, s': Run, x: Id)
    requires s'.stations.Keys == s.stations.Keys && x in s.stations
    requires forall v :: v in s.stations ==> |s'.stations[v].ended| == |s.stations[v].ended| + if v == x then 1 else 0
    ensures EndsMore(s, s', x, 1)
  {
  }

  lemma StaysEven(b: Branching, refused: set<Id>, output: Id, t: Step, s: Run, limit: nat, m: Move)
    requires Below(b, refused, output, t) && Fed(b, t) && s.stations.Keys == IdsIn(b.steps) && AllIn(s) && t.id in s.stations
    requires Arrived(s.stations[t.id]) == Endings(s, t.dependsOn) && Possible(b, s, limit, m)
    ensures t.id in After(b, s, m).stations && Arrived(After(b, s, m).stations[t.id]) == Endings(After(b, s, m), t.dependsOn)
  {
    assert Distinct(t.dependsOn) && forall d :: d in t.dependsOn ==> d !in b.plan.ends;
    hide Below, AllIn, DoBegin, DoFinish, DoChoose, DoAdvance, ConditionAt, CanChoose, NotMeant, Endings, Arrived, EndsMore, Fed;
    match m
    case Act(a) =>
      match a {
        case Begin(x, k) =>
          BeginArrives(s, x, k, t.id);
          EndingsMore(s, DoBegin(s, x, k), x, 0, t.dependsOn);
        case Finish(x, k, result) =>
          FinishBrings(b, refused, output, t, s, limit, x, k, result);
          MakeEndsMore(s, DoFinish(b.plan, s, x, k, result), x);
          EndingsMore(s, DoFinish(b.plan, s, x, k, result), x, 1, t.dependsOn);
        case Advance =>
          AdvanceArrives(s, t.id);
          EndingsMore(s, DoAdvance(s), t.id, 0, t.dependsOn);
      }
    case Choose(x, k, chosen) =>
      FedNotMeant(b, t, x, chosen);
      ChoiceBrings(b, refused, output, t, s, limit, x, k, chosen);
      MakeEndsMore(s, DoChoose(b, s, x, k, chosen), x);
      EndingsMore(s, DoChoose(b, s, x, k, chosen), x, 1, t.dependsOn);
  }

  lemma {:induction false} NothingEnded(b: Branching, input: M.Msg, ds: seq<Id>)
    ensures Endings(Initial(b.plan, input), ds) == 0
  {
    if ds != [] {
      NothingEnded(b, input, ds[..|ds| - 1]);
    }
  }

  lemma InitialEven(b: Branching, refused: set<Id>, output: Id, input: M.Msg, t: Step)
    requires Below(b, refused, output, t)
    ensures var s := Initial(b.plan, input);
      t.id in s.stations && Arrived(s.stations[t.id]) == Endings(s, t.dependsOn)
  {
    hide WellBuilt, IsJoin, NoStray;
    NothingEnded(b, input, t.dependsOn);
  }

  /** In every run, a step that is not gathered has got as many messages as the steps it waits for have ended: none is
      lost, and none is waited for in vain. */
  lemma {:induction false} OneArrivalPerEnding(b: Branching, refused: set<Id>, output: Id, input: M.Msg, limit: nat,
                                               moves: seq<Move>, t: Step)
    requires Below(b, refused, output, t) && Fed(b, t) && Scheduled(b, input, limit, moves)
    ensures var s := RunOf(b, input, moves);
      t.id in s.stations && Arrived(s.stations[t.id]) == Endings(s, t.dependsOn)
  {
    hide Below, Fed, After, Possible, Endings, Arrived, Initial;
    if moves == [] {
      InitialEven(b, refused, output, input, t);
    } else {
      var n := |moves| - 1;
      OneArrivalPerEnding(b, refused, output, input, limit, moves[..n], t);
      RunIn(b, input, limit, moves[..n]);
      RunKeys(b, input, moves[..n]);
      BelowParts(b, refused, output, t);
      StaysEven(b, refused, output, t, RunOf(b, input, moves[..n]), limit, moves[n]);
    }
  }

  lemma {:induction false} OnlyEndings(s: Run, ds: seq<Id>, a: Id)
    requires Distinct(ds) && a in s.stations && forall d :: d in ds && d != a && d in s.stations ==> s.stations[d].ended == []
    ensures Endings(s, ds) == if a in ds then |s.stations[a].ended| else 0
  {
    if ds != [] {
      var k := |ds| - 1;
      assert ds == ds[..k] + [ds[k]];
      OnlyEndings(s, ds[..k], a);
    }
  }

  /** The steps that j waits for are on branches of c, and a's is the only label ever chosen. */
  ghost predicate Meets(b: Branching, refused: set<Id>, output: Id, moves: seq<Move>, c: Step, a: Step, j: Step) {
    && Below(b, refused, output, j) && Fed(b, j) && c in b.steps && c.nodeType.Condition? && OneStepPerLabel(b.steps, c)
    && a in b.steps && OnBranch(c, a) && a.id in j.dependsOn
    && (forall s :: s in b.steps && s.id in j.dependsOn ==> OnBranch(c, s) && Below(b, refused, output, s))
    && (forall chosen :: Chose(moves, c.id, chosen) ==> chosen == a.inputBranch)
  }

  lemma OtherNeverChosen(b: Branching, refused: set<Id>, output: Id, moves: seq<Move>, c: Step, a: Step, j: Step, s: Step)
    requires Meets(b, refused, output, moves, c, a, j) && s in b.steps && s.id in j.dependsOn && s.id != a.id
    ensures Below(b, refused, output, s) && NeverChosen(b, moves, c, s)
  {
    assert OnBranch(c, s);
    hide Below, Fed, Chose;
  }

  /** Where the branches of a condition meet again, and one label is chosen: the step there gets a message whenever the
      step of that label has ended, and the steps of the other labels never begin. So if that step has ended once, the
      step where the branches meet has been reached just once, and waits for nothing else. */
  lemma BranchesMeetOnce(b: Branching, refused: set<Id>, output: Id, input: M.Msg, limit: nat, moves: seq<Move>, c: Step,
                         a: Step, j: Step)
    requires Meets(b, refused, output, moves, c, a, j) && Scheduled(b, input, limit, moves)
    ensures var s := RunOf(b, input, moves);
      && a.id in s.stations && j.id in s.stations
      && Arrived(s.stations[j.id]) == |s.stations[a.id].ended|
      && forall x :: x in b.steps && x.id in j.dependsOn && x.id != a.id ==> x.id in s.stations && R.Untouched(s.stations[x.id])
  {
    MeetParts(b, refused, output, moves, c, a, j);
    hide Meets, Below, Fed, RunOf, Scheduled, NeverChosen, Endings, Arrived;
    var s := RunOf(b, input, moves);
    OneArrivalPerEnding(b, refused, output, input, limit, moves, j);
    RunKeys(b, input, moves);
    forall x | x in b.steps && x.id in j.dependsOn && x.id != a.id
      ensures x.id in s.stations && R.Untouched(s.stations[x.id])
    {
      OtherNeverChosen(b, refused, output, moves, c, a, j, x);
      PassedOverNeverBegins(b, refused, output, input, limit, moves, c, x);
    }
    OnlyEndings(s, j.dependsOn, a.id);
  }

  lemma MeetParts(b: Branching, refused: set<Id>, output: Id, moves: seq<Move>, c: Step, a: Step, j: Step)
    requires Meets(b, refused, output, moves, c, a, j)
    ensures Below(b, refused, output, j) && Fed(b, j) && Distinct(j.dependsOn) && a in b.steps && a.id in j.dependsOn
    ensures b.plan.ids == IdsIn(b.steps)
  {
  }
}
