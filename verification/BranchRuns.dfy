/** Runs of workflows with conditions: which steps are passed over, how often a step is run where branches meet again,
    and when such a run is reported as completed. */
module BranchRuns {
  import opened Wrappers
  import opened Graph
  import opened Sequences
  import opened WorkflowSteps
  import opened WorkflowBuild
  import opened Supersteps
  import opened Routing
  import opened SwitchEdges
  import opened BranchSends
  import opened Behaviours
  import opened Views
  import opened Verdict
  import S = Sends
  import T = RunTheorems
  import M = Messages

  /** A workflow, what was built for it, and what a chosen label is as an output. */
  datatype Branching = Branching(steps: seq<Step>, plan: Plan, text: string -> Payload)

  /** A condition ends by choosing a label; everything else happens as in any run. */
  datatype Move = Act(action: Action) | Choose(step: Id, activation: nat, chosen: string)

  predicate ConditionAt(steps: seq<Step>, x: Id) {
    exists i :: 0 <= i < |steps| && steps[i].id == x && steps[i].nodeType.Condition?
  }

  predicate CanChoose(steps: seq<Step>, x: Id, chosen: string) {
    exists i :: 0 <= i < |steps| && steps[i].id == x && steps[i].nodeType.Condition? && Choosable(steps[i], chosen)
  }

  predicate Possible(b: Branching, s: Run, limit: nat, m: Move) {
    match m
    case Act(a) => Enabled(s, limit, a) && (a.Finish? ==> !ConditionAt(b.steps, a.step))
    case Choose(c, k, chosen) => c in s.stations && k < |s.stations[c].active| && CanChoose(b.steps, c, chosen)
  }

  /** A condition writes its choice, and whom that passes over, into its message. */
  function ChoiceRecorded(b: Branching, s: Run, c: Id, k: nat, chosen: string): Run
    requires c in s.stations && k < |s.stations[c].active|
  {
    var st := s.stations[c];
    var ref := st.active[k].ref;
    var heap := if ref < |s.heap| then s.heap[ref := WithChoice(s.heap[ref], b.steps, c, chosen, b.text(chosen))] else s.heap;
    s.(heap := heap,
       stations := s.stations[c := st.(active := Without(st.active, k), ended := st.ended + [Some(b.text(chosen))])])
  }

  function DoChoose(b: Branching, s: Run, c: Id, k: nat, chosen: string): Run
    requires c in s.stations && k < |s.stations[c].active|
  {
    Send(ChoiceRecorded(b, s, c, k, chosen), b.plan.groups, c, s.stations[c].active[k].ref)
  }

  function After(b: Branching, s: Run, m: Move): Run {
    match m
    case Act(a) => Apply(b.plan, s, a)
    case Choose(c, k, chosen) => if c in s.stations && k < |s.stations[c].active| then DoChoose(b, s, c, k, chosen) else s
  }

  function RunOf(b: Branching, input: M.Msg, moves: seq<Move>): Run {
    if moves == [] then Initial(b.plan, input) else
      After(b, RunOf(b, input, moves[..|moves| - 1]), moves[|moves| - 1])
  }

  /** Every move was possible when it was made. */
  predicate Scheduled(b: Branching, input: M.Msg, limit: nat, moves: seq<Move>) {
    moves == [] ||
    var n := |moves| - 1;
    Scheduled(b, input, limit, moves[..n]) && Possible(b, RunOf(b, input, moves[..n]), limit, moves[n])
  }

  // ----- Who is passed over

  ghost predicate Chose(moves: seq<Move>, c: Id, chosen: string) {
    exists i :: 0 <= i < |moves| && moves[i].Choose? && moves[i].step == c && moves[i].chosen == chosen
  }

  /** v waits for a condition under another label than one that was chosen. */
  ghost predicate PassedOver(b: Branching, moves: seq<Move>, v: Id) {
    exists x, c, chosen :: x in b.steps && x.id == v && Chose(moves, c, chosen) && Unchosen(x, c, chosen)
  }

  lemma ChoseMore(moves: seq<Move>, m: Move)
    ensures forall c, chosen :: Chose(moves, c, chosen) ==> Chose(moves + [m], c, chosen)
    ensures m.Choose? ==> Chose(moves + [m], m.step, m.chosen)
    ensures forall c, chosen :: Chose(moves + [m], c, chosen) ==>
      Chose(moves, c, chosen) || (m.Choose? && m.step == c && m.chosen == chosen)
  {
    var more := moves + [m];
    forall c, chosen | Chose(moves, c, chosen) ensures Chose(more, c, chosen) {
      var i :| 0 <= i < |moves| && moves[i].Choose? && moves[i].step == c && moves[i].chosen == chosen;
      assert more[i] == moves[i];
    }
    assert more[|moves|] == m;
  }

  lemma PassedOverMore(b: Branching, moves: seq<Move>, m: Move, v: Id)
    requires PassedOver(b, moves, v)
    ensures PassedOver(b, moves + [m], v)
  {
    ChoseMore(moves, m);
    hide Chose, Unchosen;
    var x, c, chosen :| x in b.steps && x.id == v && Chose(moves, c, chosen) && Unchosen(x, c, chosen);
    assert Chose(moves + [m], c, chosen);
  }

  // ----- What messages say

  /** Whoever a choice passes over is marked as skipped in m, or known to be completed. */
  ghost predicate Marked(b: Branching, m: M.Msg, c: Id, chosen: string) {
    forall x :: x in b.steps && Unchosen(x, c, chosen) && x.id != Blank ==> x.id in m.skipped || x.id in m.completed
  }

  /** m says nothing that has not happened, skips only steps that a choice passes over, and all of those. */
  ghost predicate Fair(b: Branching, moves: seq<Move>, s: Run, m: M.Msg) {
    && (forall v :: v in m.failed ==> EndedWith(s, v, None))
    && (forall v :: v in m.completed ==> Succeeded(s, v))
    && (forall v :: v in m.skipped ==> PassedOver(b, moves, v))
    && (forall c :: c in m.conditionOutputs ==> Chose(moves, c, m.conditionOutputs[c]) && Marked(b, m, c, m.conditionOutputs[c]))
  }

  ghost predicate AllFair(b: Branching, moves: seq<Move>, s: Run) {
    forall i :: 0 <= i < |s.heap| ==> Fair(b, moves, s, s.heap[i])
  }

  ghost predicate EndingsStay(s: Run, s': Run) {
    forall v, r :: EndedWith(s, v, r) ==> EndedWith(s', v, r)
  }

  lemma FairLater(b: Branching, moves: seq<Move>, next: Move, s: Run, s': Run, m: M.Msg)
    requires Fair(b, moves, s, m) && EndingsStay(s, s')
    ensures Fair(b, moves + [next], s', m)
  {
    ChoseMore(moves, next);
    hide EndedWith, Chose, Marked, PassedOver;
    forall v | v in m.skipped ensures PassedOver(b, moves + [next], v) {
      PassedOverMore(b, moves, next, v);
    }
    forall v | v in m.completed ensures Succeeded(s', v) {
      var p :| EndedWith(s, v, Some(p));
      assert EndedWith(s', v, Some(p));
    }
  }

  lemma FairAbsorbed(b: Branching, moves: seq<Move>, s: Run, a: M.Msg, m: M.Msg)
    requires Fair(b, moves, s, a) && Fair(b, moves, s, m)
    ensures Fair(b, moves, s, M.Absorb(a, m))
  {
    hide EndedWith, Chose, Unchosen, PassedOver, Succeeded;
    var both := M.Absorb(a, m);
    forall c | c in both.conditionOutputs ensures Marked(b, both, c, both.conditionOutputs[c]) {
      if c in m.conditionOutputs {
        assert Marked(b, m, c, m.conditionOutputs[c]);
      } else {
        assert Marked(b, a, c, a.conditionOutputs[c]);
      }
    }
  }

  lemma {:induction false} FairMerged(b: Branching, moves: seq<Move>, s: Run, ms: seq<M.Msg>)
    requires forall i :: 0 <= i < |ms| ==> Fair(b, moves, s, ms[i])
    ensures Fair(b, moves, s, M.Merge(ms))
  {
    hide Fair, M.Absorb;
    if ms == [] {
      NothingSaid(b, moves, s);
    } else {
      FairMerged(b, moves, s, ms[..|ms| - 1]);
      FairAbsorbed(b, moves, s, M.Merge(ms[..|ms| - 1]), ms[|ms| - 1]);
    }
  }

  lemma NothingSaid(b: Branching, moves: seq<Move>, s: Run)
    ensures Fair(b, moves, s, M.EmptyMsg)
  {
  }

  lemma FairResult(b: Branching, moves: seq<Move>, s: Run, m: M.Msg, x: Id, result: Option<Payload>)
    requires Fair(b, moves, s, m) && EndedWith(s, x, result)
    ensures Fair(b, moves, s, M.WithResult(m, x, result))
  {
    hide EndedWith, Chose, Unchosen, PassedOver;
    var after := M.WithResult(m, x, result);
    forall c | c in after.conditionOutputs ensures Marked(b, after, c, after.conditionOutputs[c]) {
      assert Marked(b, m, c, m.conditionOutputs[c]);
    }
    if result.Some? {
      assert Succeeded(s, x);
    }
  }

  lemma FairChoice(b: Branching, moves: seq<Move>, s: Run, m: M.Msg, c: Id, chosen: string)
    requires Fair(b, moves, s, m) && EndedWith(s, c, Some(b.text(chosen))) && Chose(moves, c, chosen)
    ensures Fair(b, moves, s, WithChoice(m, b.steps, c, chosen, b.text(chosen)))
  {
    hide EndedWith, Chose, Unchosen;
    var after := WithChoice(m, b.steps, c, chosen, b.text(chosen));
    forall d | d in after.conditionOutputs ensures Marked(b, after, d, after.conditionOutputs[d]) {
      if d != c {
        assert Marked(b, m, d, m.conditionOutputs[d]);
      }
    }
    forall v | v in after.skipped ensures PassedOver(b, moves, v) {
      if v !in m.skipped {
        var x :| x in b.steps && x.id == v && Unchosen(x, c, chosen);
      }
    }
    assert Succeeded(s, c);
  }

  // ----- One move

  lemma ChoiceEnding(b: Branching, s: Run, c: Id, k: nat, chosen: string)
    requires c in s.stations && k < |s.stations[c].active|
    ensures OneMoreEnding(s, DoChoose(b, s, c, k, chosen), c, Some(b.text(chosen)))
    ensures DoChoose(b, s, c, k, chosen).heap == ChoiceRecorded(b, s, c, k, chosen).heap
  {
    hide Send, WithChoice;
    S.SendKeeps(ChoiceRecorded(b, s, c, k, chosen), b.plan.groups, c, s.stations[c].active[k].ref);
  }

  lemma ChooseFair(b: Branching, moves: seq<Move>, s: Run, c: Id, k: nat, chosen: string)
    requires AllFair(b, moves, s) && c in s.stations && k < |s.stations[c].active|
    ensures AllFair(b, moves + [Choose(c, k, chosen)], DoChoose(b, s, c, k, chosen))
  {
    var s', next := DoChoose(b, s, c, k, chosen), Choose(c, k, chosen);
    ChoiceEnding(b, s, c, k, chosen);
    assert EndedWith(s', c, Some(b.text(chosen)));
    ChoseMore(moves, next);
    hide EndedWith, DoChoose, Fair, Chose, WithChoice;
    forall i | 0 <= i < |s'.heap| ensures Fair(b, moves + [next], s', s'.heap[i]) {
      FairLater(b, moves, next, s, s', s.heap[i]);
      FairChoice(b, moves + [next], s', s.heap[i], c, chosen);
    }
  }

  lemma FinishFair(b: Branching, moves: seq<Move>, s: Run, x: Id, k: nat, result: Option<Payload>)
    requires AllFair(b, moves, s) && x in s.stations && k < |s.stations[x].active|
    ensures AllFair(b, moves + [Act(Finish(x, k, result))], DoFinish(b.plan, s, x, k, result))
  {
    var s', next := DoFinish(b.plan, s, x, k, result), Act(Finish(x, k, result));
    FinishEnding(b.plan, s, x, k, result);
    assert EndedWith(s', x, result);
    hide EndedWith, DoFinish, Fair, M.WithResult;
    forall i | 0 <= i < |s'.heap| ensures Fair(b, moves + [next], s', s'.heap[i]) {
      FairLater(b, moves, next, s, s', s.heap[i]);
      FairResult(b, moves + [next], s', s.heap[i], x, result);
    }
  }

  lemma BeginFair(b: Branching, moves: seq<Move>, s: Run, x: Id, k: nat)
    requires AllFair(b, moves, s) && x in s.stations && k < |s.stations[x].now|
    ensures AllFair(b, moves + [Act(Begin(x, k))], DoBegin(s, x, k))
  {
    var s', next := DoBegin(s, x, k), Act(Begin(x, k));
    QuietEndings(s, x, k);
    NothingSaid(b, moves, s);
    hide EndedWith, Fair, M.Merge;
    forall i | 0 <= i < |s'.heap| ensures Fair(b, moves + [next], s', s'.heap[i]) {
      if i < |s.heap| {
        FairLater(b, moves, next, s, s', s.heap[i]);
      } else {
        var refs := s.stations[x].now[k].refs;
        FairMerged(b, moves, s, ReadAll(s.heap, refs));
        FairLater(b, moves, next, s, s', M.Merge(ReadAll(s.heap, refs)));
      }
    }
  }

  lemma AdvanceFair(b: Branching, moves: seq<Move>, s: Run)
    requires AllFair(b, moves, s)
    ensures AllFair(b, moves + [Act(Advance)], DoAdvance(s))
  {
    QuietEndings(s, Blank, 0);
    hide EndedWith, Fair;
    forall i | 0 <= i < |s.heap| ensures Fair(b, moves + [Act(Advance)], DoAdvance(s), s.heap[i]) {
      FairLater(b, moves, Act(Advance), s, DoAdvance(s), s.heap[i]);
    }
  }

  /** The message a run starts with knows of no ending and no choice. */
  ghost predicate Untold(input: M.Msg) {
    Unused(input) && input.conditionOutputs == map[]
  }

  /** In every run each message is fair. */
  lemma {:induction false} RunFair(b: Branching, input: M.Msg, limit: nat, moves: seq<Move>)
    requires Scheduled(b, input, limit, moves) && Untold(input)
    ensures AllFair(b, moves, RunOf(b, input, moves))
  {
    hide AllFair, DoBegin, DoFinish, DoAdvance, DoChoose, Untold;
    if moves == [] {
      InitialFair(b, input);
    } else {
      var n := |moves| - 1;
      RunFair(b, input, limit, moves[..n]);
      assert moves == moves[..n] + [moves[n]];
      var s := RunOf(b, input, moves[..n]);
      match moves[n]
      case Act(a) =>
        match a {
          case Begin(x, k) => BeginFair(b, moves[..n], s, x, k);
          case Finish(x, k, result) => FinishFair(b, moves[..n], s, x, k, result);
          case Advance => AdvanceFair(b, moves[..n], s);
        }
      case Choose(c, k, chosen) => ChooseFair(b, moves[..n], s, c, k, chosen);
    }
  }

  lemma InitialFair(b: Branching, input: M.Msg)
    requires Untold(input)
    ensures AllFair(b, [], Initial(b.plan, input))
  {
  }

  // ----- The events

  function EventsAt(b: Branching, s: Run, m: Move): seq<Event> {
    match m
    case Act(a) => EventsOf(s, a)
    case Choose(c, k, chosen) =>
      if c in s.stations && k < |s.stations[c].active| then [Completed(c, b.text(chosen))] else []
  }

  function Announced(b: Branching, input: M.Msg, moves: seq<Move>): seq<Event> {
    if moves == [] then [] else
      var n := |moves| - 1;
      Announced(b, input, moves[..n]) + EventsAt(b, RunOf(b, input, moves[..n]), moves[n])
  }

  lemma ChooseTells(b: Branching, s: Run, events: seq<Event>, c: Id, k: nat, chosen: string)
    requires Tells(events, s) && c in s.stations && k < |s.stations[c].active|
    ensures Tells(events + [Completed(c, b.text(chosen))], DoChoose(b, s, c, k, chosen))
  {
    ChoiceEnding(b, s, c, k, chosen);
    hide EndedWith, DoChoose;
  }

  lemma {:induction false} RunTells(b: Branching, input: M.Msg, limit: nat, moves: seq<Move>)
    requires Scheduled(b, input, limit, moves)
    ensures Tells(Announced(b, input, moves), RunOf(b, input, moves))
  {
    hide Tells, EventsOf, Apply, Enabled, DoChoose;
    if moves == [] {
      InitialTells(b.plan, input);
    } else {
      var n := |moves| - 1;
      RunTells(b, input, limit, moves[..n]);
      var s := RunOf(b, input, moves[..n]);
      match moves[n]
      case Act(a) => TellsStep(b.plan, s, Announced(b, input, moves[..n]), a, limit);
      case Choose(c, k, chosen) => ChooseTells(b, s, Announced(b, input, moves[..n]), c, k, chosen);
    }
  }

  // ----- The verdict

  function IdsIn(steps: seq<Step>): (ids: set<Id>)
    ensures forall v :: v in ids <==> exists x :: x in steps && x.id == v
  {
    set x | x in steps :: x.id
  }

  lemma {:induction false} RunKeys(b: Branching, input: M.Msg, moves: seq<Move>)
    ensures RunOf(b, input, moves).stations.Keys == b.plan.ids
  {
    hide Send;
    if moves != [] {
      var n := |moves| - 1;
      RunKeys(b, input, moves[..n]);
      AfterKeys(b, RunOf(b, input, moves[..n]), moves[n]);
    }
  }

  lemma AfterKeys(b: Branching, s: Run, m: Move)
    ensures After(b, s, m).stations.Keys == s.stations.Keys
  {
    hide Send, WithChoice, M.Merge;
    match m
    case Act(a) =>
      match a {
        case Begin(_, _) =>
        case Finish(x, k, result) =>
          if x in s.stations && k < |s.stations[x].active| {
            S.SendKeeps(Recorded(s, x, k, result), b.plan.groups, x, s.stations[x].active[k].ref);
          }
        case Advance =>
      }
    case Choose(c, k, chosen) =>
      if c in s.stations && k < |s.stations[c].active| {
        S.SendKeeps(ChoiceRecorded(b, s, c, k, chosen), b.plan.groups, c, s.stations[c].active[k].ref);
      }
  }

  /** Every step that ended has succeeded, and every step has, or is marked as skipped. */
  ghost predicate DoneOrSkipped(b: Branching, s: Run, skipped: set<Id>) {
    && (forall v :: !EndedWith(s, v, None))
    && (forall x :: x in b.steps ==> Succeeded(s, x.id) || x.id in skipped)
  }

  /** What is known at the end. */
  ghost predicate Known(b: Branching, moves: seq<Move>, s: Run, events: seq<Event>, last: M.Msg) {
    && s.stations.Keys == IdsIn(b.steps) && Blank !in IdsIn(b.steps)
    && Tells(events, s) && Fair(b, moves, s, last)
  }

  lemma KnownAbout(b: Branching, moves: seq<Move>, s: Run, events: seq<Event>, last: M.Msg)
    requires Known(b, moves, s, events, last)
    ensures AboutAll(IdsIn(b.steps), events, last)
  {
    hide Chose, Unchosen, Marked;
    forall v | v in last.completed ensures v in IdsIn(b.steps) {
      var p :| EndedWith(s, v, Some(p));
    }
    forall v | v in last.skipped ensures v in IdsIn(b.steps) {
      assert PassedOver(b, moves, v);
    }
  }

  lemma AccountedIff(b: Branching, moves: seq<Move>, s: Run, events: seq<Event>, last: M.Msg, v: Id)
    requires Known(b, moves, s, events, last)
    ensures Accounted(events, last, v) <==> Succeeded(s, v) || v in last.skipped
  {
    hide EndedWith, Chose, Unchosen, Marked, PassedOver;
  }

  lemma KnownVerdict(b: Branching, moves: seq<Move>, s: Run, events: seq<Event>, last: M.Msg)
    requires Known(b, moves, s, events, last)
    ensures AllWell(IdsIn(b.steps), events, last) <==> DoneOrSkipped(b, s, last.skipped)
  {
    KnownAbout(b, moves, s, events, last);
    AllWellIff(IdsIn(b.steps), events, last);
    forall v ensures Accounted(events, last, v) <==> Succeeded(s, v) || v in last.skipped {
      AccountedIff(b, moves, s, events, last, v);
    }
    forall v | EndedWith(s, v, None) ensures v != Blank && Errored(v) in events {}
    hide AllWell, Accounted, AboutAll, Succeeded, Chose, Marked, PassedOver, Unchosen;
  }

  /** The last message knows every choice that was made, and none was made differently before. */
  ghost predicate KnowsChoices(moves: seq<Move>, last: M.Msg) {
    forall c, chosen :: Chose(moves, c, chosen) ==> c in last.conditionOutputs && last.conditionOutputs[c] == chosen
  }

  lemma SkippedIffPassedOver(b: Branching, moves: seq<Move>, s: Run, last: M.Msg, v: Id)
    requires Fair(b, moves, s, last) && KnowsChoices(moves, last) && v != Blank
    ensures Succeeded(s, v) || v in last.skipped <==> Succeeded(s, v) || PassedOver(b, moves, v)
  {
    hide EndedWith, Chose, Unchosen, Succeeded;
    if x, c, chosen :| x in b.steps && x.id == v && Chose(moves, c, chosen) && Unchosen(x, c, chosen) {
      assert Marked(b, last, c, chosen);
    }
  }

  /** A run of a workflow with conditions, whichever of its messages it comes to, is reported as completed exactly if no
      step has failed, and every step has succeeded or is marked as skipped in that message; so if that message knows
      all choices, and a condition that chose twice chose the same, exactly if no step has failed and every step has
      succeeded or been passed over by a choice. */
  lemma CompletedIffDoneOrSkipped(b: Branching, input: M.Msg, limit: nat, moves: seq<Move>, last: M.Msg)
    requires b.plan.ids == IdsIn(b.steps) && Blank !in IdsIn(b.steps)
    requires Scheduled(b, input, limit, moves) && Untold(input)
    requires last == M.EmptyMsg || last in RunOf(b, input, moves).heap
    ensures var s := RunOf(b, input, moves);
      var ok := AllWell(IdsIn(b.steps), Announced(b, input, moves), last);
      && (ok <==> (forall v :: !EndedWith(s, v, None)) &&
                  forall x :: x in b.steps ==> Succeeded(s, x.id) || x.id in last.skipped)
      && (KnowsChoices(moves, last) ==>
            (ok <==> (forall v :: !EndedWith(s, v, None)) &&
                     forall x :: x in b.steps ==> Succeeded(s, x.id) || PassedOver(b, moves, x.id)))
  {
    var s := RunOf(b, input, moves);
    RunTells(b, input, limit, moves);
    RunFair(b, input, limit, moves);
    RunKeys(b, input, moves);
    NothingSaid(b, moves, s);
    assert Fair(b, moves, s, last);
    hide RunOf, Announced, Fair, Tells, AllWell, Succeeded, EndedWith, PassedOver, KnowsChoices, Scheduled, Untold, AllFair;
    KnownVerdict(b, moves, s, Announced(b, input, moves), last);
    if KnowsChoices(moves, last) {
      forall x | x in b.steps
        ensures Succeeded(s, x.id) || x.id in last.skipped <==> Succeeded(s, x.id) || PassedOver(b, moves, x.id)
      {
        SkippedIffPassedOver(b, moves, s, last, x.id);
      }
    }
  }
}
