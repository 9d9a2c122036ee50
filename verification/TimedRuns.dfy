/** Every plain workflow has complete runs in which a given step runs before all others of its rank, or after them; so
    the outputs that a step may find or not are just those that make its result depend on the schedule. */
module TimedRuns {
  import opened Wrappers
  import opened Graph
  import opened Ranks
  import opened WorkflowSteps
  import opened WorkflowBuild
  import opened Supersteps
  import opened RunOrder
  import opened PlainWorkflows
  import opened MessageObjects
  import opened ObjectRuns
  import opened Behaviours
  import opened Views
  import opened RunResults
  import T = RunTheorems
  import M = Messages

  // ----- Keeping to a timing

  /** What the timing allows to happen next. */
  ghost predicate InTurn(c: Setting, s: Run, a: Action) {
    match c.timing
    case Whenever => true
    case Early(w) => a.Begin? && Others(c, s, w, a.step) ==> Ended(s, w)
    case Late(w) => a.Finish? && a.step == w ==> forall x :: Others(c, s, w, x) ==> s.stations[x].begun != []
  }

  /** A run in which every action was possible, an answer as the step behaves, and in turn. */
  ghost predicate Taken(c: Setting, input: M.Msg, limit: nat, acts: seq<Action>) {
    acts == [] ||
    var n := |acts| - 1;
    var s := Exec(c.plan, input, acts[..n]);
    Taken(c, input, limit, acts[..n]) && Enabled(s, limit, acts[n]) && Answered(s, c.behave, acts[n]) && InTurn(c, s, acts[n])
  }

  /** What has begun or ended after one action. */
  ghost predicate Steps(s: Run, s': Run, a: Action) {
    && s'.stations.Keys == s.stations.Keys
    && (forall v :: v in s.stations ==> s'.stations[v].begun == [] || s.stations[v].begun != [] || (a.Begin? && v == a.step))
    && (forall v :: v in s.stations ==> s.stations[v].begun != [] ==> s'.stations[v].begun != [])
    && (forall v :: Ended(s', v) ==> Ended(s, v) || (a.Finish? && v == a.step))
    && (forall v :: Ended(s, v) ==> Ended(s', v))
  }

  lemma BeginSteps(s: Run, x: Id, k: nat)
    requires x in s.stations && k < |s.stations[x].now|
    ensures Steps(s, DoBegin(s, x, k), Begin(x, k))
  {
  }

  lemma FinishSteps(plan: Plan, s: Run, x: Id, k: nat, result: Option<Payload>)
    requires x in s.stations && k < |s.stations[x].active|
    ensures Steps(s, DoFinish(plan, s, x, k, result), Finish(x, k, result))
  {
    FinishShape(plan, s, x, k, result);
    hide DoFinish;
  }

  lemma ApplySteps(plan: Plan, s: Run, limit: nat, a: Action)
    requires Enabled(s, limit, a)
    ensures Steps(s, Apply(plan, s, a), a)
  {
    hide DoBegin, DoFinish;
    match a
    case Begin(x, k) => BeginSteps(s, x, k);
    case Finish(x, k, result) => FinishSteps(plan, s, x, k, result);
    case Advance =>
  }

  lemma KeptNext(c: Setting, s: Run, s': Run, a: Action)
    requires Kept(c, s) && InTurn(c, s, a) && Steps(s, s', a)
    ensures Kept(c, s')
  {
    hide Ended;
    match c.timing
    case Whenever =>
    case Early(w) =>
      forall x | Others(c, s', w, x) && s'.stations[x].begun != [] ensures Ended(s', w) {
        assert Others(c, s, w, x);
      }
    case Late(w) =>
      forall x | Others(c, s', w, x) && s'.stations[x].begun == [] ensures !Ended(s', w) {
        assert Others(c, s, w, x);
      }
  }

  lemma {:induction false} TakenRuns(c: Setting, input: M.Msg, limit: nat, acts: seq<Action>)
    requires Taken(c, input, limit, acts)
    ensures Schedule(c.plan, input, limit, acts) && Follows(c.plan, input, c.behave, acts) && KeptAlways(c, input, acts)
  {
    hide Enabled, Answered, InTurn, Apply, Kept, Initial;
    if acts == [] {
      InitialKept(c, input);
    } else {
      var n := |acts| - 1;
      TakenRuns(c, input, limit, acts[..n]);
      var s := Exec(c.plan, input, acts[..n]);
      ApplySteps(c.plan, s, limit, acts[n]);
      KeptNext(c, s, Apply(c.plan, s, acts[n]), acts[n]);
    }
  }

  lemma InitialKept(c: Setting, input: M.Msg)
    ensures Kept(c, Initial(c.plan, input))
  {
    assert forall v :: !Ended(Initial(c.plan, input), v);
  }

  // ----- Going on for as long as possible

  ghost function AsBehaved(c: Setting, s: Run, a: Action): Action {
    if a.Finish? && a.step in s.stations && a.activation < |s.stations[a.step].active| then
      var w := s.stations[a.step].active[a.activation];
      Finish(a.step, a.activation, c.behave(a.step, w.seen, w.user))
    else a
  }

  lemma AsBehavedFits(c: Setting, s: Run, limit: nat, a: Action)
    requires Enabled(s, limit, a) && InTurn(c, s, a)
    ensures var b := AsBehaved(c, s, a); Enabled(s, limit, b) && InTurn(c, s, b) && Answered(s, c.behave, b)
  {
  }

  /** Nothing that can happen is in turn. */
  ghost predicate Stuck(c: Setting, s: Run, limit: nat) {
    forall a :: Enabled(s, limit, a) ==> !InTurn(c, s, a)
  }

  lemma TakenShort(c: Setting, input: M.Msg, limit: nat, acts: seq<Action>)
    requires Delivers(c.g, c.plan) && Ranked(c.g, c.rank) && limit > 0 && Taken(c, input, limit, acts)
    ensures |acts| < 2 * |c.g.Keys| + limit
  {
    hide *;
    TakenRuns(c, input, limit, acts);
    RunInv(c.g, c.plan, c.rank, input, limit, acts);
    InvBuffers(c.g, c.plan, c.rank, Exec(c.plan, input, acts));
    T.RunPaced(c.g, c.plan, c.rank, input, limit, acts);
    T.PacedBound(c.rank, Exec(c.plan, input, acts), limit, |acts|);
  }

  lemma OneMoreTaken(c: Setting, input: M.Msg, limit: nat, acts: seq<Action>, a: Action)
    requires Taken(c, input, limit, acts)
    requires var s := Exec(c.plan, input, acts); Enabled(s, limit, a) && InTurn(c, s, a) && Answered(s, c.behave, a)
    ensures Taken(c, input, limit, acts + [a])
  {
    assert (acts + [a])[..|acts|] == acts;
  }

  lemma {:induction false} GoOn(c: Setting, input: M.Msg, limit: nat, acts: seq<Action>) returns (all: seq<Action>)
    requires Delivers(c.g, c.plan) && Ranked(c.g, c.rank) && limit > 0 && Taken(c, input, limit, acts)
    ensures Taken(c, input, limit, all) && Stuck(c, Exec(c.plan, input, all), limit)
    decreases 2 * |c.g.Keys| + limit - |acts|
  {
    hide Delivers, Ranked, Taken, Enabled, InTurn, Answered, Exec, AsBehaved;
    var s := Exec(c.plan, input, acts);
    TakenShort(c, input, limit, acts);
    if a :| Enabled(s, limit, a) && InTurn(c, s, a) {
      AsBehavedFits(c, s, limit, a);
      OneMoreTaken(c, input, limit, acts, AsBehaved(c, s, a));
      TakenShort(c, input, limit, acts + [AsBehaved(c, s, a)]);
      all := GoOn(c, input, limit, acts + [AsBehaved(c, s, a)]);
    } else {
      all := acts;
    }
  }

  // ----- No run gets stuck over its timing

  lemma LowerEnded(c: Setting, s: Run, v: Id)
    requires Ranked(c.g, c.rank) && Caught(c, s) && v in c.rank && c.rank[v] <= s.superstep
    ensures Ready(c.g, s, v)
  {
  }

  /** Once its superstep has come, a step that has not ended waits to begin or is at work. */
  lemma NotEndedYet(c: Setting, s: Run, v: Id)
    requires Ranked(c.g, c.rank) && Inv(c.g, c.plan, c.rank, s) && Caught(c, s)
    requires v in c.rank && v in s.stations && c.rank[v] == s.superstep && !Ended(s, v)
    ensures s.stations[v].now != [] || s.stations[v].active != []
    ensures s.stations[v].begun == [] ==> s.stations[v].now != []
  {
    LowerEnded(c, s, v);
    InvBuffers(c.g, c.plan, c.rank, s);
    InvAt(c.g, c.plan, c.rank, s, v);
    hide Inv, Ranked, Caught, Ready;
  }

  lemma BusyRank(c: Setting, s: Run, v: Id)
    requires Inv(c.g, c.plan, c.rank, s) && v in s.stations && (s.stations[v].now != [] || s.stations[v].active != [])
    ensures v in c.rank && c.rank[v] == s.superstep && !Ended(s, v) && v in c.g
  {
    InvAt(c.g, c.plan, c.rank, s, v);
    hide Inv;
  }

  lemma EarlyMoves(c: Setting, s: Run, limit: nat, w: Id, x: Id)
    requires Ranked(c.g, c.rank) && Inv(c.g, c.plan, c.rank, s) && Caught(c, s) && c.timing == Early(w)
    requires Others(c, s, w, x) && s.stations[x].now != [] && !Ended(s, w) && w in s.stations
    ensures !Stuck(c, s, limit)
  {
    BusyRank(c, s, x);
    NotEndedYet(c, s, w);
    hide Ranked, Inv, Caught;
    if s.stations[w].now != [] {
      assert Enabled(s, limit, Begin(w, 0)) && InTurn(c, s, Begin(w, 0));
    } else {
      assert Enabled(s, limit, Finish(w, 0, None)) && InTurn(c, s, Finish(w, 0, None));
    }
  }

  lemma LateMoves(c: Setting, s: Run, limit: nat, w: Id, x: Id)
    requires Ranked(c.g, c.rank) && Inv(c.g, c.plan, c.rank, s) && Caught(c, s) && c.timing == Late(w)
    requires Others(c, s, w, x) && s.stations[x].begun == [] && w in s.stations && s.stations[w].active != []
    ensures !Stuck(c, s, limit)
  {
    BusyRank(c, s, w);
    NotBegunNotEnded(c, s, x);
    NotEndedYet(c, s, x);
    hide Ranked, Inv, Caught;
    assert Enabled(s, limit, Begin(x, 0)) && InTurn(c, s, Begin(x, 0));
  }

  lemma NotBegunNotEnded(c: Setting, s: Run, x: Id)
    requires Inv(c.g, c.plan, c.rank, s) && x in s.stations && s.stations[x].begun == []
    ensures !Ended(s, x)
  {
    InvAt(c.g, c.plan, c.rank, s, x);
    hide Inv;
  }

  lemma StuckHalts(c: Setting, s: Run, limit: nat)
    requires Ranked(c.g, c.rank) && Inv(c.g, c.plan, c.rank, s) && Caught(c, s) && Stuck(c, s, limit)
    requires c.timing.Whenever? || c.timing.step in c.g
    ensures Halted(s, limit)
  {
    InvBuffers(c.g, c.plan, c.rank, s);
    hide Ranked, Inv, Caught, Others;
    forall a ensures !Enabled(s, limit, a) {
      if Enabled(s, limit, a) {
        assert !InTurn(c, s, a);
        match c.timing
        case Whenever =>
        case Early(w) => EarlyMoves(c, s, limit, w, a.step);
        case Late(w) =>
          var x :| Others(c, s, w, x) && s.stations[x].begun == [];
          LateMoves(c, s, limit, w, x);
      }
    }
  }

  lemma TakenCaught(c: Setting, input: M.Msg, limit: nat, acts: seq<Action>)
    requires Delivers(c.g, c.plan) && SolesPlain(c.g, c.plan) && Ranked(c.g, c.rank) && Taken(c, input, limit, acts)
    requires Fresh(input) && input.userInput == c.user
    ensures Inv(c.g, c.plan, c.rank, Exec(c.plan, input, acts)) && Caught(c, Exec(c.plan, input, acts))
  {
    hide *;
    TakenRuns(c, input, limit, acts);
    var at := RunViewed(c, input, limit, acts);
    ViewedParts(c, Exec(c.plan, input, acts), at);
  }

  lemma NothingTaken(c: Setting, input: M.Msg, limit: nat)
    ensures Taken(c, input, limit, [])
  {
  }

  /** A complete run with the given timing. */
  lemma TimedRun(steps: seq<Step>, wf: Workflow, order: seq<Id>, rank: map<Id, nat>, timing: Timing, behave: Behaviour,
                 input: M.Msg) returns (acts: seq<Action>)
    requires T.Runnable(steps, wf, order) && Ranked(DepsOf(steps), rank) && Fresh(input)
    requires timing.Whenever? || timing.step in DepsOf(steps)
    ensures Completes(steps, wf, input, behave, |order|, acts)
    ensures KeptAlways(SettingOf(steps, wf, rank, timing, behave, input), input, acts)
  {
    hide *;
    var c := SettingOf(steps, wf, rank, timing, behave, input);
    SettingAt(steps, wf, rank, timing, behave, input);
    RunnableSettings(steps, wf, order, rank);
    OrderSome(steps, wf, order);
    NothingTaken(c, input, |order|);
    acts := GoOn(c, input, |order|, []);
    TakenRuns(c, input, |order|, acts);
    TakenCaught(c, input, |order|, acts);
    StuckHalts(c, Exec(c.plan, input, acts), |order|);
    HaltedCompletes(steps, wf, order, input, behave, acts);
  }

  lemma OrderSome(steps: seq<Step>, wf: Workflow, order: seq<Id>)
    requires T.Runnable(steps, wf, order)
    ensures |order| > 0 && T.PathsWithin(DepsOf(steps), |order|)
  {
    T.PathsWithinOrder(DepsOf(steps), order);
    hide DepsOf, T.PathsWithin, Topological, EdgesExact;
    StartKnown(steps);
    InOrder(DepsOf(steps), order, StartOf(steps).id);
  }

  lemma InOrder(g: Deps, order: seq<Id>, x: Id)
    requires Topological(g, order) && x in g
    ensures |order| > 0
  {
    assert x in order;
  }

  lemma StartKnown(steps: seq<Step>)
    requires Plain(steps)
    ensures StartOf(steps).id in DepsOf(steps)
  {
    assert HasStep(steps, StartOf(steps).id) by {
      var i :| 0 <= i < |steps| && steps[i] == StartOf(steps);
    }
  }

  lemma HaltedCompletes(steps: seq<Step>, wf: Workflow, order: seq<Id>, input: M.Msg, behave: Behaviour, acts: seq<Action>)
    requires T.Runnable(steps, wf, order) && |order| > 0 && T.PathsWithin(DepsOf(steps), |order|)
    requires Schedule(PlanOf(steps, wf), input, |order|, acts) && Follows(PlanOf(steps, wf), input, behave, acts)
    requires Halted(Exec(PlanOf(steps, wf), input, acts), |order|)
    ensures Completes(steps, wf, input, behave, |order|, acts)
  {
    hide T.Runnable, T.PathsWithin, Schedule, Follows, Halted, T.AllEnded, DepsOf, PlanOf, Exec;
    T.CompleteIffPathsFit(steps, wf, order, input, |order|, acts);
  }
}
