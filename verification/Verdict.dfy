/** From the events of a run to the verdict that is reported for it. */
module Verdict {
  import opened Wrappers
  import opened Graph
  import opened WorkflowSteps
  import opened WorkflowBuild
  import opened Supersteps
  import opened PlainWorkflows
  import opened Behaviours
  import opened Views
  import opened RunResults
  import T = RunTheorems
  import R = RunOrder
  import S = Sends
  import M = Messages

  // What a step puts on the event queue; Other stands for deltas, retries and pauses.
  datatype Event = Started(id: Id) | Completed(id: Id, output: Payload) | Errored(id: Id) | Other

  datatype Report = Report(ok: bool, completed: nat, failed: nat, skipped: nat, total: nat, outputs: map<Id, Payload>)

  function CompletedIn(events: seq<Event>): set<Id> {
    set e | e in events && e.Completed? && e.id != Blank :: e.id
  }

  function ErroredIn(events: seq<Event>): set<Id> {
    set e | e in events && e.Errored? && e.id != Blank :: e.id
  }

  lemma InEvents(events: seq<Event>, v: Id)
    ensures v in CompletedIn(events) <==> v != Blank && exists p :: Completed(v, p) in events
    ensures v in ErroredIn(events) <==> v != Blank && Errored(v) in events
  {
    if v in CompletedIn(events) {
      var e :| e in events && e.Completed? && e.id == v;
      assert Completed(v, e.output) in events;
    }
    if p :| Completed(v, p) in events && v != Blank {
      assert Completed(v, p).id in CompletedIn(events);
    }
    if Errored(v) in events && v != Blank {
      assert Errored(v).id in ErroredIn(events);
    }
  }

  /** The last output announced for each step. */
  function OutputsIn(events: seq<Event>): map<Id, Payload> {
    if events == [] then map[] else
      var n := |events| - 1;
      var before := OutputsIn(events[..n]);
      if events[n].Completed? && events[n].id != Blank then before[events[n].id := events[n].output] else before
  }

  /** No failure is known of, and every step is known to be completed or skipped. */
  predicate AllWell(all: set<Id>, events: seq<Event>, last: M.Msg) {
    && ErroredIn(events) == {} && last.failed == {}
    && |CompletedIn(events) + last.completed + last.skipped| >= |all|
  }

  lemma NothingYet()
    ensures CompletedIn([]) == {} && ErroredIn([]) == {} && OutputsIn([]) == map[]
  {
  }

  lemma OneMore(events: seq<Event>, i: nat)
    requires i < |events|
    ensures var was, now, e := events[..i], events[..i + 1], events[i];
      && CompletedIn(now) == (if e.Completed? && e.id != Blank then CompletedIn(was) + {e.id} else CompletedIn(was))
      && ErroredIn(now) == (if e.Errored? && e.id != Blank then ErroredIn(was) + {e.id} else ErroredIn(was))
      && OutputsIn(now) == (if e.Completed? && e.id != Blank then OutputsIn(was)[e.id := e.output] else OutputsIn(was))
  {
    assert events[..i + 1] == events[..i] + [events[i]];
  }

  /** v is known to be over: announced as completed, or completed or skipped according to the last message. */
  ghost predicate Accounted(events: seq<Event>, last: M.Msg, v: Id) {
    (exists p :: Completed(v, p) in events) || v in last.completed || v in last.skipped
  }

  /** Nothing is said of an id that is none of all. */
  ghost predicate AboutAll(all: set<Id>, events: seq<Event>, last: M.Msg) {
    && Blank !in all && last.completed <= all && last.skipped <= all
    && forall v, p :: Completed(v, p) in events && v != Blank ==> v in all
  }

  lemma SameSize(a: set<Id>, b: set<Id>)
    requires a <= b
    ensures |a| >= |b| <==> a == b
  {
    T.SubsetSize(a, b);
    if v :| v in b && v !in a {
      T.SubsetSize(a, b - {v});
    }
  }

  lemma AllWellIff(all: set<Id>, events: seq<Event>, last: M.Msg)
    requires AboutAll(all, events, last)
    ensures AllWell(all, events, last) <==>
      (forall v :: Errored(v) in events ==> v == Blank) && last.failed == {} && forall v :: v in all ==> Accounted(events, last, v)
  {
    var known := CompletedIn(events) + last.completed + last.skipped;
    forall v
      ensures v in all ==> (v in known <==> Accounted(events, last, v))
      ensures v in known ==> v in all
      ensures v in ErroredIn(events) <==> v != Blank && Errored(v) in events
    {
      InEvents(events, v);
    }
    SameSize(known, all);
    assert ErroredIn(events) == {} <==> forall v :: v !in ErroredIn(events);
    hide ErroredIn, CompletedIn, Accounted;
  }

  /** Follows the event queue to its end and then looks at the message the run came to, if any. A crash of the run
      counts as the failure of a step called marker. */
  method Follow(all: set<Id>, events: seq<Event>, final: Option<M.Msg>, crashed: bool, marker: Id) returns (r: Report)
    ensures var last := if !crashed && final.Some? then final.value else M.EmptyMsg;
      && r.ok == (!crashed && AllWell(all, events, last))
      && r.outputs == OutputsIn(events) + last.outputs && r.total == |all|
      && r.completed == |CompletedIn(events) + last.completed| && r.skipped == |last.skipped|
      && r.failed == |ErroredIn(events) + last.failed + if crashed then {marker} else {}|
    ensures var last := if !crashed && final.Some? then final.value else M.EmptyMsg;
      AboutAll(all, events, last) ==>
        (r.ok <==> !crashed && (forall v :: Errored(v) in events ==> v == Blank) && last.failed == {} &&
                   forall v :: v in all ==> Accounted(events, last, v))
  {
    ghost var last := if !crashed && final.Some? then final.value else M.EmptyMsg;
    hide CompletedIn, ErroredIn, OutputsIn, AboutAll, Accounted;
    if AboutAll(all, events, last) { AllWellIff(all, events, last); }
    NothingYet();
    var completed, failed, skipped: set<Id>, outputs := {}, {}, {}, map[];
    assert events[..0] == [];
    var i := 0;
    while i < |events|
      invariant 0 <= i <= |events|
      invariant completed == CompletedIn(events[..i]) && failed == ErroredIn(events[..i])
      invariant outputs == OutputsIn(events[..i])
    {
      OneMore(events, i);
      match events[i] {
        case Completed(id, output) =>
          if id != Blank {
            completed, outputs := completed + {id}, outputs[id := output];
          }
        case Errored(id) =>
          if id != Blank {
            failed := failed + {id};
          }
        case _ =>
      }
      i := i + 1;
    }
    assert events[..i] == events;
    if crashed {
      failed := failed + {marker};
    } else if final.Some? {
      outputs := outputs + final.value.outputs;
      skipped := final.value.skipped;
      failed := failed + final.value.failed;
      completed := completed + final.value.completed;
    }
    var ok := failed == {} && |completed + skipped| >= |all| - |failed|;
    r := Report(ok, |completed|, |failed|, |skipped|, |all|, outputs);
  }

  // ----- The events of a run

  function EventsOf(s: Run, a: Action): seq<Event> {
    match a
    case Begin(x, _) => [Started(x)]
    case Finish(x, k, result) =>
      if x in s.stations && k < |s.stations[x].active| then
        [if result.Some? then Completed(x, result.value) else Errored(x)]
      else []
    case Advance => []
  }

  function Log(plan: Plan, input: M.Msg, acts: seq<Action>): seq<Event> {
    if acts == [] then [] else
      var n := |acts| - 1;
      Log(plan, input, acts[..n]) + EventsOf(Exec(plan, input, acts[..n]), acts[n])
  }

  /** The events tell just what the steps have ended with. */
  ghost predicate Tells(events: seq<Event>, s: Run) {
    && (forall v, p :: Completed(v, p) in events <==> EndedWith(s, v, Some(p)))
    && (forall v :: Errored(v) in events <==> EndedWith(s, v, None))
  }

  /** No message claims more than has happened, and none has skipped a step. */
  ghost predicate Truthful(s: Run) {
    forall i :: 0 <= i < |s.heap| ==> TruthfulMsg(s, s.heap[i])
  }

  ghost predicate TruthfulMsg(s: Run, m: M.Msg) {
    && m.skipped == {}
    && (forall v :: v in m.failed ==> EndedWith(s, v, None))
    && (forall v :: v in m.completed ==> exists p :: EndedWith(s, v, Some(p)))
    && OutputsTrue(s, m)
  }

  lemma TellsStep(plan: Plan, s: Run, events: seq<Event>, a: Action, limit: nat)
    requires Tells(events, s) && Enabled(s, limit, a)
    ensures Tells(events + EventsOf(s, a), Apply(plan, s, a))
  {
    match a
    case Begin(x, k) =>
      QuietEndings(s, x, k);
      hide DoBegin, EndedWith;
    case Finish(x, k, result) =>
      FinishEnding(plan, s, x, k, result);
      hide DoFinish, EndedWith;
    case Advance =>
      QuietEndings(s, Blank, 0);
      hide DoAdvance, EndedWith, Enabled;
      assert events + [] == events;
  }

  lemma {:induction false} LogTells(plan: Plan, input: M.Msg, limit: nat, acts: seq<Action>)
    requires Schedule(plan, input, limit, acts)
    ensures Tells(Log(plan, input, acts), Exec(plan, input, acts))
  {
    hide Tells, EventsOf, Apply, Enabled;
    if acts == [] {
      InitialTells(plan, input);
    } else {
      var n := |acts| - 1;
      LogTells(plan, input, limit, acts[..n]);
      TellsStep(plan, Exec(plan, input, acts[..n]), Log(plan, input, acts[..n]), acts[n], limit);
    }
  }

  lemma InitialTells(plan: Plan, input: M.Msg)
    ensures Tells([], Initial(plan, input))
  {
  }

  lemma StaysTrue(s: Run, s': Run, m: M.Msg)
    requires TruthfulMsg(s, m) && forall v, r :: EndedWith(s, v, r) ==> EndedWith(s', v, r)
    ensures TruthfulMsg(s', m)
  {
    hide EndedWith;
    forall v | v in m.completed ensures exists p :: EndedWith(s', v, Some(p)) {
      var p :| EndedWith(s, v, Some(p));
      assert EndedWith(s', v, Some(p));
    }
  }

  lemma {:induction false} MergedTrue(s: Run, ms: seq<M.Msg>)
    requires forall i :: 0 <= i < |ms| ==> TruthfulMsg(s, ms[i])
    ensures TruthfulMsg(s, M.Merge(ms))
  {
    hide EndedWith;
    if ms != [] {
      MergedTrue(s, ms[..|ms| - 1]);
    }
  }

  lemma BeginTrue(s: Run, x: Id, k: nat)
    requires Truthful(s) && x in s.stations && k < |s.stations[x].now|
    ensures Truthful(DoBegin(s, x, k))
  {
    var s' := DoBegin(s, x, k);
    QuietEndings(s, x, k);
    forall i | 0 <= i < |s'.heap| ensures TruthfulMsg(s', s'.heap[i]) {
      if i < |s.heap| {
        StaysTrue(s, s', s.heap[i]);
      } else {
        var refs := s.stations[x].now[k].refs;
        assert TruthfulMsg(s, M.EmptyMsg);
        MergedTrue(s, ReadAll(s.heap, refs));
        hide EndedWith;
        StaysTrue(s, s', M.Merge(ReadAll(s.heap, refs)));
      }
    }
  }

  lemma ResultTrue(s: Run, x: Id, result: Option<Payload>, m: M.Msg)
    requires TruthfulMsg(s, m) && EndedWith(s, x, result)
    ensures TruthfulMsg(s, M.WithResult(m, x, result))
  {
    hide EndedWith;
  }

  lemma FinishTrue(plan: Plan, s: Run, x: Id, k: nat, result: Option<Payload>)
    requires Truthful(s) && x in s.stations && k < |s.stations[x].active|
    ensures Truthful(DoFinish(plan, s, x, k, result))
  {
    var s' := DoFinish(plan, s, x, k, result);
    FinishEnding(plan, s, x, k, result);
    assert EndedWith(s', x, result);
    hide EndedWith, DoFinish, TruthfulMsg;
    forall i | 0 <= i < |s'.heap| ensures TruthfulMsg(s', s'.heap[i]) {
      StaysTrue(s, s', s.heap[i]);
      ResultTrue(s', x, result, s.heap[i]);
    }
  }

  /** The message a run starts with knows of nothing. */
  ghost predicate Unused(input: M.Msg) {
    input.skipped == input.failed == input.completed == {} && input.outputs == map[]
  }

  lemma {:induction false} RunTrue(plan: Plan, input: M.Msg, limit: nat, acts: seq<Action>)
    requires Schedule(plan, input, limit, acts) && Unused(input)
    ensures Truthful(Exec(plan, input, acts))
  {
    hide DoFinish, DoBegin, DoAdvance, TruthfulMsg, EndedWith;
    if acts == [] {
      InitialTrue(plan, input);
    } else {
      var n := |acts| - 1;
      RunTrue(plan, input, limit, acts[..n]);
      var s := Exec(plan, input, acts[..n]);
      match acts[n]
      case Begin(x, k) => BeginTrue(s, x, k);
      case Finish(x, k, result) => FinishTrue(plan, s, x, k, result);
      case Advance => AdvanceTrue(s);
    }
  }

  lemma InitialTrue(plan: Plan, input: M.Msg)
    requires Unused(input)
    ensures Truthful(Initial(plan, input))
  {
  }

  lemma AdvanceTrue(s: Run)
    requires Truthful(s)
    ensures Truthful(DoAdvance(s))
  {
    QuietEndings(s, Blank, 0);
    forall i | 0 <= i < |s.heap| ensures TruthfulMsg(DoAdvance(s), s.heap[i]) {
      StaysTrue(s, DoAdvance(s), s.heap[i]);
    }
  }

  // ----- The verdict on a run

  ghost predicate AllSucceeded(g: Deps, s: Run) {
    forall v :: v in g ==> exists p :: v in s.stations && s.stations[v].ended == [Some(p)]
  }

  /** What is known of a run in which every step ends at most once. */
  ghost predicate Known(g: Deps, s: Run, events: seq<Event>, last: M.Msg) {
    && s.stations.Keys == g.Keys && Blank !in g && Tells(events, s) && TruthfulMsg(s, last)
    && (forall v :: v in g ==> |s.stations[v].ended| <= 1)
  }

  lemma SuccessIsOk(g: Deps, s: Run, events: seq<Event>, last: M.Msg)
    requires Known(g, s, events, last) && AllSucceeded(g, s)
    ensures AllWell(g.Keys, events, last)
  {
    forall v ensures !EndedWith(s, v, None) {
      if v in g {
        var p :| v in s.stations && s.stations[v].ended == [Some(p)];
      }
    }
    forall v | v in g ensures v in CompletedIn(events) {
      var p :| v in s.stations && s.stations[v].ended == [Some(p)];
      assert EndedWith(s, v, Some(p)) && Completed(v, p) in events;
    }
    T.SubsetSize(g.Keys, CompletedIn(events) + last.completed + last.skipped);
    assert ErroredIn(events) == {};
  }

  lemma FullSubset(a: set<Id>, b: set<Id>)
    requires a <= b && |a| >= |b|
    ensures a == b
  {
    if v :| v in b && v !in a {
      T.SubsetSize(a, b - {v});
    }
  }

  lemma CompletedEnded(g: Deps, s: Run, events: seq<Event>, last: M.Msg, v: Id) returns (p: Payload)
    requires Known(g, s, events, last) && v in CompletedIn(events) + last.completed + last.skipped
    ensures v in g && EndedWith(s, v, Some(p))
  {
    if v in CompletedIn(events) {
      var e :| e in events && e.Completed? && e.id != Blank && e.id == v;
      p := e.output;
      assert Completed(v, p) in events;
    } else {
      p :| EndedWith(s, v, Some(p));
    }
  }

  lemma OnlyEnding(s: Run, v: Id, p: Payload)
    requires EndedWith(s, v, Some(p)) && |s.stations[v].ended| <= 1
    ensures s.stations[v].ended == [Some(p)]
  {
    var i :| 0 <= i < |s.stations[v].ended| && s.stations[v].ended[i] == Some(p);
  }

  lemma KnownOnce(g: Deps, s: Run, events: seq<Event>, last: M.Msg, v: Id)
    requires Known(g, s, events, last) && v in g
    ensures v in s.stations && |s.stations[v].ended| <= 1
  {
  }

  lemma OkIsSuccess(g: Deps, s: Run, events: seq<Event>, last: M.Msg)
    requires Known(g, s, events, last) && AllWell(g.Keys, events, last)
    ensures AllSucceeded(g, s)
  {
    var known := CompletedIn(events) + last.completed + last.skipped;
    hide CompletedIn, ErroredIn, Known, EndedWith;
    forall v | v in known ensures v in g {
      var p := CompletedEnded(g, s, events, last, v);
    }
    FullSubset(known, g.Keys);
    forall v | v in g ensures exists p :: v in s.stations && s.stations[v].ended == [Some(p)] {
      var p := CompletedEnded(g, s, events, last, v);
      KnownOnce(g, s, events, last, v);
      OnlyEnding(s, v, p);
    }
  }

  lemma LastTrue(steps: seq<Step>, s: Run, last: M.Msg)
    requires Plain(steps) && Truthful(s) && (last == M.EmptyMsg || last in s.heap)
    ensures Blank !in DepsOf(steps) && TruthfulMsg(s, last)
  {
  }

  lemma RunKnown(steps: seq<Step>, wf: Workflow, order: seq<Id>, input: M.Msg, limit: nat, acts: seq<Action>,
                 last: M.Msg)
    requires T.Runnable(steps, wf, order) && Unused(input) && Schedule(PlanOf(steps, wf), input, limit, acts)
    requires last == M.EmptyMsg || last in Exec(PlanOf(steps, wf), input, acts).heap
    ensures Known(DepsOf(steps), Exec(PlanOf(steps, wf), input, acts), Log(PlanOf(steps, wf), input, acts), last)
  {
    hide *;
    var g, plan, s := DepsOf(steps), PlanOf(steps, wf), Exec(PlanOf(steps, wf), input, acts);
    T.RunnableParts(steps, wf, order);
    LogTells(plan, input, limit, acts);
    RunTrue(plan, input, limit, acts);
    var rank := T.RunnableInv(steps, wf, order, input, limit, acts);
    R.InvBuffers(g, plan, rank, s);
    LastTrue(steps, s, last);
    forall v | v in g ensures |s.stations[v].ended| <= 1 {
      R.InvAt(g, plan, rank, s, v);
      T.EndedOnce(rank[v], R.Ready(g, s, v), s.superstep, s.stations[v]);
    }
    MakeKnown(g, s, Log(plan, input, acts), last);
  }

  lemma MakeKnown(g: Deps, s: Run, events: seq<Event>, last: M.Msg)
    requires s.stations.Keys == g.Keys && Blank !in g && Tells(events, s) && TruthfulMsg(s, last)
    requires forall v :: v in g ==> |s.stations[v].ended| <= 1
    ensures Known(g, s, events, last)
  {
  }

  /** A run of a plain workflow is reported as completed exactly if every step has succeeded, whichever of its
      messages the run comes to, or none; so a run that was cut short is not. */
  lemma CompletedIffAllSucceeded(steps: seq<Step>, wf: Workflow, order: seq<Id>, input: M.Msg, limit: nat,
                                 acts: seq<Action>,
                                 last: M.Msg)
    requires T.Runnable(steps, wf, order) && Unused(input) && Schedule(PlanOf(steps, wf), input, limit, acts)
    requires last == M.EmptyMsg || last in Exec(PlanOf(steps, wf), input, acts).heap
    ensures AllWell(DepsOf(steps).Keys, Log(PlanOf(steps, wf), input, acts), last) <==>
            AllSucceeded(DepsOf(steps), Exec(PlanOf(steps, wf), input, acts))
  {
    hide *;
    RunKnown(steps, wf, order, input, limit, acts, last);
    var g, s, events := DepsOf(steps), Exec(PlanOf(steps, wf), input, acts), Log(PlanOf(steps, wf), input, acts);
    if AllSucceeded(g, s) {
      SuccessIsOk(g, s, events, last);
    }
    if AllWell(g.Keys, events, last) {
      OkIsSuccess(g, s, events, last);
    }
  }

  // ----- The outputs reported

  /** Event number i is the last in which v is announced as completed. */
  ghost predicate LastAnnounced(events: seq<Event>, v: Id, i: nat) {
    && i < |events| && events[i].Completed? && events[i].id == v
    && forall k :: i < k < |events| && events[k].Completed? ==> events[k].id != v
  }

  /** The outputs told are those last announced. */
  lemma {:induction false} OutputsAnnounced(events: seq<Event>, v: Id)
    ensures v in OutputsIn(events) <==> v != Blank && exists i: nat :: LastAnnounced(events, v, i)
    ensures v in OutputsIn(events) ==> forall i: nat :: LastAnnounced(events, v, i) ==> events[i].output == OutputsIn(events)[v]
    ensures v != Blank && (exists p :: Completed(v, p) in events) ==> v in OutputsIn(events)
    ensures v in OutputsIn(events) ==> Completed(v, OutputsIn(events)[v]) in events
  {
    if events != [] {
      var n := |events| - 1;
      assert events == events[..n] + [events[n]];
      OutputsAnnounced(events[..n], v);
      if events[n].Completed? && events[n].id == v {
        assert LastAnnounced(events, v, n);
      } else {
        forall i: nat ensures LastAnnounced(events, v, i) <==> LastAnnounced(events[..n], v, i) {}
      }
    }
  }

  /** What is reported of a step is how it has ended. */
  lemma ReportedOf(g: Deps, s: Run, events: seq<Event>, last: M.Msg, v: Id)
    requires Known(g, s, events, last)
    ensures var reported := OutputsIn(events) + last.outputs;
      && (v in reported <==> v in FinalOutputs(s)) && (v in reported ==> reported[v] == FinalOutputs(s)[v])
  {
    OutputsAnnounced(events, v);
    if p :| Completed(v, p) in events {
      assert EndedWith(s, v, Some(p));
    }
    forall p | EndedWith(s, v, Some(p)) ensures v in g && s.stations[v].ended == [Some(p)] && Completed(v, p) in events {
      KnownOnce(g, s, events, last, v);
      OnlyEnding(s, v, p);
    }
    if v in FinalOutputs(s) {
      assert EndedWith(s, v, s.stations[v].ended[0]);
    }
  }

  /** The outputs that a run of a plain workflow reports, from its events and whichever of its messages it comes to, are
      those with which its steps have ended. */
  lemma ReportedAreFinal(steps: seq<Step>, wf: Workflow, order: seq<Id>, input: M.Msg, limit: nat, acts: seq<Action>,
                         last: M.Msg)
    requires T.Runnable(steps, wf, order) && Unused(input) && Schedule(PlanOf(steps, wf), input, limit, acts)
    requires last == M.EmptyMsg || last in Exec(PlanOf(steps, wf), input, acts).heap
    ensures OutputsIn(Log(PlanOf(steps, wf), input, acts)) + last.outputs == FinalOutputs(Exec(PlanOf(steps, wf), input, acts))
  {
    hide *;
    RunKnown(steps, wf, order, input, limit, acts, last);
    var g, s, events := DepsOf(steps), Exec(PlanOf(steps, wf), input, acts), Log(PlanOf(steps, wf), input, acts);
    forall v ensures var reported := OutputsIn(events) + last.outputs;
      && (v in reported <==> v in FinalOutputs(s)) && (v in reported ==> reported[v] == FinalOutputs(s)[v])
    {
      ReportedOf(g, s, events, last, v);
    }
  }

  /** So two complete runs report the same outputs, whatever their interleavings and the messages they come to, as long as
      the steps' behaviour is confluent. */
  lemma ReportsDoNotDependOnSchedule(steps: seq<Step>, wf: Workflow, order: seq<Id>, input: M.Msg, behave: Behaviour,
                                     limit: nat, acts: seq<Action>, last: M.Msg,
                                     limit': nat, acts': seq<Action>, last': M.Msg)
    requires T.Runnable(steps, wf, order) && Unused(input) && Confluent(steps, wf, behave)
    requires Completes(steps, wf, input, behave, limit, acts) && Completes(steps, wf, input, behave, limit', acts')
    requires last == M.EmptyMsg || last in Exec(PlanOf(steps, wf), input, acts).heap
    requires last' == M.EmptyMsg || last' in Exec(PlanOf(steps, wf), input, acts').heap
    ensures OutputsIn(Log(PlanOf(steps, wf), input, acts)) + last.outputs ==
            OutputsIn(Log(PlanOf(steps, wf), input, acts')) + last'.outputs
  {
    assert Fresh(input);
    assert SameResults(DepsOf(steps), Exec(PlanOf(steps, wf), input, acts), Exec(PlanOf(steps, wf), input, acts'));
    ReportedAreFinal(steps, wf, order, input, limit, acts, last);
    ReportedAreFinal(steps, wf, order, input, limit', acts', last');
  }
}
