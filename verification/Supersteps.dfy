/** The execution library as the workflow code relies on it: steps run in supersteps, in any order within one,
    and what they send is delivered in the next. Messages are objects, shared by everyone they are delivered to. */
module Supersteps {
  import opened Wrappers
  import opened Graph
  import opened Sequences
  import opened WorkflowBuild
  import M = Messages

  type Payload = M.Payload

  // A message object is named by its place in the heap.
  type Ref = nat

  /** What reaches a step at once: one message, or all those a fan-in group has gathered. */
  datatype Batch = One(ref: Ref) | Gathered(refs: seq<Ref>)

  /** A step at work on a message, with what it read there when it began. */
  datatype Activation = Activation(ref: Ref, seen: map<Id, Payload>, user: Option<Payload>)

  /** now waits to run in this superstep, next in the following one; begun holds the supersteps in which the step
      was started, ended the results it has come to. */
  datatype Station = Station(
    now: seq<Batch>,
    next: seq<Batch>,
    active: seq<Activation>,
    begun: seq<nat>,
    ended: seq<Option<Payload>>)

  /** buffers holds, for each fan-in group, which source has sent which message since it last delivered. */
  datatype Run = Run(stations: map<Id, Station>, heap: seq<M.Msg>, buffers: map<nat, seq<(Id, Ref)>>, superstep: nat)

  datatype Action = Begin(step: Id, batch: nat) | Finish(step: Id, activation: nat, result: Option<Payload>) | Advance

  /** The steps, the groups to deliver along, and the steps that never forward. */
  datatype Plan = Plan(ids: set<Id>, start: Id, groups: seq<EdgeGroup>, ends: set<Id>)

  function Initial(plan: Plan, input: M.Msg): Run {
    Run(map x | x in plan.ids :: Station(if x == plan.start then [One(0)] else [], [], [], [], []), [input], map[], 0)
  }

  function Read(heap: seq<M.Msg>, ref: Ref): M.Msg {
    if ref < |heap| then heap[ref] else M.EmptyMsg
  }

  function ReadAll(heap: seq<M.Msg>, refs: seq<Ref>): (ms: seq<M.Msg>)
    ensures |ms| == |refs| && forall i :: 0 <= i < |refs| ==> ms[i] == Read(heap, refs[i])
  {
    if refs == [] then [] else ReadAll(heap, refs[..|refs| - 1]) + [Read(heap, refs[|refs| - 1])]
  }

  // ----- Sending

  function DeliverTo(stations: map<Id, Station>, t: Id, b: Batch): map<Id, Station> {
    if t in stations then stations[t := stations[t].(next := stations[t].next + [b])] else stations
  }

  function DeliverToAll(stations: map<Id, Station>, ts: seq<Id>, b: Batch): map<Id, Station> {
    if ts == [] then stations else
      DeliverTo(DeliverToAll(stations, ts[..|ts| - 1], b), ts[|ts| - 1], b)
  }

  function Buffer(s: Run, k: nat): seq<(Id, Ref)> {
    if k in s.buffers then s.buffers[k] else []
  }

  predicate HasSent(buffer: seq<(Id, Ref)>, d: Id) {
    exists i :: 0 <= i < |buffer| && buffer[i].0 == d
  }

  function Refs(buffer: seq<(Id, Ref)>): (refs: seq<Ref>)
    ensures |refs| == |buffer| && forall i :: 0 <= i < |buffer| ==> refs[i] == buffer[i].1
  {
    if buffer == [] then [] else Refs(buffer[..|buffer| - 1]) + [buffer[|buffer| - 1].1]
  }

  /** The first case with the chosen label, or the default. */
  function Route(cases: seq<(string, Id)>, otherwise: Id, chosen: Option<string>): Id {
    if cases == [] then otherwise
    else if chosen == Some(cases[0].0) then cases[0].1
    else Route(cases[1..], otherwise, chosen)
  }

  function Chosen(m: M.Msg, condition: Id): Option<string> {
    if condition in m.conditionOutputs then Some(m.conditionOutputs[condition]) else None
  }

  predicate Complete(sources: seq<Id>, buffer: seq<(Id, Ref)>) {
    forall d :: d in sources ==> HasSent(buffer, d)
  }

  /** Group number k passes on what a step has sent; a fan-in group delivers once every source has sent. */
  function SendVia(s: Run, k: nat, e: EdgeGroup, step: Id, ref: Ref): Run {
    match e
    case FanIn(sources, target) =>
      if step !in sources then s else
        var buffer := Buffer(s, k) + [(step, ref)];
        if Complete(sources, buffer) then
          s.(stations := DeliverTo(s.stations, target, Gathered(Refs(buffer))), buffers := s.buffers[k := []])
        else
          s.(buffers := s.buffers[k := buffer])
    case FanOut(source, targets) =>
      if step == source then s.(stations := DeliverToAll(s.stations, targets, One(ref))) else s
    case Single(source, target) =>
      if step == source then s.(stations := DeliverTo(s.stations, target, One(ref))) else s
    case Switch(source, cases, otherwise) =>
      if step == source then
        s.(stations := DeliverTo(s.stations, Route(cases, otherwise, Chosen(Read(s.heap, ref), source)), One(ref)))
      else s
  }

  function Send(s: Run, groups: seq<EdgeGroup>, step: Id, ref: Ref): Run {
    if groups == [] then s else
      var n := |groups| - 1;
      SendVia(Send(s, groups[..n], step, ref), n, groups[n], step, ref)
  }

  // ----- Running

  predicate Resting(st: Station) {
    st.now == [] && st.active == []
  }

  /** What may happen next, in a run of at most limit supersteps. */
  predicate Enabled(s: Run, limit: nat, a: Action) {
    match a
    case Begin(x, k) => x in s.stations && k < |s.stations[x].now|
    case Finish(x, k, _) => x in s.stations && k < |s.stations[x].active|
    case Advance =>
      && (forall x :: x in s.stations ==> Resting(s.stations[x]))
      && (exists x :: x in s.stations && s.stations[x].next != [])
      && s.superstep + 1 < limit
  }

  /** A step starts on a batch. A single message is worked on in place, a gathered one is merged into a new message. */
  function DoBegin(s: Run, x: Id, k: nat): Run
    requires x in s.stations && k < |s.stations[x].now|
  {
    var st := s.stations[x];
    var heap := if st.now[k].One? then s.heap else s.heap + [M.Merge(ReadAll(s.heap, st.now[k].refs))];
    var ref := if st.now[k].One? then st.now[k].ref else |s.heap|;
    var work := Activation(ref, Read(heap, ref).outputs, Read(heap, ref).userInput);
    s.(heap := heap,
       stations := s.stations[x := st.(now := Without(st.now, k), active := st.active + [work], begun := st.begun + [s.superstep])])
  }

  /** A step writes its result into its message. */
  function Recorded(s: Run, x: Id, k: nat, result: Option<Payload>): Run
    requires x in s.stations && k < |s.stations[x].active|
  {
    var st := s.stations[x];
    var ref := st.active[k].ref;
    var heap := if ref < |s.heap| then s.heap[ref := M.WithResult(s.heap[ref], x, result)] else s.heap;
    s.(heap := heap, stations := s.stations[x := st.(active := Without(st.active, k), ended := st.ended + [result])])
  }

  /** A step that is done forwards its message, failed or not; an end step does not forward. */
  function DoFinish(plan: Plan, s: Run, x: Id, k: nat, result: Option<Payload>): Run
    requires x in s.stations && k < |s.stations[x].active|
  {
    var recorded := Recorded(s, x, k, result);
    if x in plan.ends then recorded else Send(recorded, plan.groups, x, s.stations[x].active[k].ref)
  }

  function DoAdvance(s: Run): Run {
    s.(superstep := s.superstep + 1,
       stations := map x | x in s.stations :: s.stations[x].(now := s.stations[x].now + s.stations[x].next, next := []))
  }

  function Apply(plan: Plan, s: Run, a: Action): Run {
    match a
    case Begin(x, k) => if x in s.stations && k < |s.stations[x].now| then DoBegin(s, x, k) else s
    case Finish(x, k, result) =>
      if x in s.stations && k < |s.stations[x].active| then DoFinish(plan, s, x, k, result) else s
    case Advance => DoAdvance(s)
  }

  function Exec(plan: Plan, input: M.Msg, acts: seq<Action>): Run {
    if acts == [] then Initial(plan, input) else
      Apply(plan, Exec(plan, input, acts[..|acts| - 1]), acts[|acts| - 1])
  }

  /** Every action was possible when it happened. */
  predicate Schedule(plan: Plan, input: M.Msg, limit: nat, acts: seq<Action>) {
    acts == [] ||
    var n := |acts| - 1;
    Schedule(plan, input, limit, acts[..n]) && Enabled(Exec(plan, input, acts[..n]), limit, acts[n])
  }

  /** Nothing can happen any more. */
  ghost predicate Halted(s: Run, limit: nat) {
    forall a :: !Enabled(s, limit, a)
  }
}
