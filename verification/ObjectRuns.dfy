/** In every run of a plain workflow each step works on the message object that its root has brought about. */
module ObjectRuns {
  import opened Wrappers
  import opened Graph
  import opened Sequences
  import opened Ranks
  import opened WorkflowBuild
  import opened Supersteps
  import opened RunOrder
  import opened MessageObjects
  import S = Sends
  import M = Messages

  /** A step that waits for one step only is reached by an edge from there. */
  ghost predicate SolesPlain(g: Deps, plan: Plan) {
    forall t :: Sole(g, t) ==> ReachedPlainly(g, plan.groups, t)
  }

  /** The objects there are, by the step with which they came to be. */
  type Places = map<Id, Ref>

  /** ref is the object that v works on. */
  ghost predicate WorksOn(g: Deps, rank: map<Id, nat>, at: Places, v: Id, ref: Ref)
    requires Ranked(g, rank)
  {
    v in g && Root(g, rank, v) in at && at[Root(g, rank, v)] == ref
  }

  /** ref is the object of a step that t waits for. */
  ghost predicate OfDep(g: Deps, rank: map<Id, nat>, at: Places, t: Id, ref: Ref)
    requires Ranked(g, rank)
  {
    exists d :: Dep(g, t, d) && WorksOn(g, rank, at, d, ref)
  }

  /** d's object is among refs. */
  ghost predicate Among(g: Deps, rank: map<Id, nat>, at: Places, d: Id, refs: seq<Ref>)
    requires Ranked(g, rank)
  {
    d in g && Root(g, rank, d) in at && at[Root(g, rank, d)] in refs
  }

  /** A batch for t: its own object already, or the objects of all it waits for. */
  ghost predicate BatchAt(g: Deps, rank: map<Id, nat>, at: Places, t: Id, b: Batch)
    requires Ranked(g, rank)
  {
    match b
    case One(r) => WorksOn(g, rank, at, t, r)
    case Gathered(refs) => refs != [] && GatheredAt(g, rank, at, t, refs)
  }

  ghost predicate GatheredAt(g: Deps, rank: map<Id, nat>, at: Places, t: Id, refs: seq<Ref>)
    requires Ranked(g, rank)
  {
    && t in g && !Sole(g, t)
    && (forall r :: r in refs ==> OfDep(g, rank, at, t, r))
    && (forall d :: Dep(g, t, d) ==> Among(g, rank, at, d, refs))
  }

  ghost predicate QueueAt(g: Deps, rank: map<Id, nat>, at: Places, t: Id, queue: seq<Batch>)
    requires Ranked(g, rank)
  {
    forall i :: 0 <= i < |queue| ==> BatchAt(g, rank, at, t, queue[i])
  }

  ghost predicate StationAt(g: Deps, rank: map<Id, nat>, at: Places, t: Id, st: Station)
    requires Ranked(g, rank)
  {
    && QueueAt(g, rank, at, t, st.now) && QueueAt(g, rank, at, t, st.next)
    && (forall i :: 0 <= i < |st.active| ==> WorksOn(g, rank, at, t, st.active[i].ref))
  }

  ghost predicate BufferAt(g: Deps, rank: map<Id, nat>, at: Places, buffer: seq<(Id, Ref)>)
    requires Ranked(g, rank)
  {
    forall i :: 0 <= i < |buffer| ==> WorksOn(g, rank, at, buffer[i].0, buffer[i].1)
  }

  /** Every object has its own place, and belongs to the start or to a join that has begun. */
  ghost predicate Placed(g: Deps, rank: map<Id, nat>, plan: Plan, s: Run, at: Places)
    requires Ranked(g, rank)
  {
    && (forall r :: r in at ==> r in g && Root(g, rank, r) == r && at[r] < |s.heap|)
    && (forall r, q :: r in at && q in at && at[r] == at[q] ==> r == q)
    && (forall r :: r in at ==> r == plan.start || (r in s.stations && s.stations[r].begun != []))
  }

  ghost predicate ObjInv(g: Deps, rank: map<Id, nat>, plan: Plan, s: Run, at: Places)
    requires Ranked(g, rank)
  {
    && s.stations.Keys == g.Keys && Placed(g, rank, plan, s, at)
    && (forall t :: t in g ==> StationAt(g, rank, at, t, s.stations[t]))
    && (forall k :: 0 <= k < |plan.groups| && plan.groups[k].FanIn? ==> BufferAt(g, rank, at, Buffer(s, k)))
  }

  lemma ObjAt(g: Deps, rank: map<Id, nat>, plan: Plan, s: Run, at: Places, t: Id)
    requires Ranked(g, rank) && ObjInv(g, rank, plan, s, at) && t in g
    ensures t in s.stations && StationAt(g, rank, at, t, s.stations[t])
  {
  }

  lemma ObjParts(g: Deps, rank: map<Id, nat>, plan: Plan, s: Run, at: Places)
    requires Ranked(g, rank) && ObjInv(g, rank, plan, s, at)
    ensures s.stations.Keys == g.Keys && Placed(g, rank, plan, s, at)
    ensures forall k :: 0 <= k < |plan.groups| && plan.groups[k].FanIn? ==> BufferAt(g, rank, at, Buffer(s, k))
  {
  }

  lemma MakeObj(g: Deps, rank: map<Id, nat>, plan: Plan, s: Run, at: Places)
    requires Ranked(g, rank) && s.stations.Keys == g.Keys && Placed(g, rank, plan, s, at)
    requires forall t :: t in g ==> StationAt(g, rank, at, t, s.stations[t])
    requires forall k :: 0 <= k < |plan.groups| && plan.groups[k].FanIn? ==> BufferAt(g, rank, at, Buffer(s, k))
    ensures ObjInv(g, rank, plan, s, at)
  {
  }

  // ----- One more object

  ghost predicate More(at: Places, at': Places) {
    forall r :: r in at ==> r in at' && at'[r] == at[r]
  }

  lemma WorksMore(g: Deps, rank: map<Id, nat>, at: Places, at': Places, v: Id, ref: Ref)
    requires Ranked(g, rank) && WorksOn(g, rank, at, v, ref) && More(at, at')
    ensures WorksOn(g, rank, at', v, ref)
  {
  }

  lemma OfDepMore(g: Deps, rank: map<Id, nat>, at: Places, at': Places, t: Id, ref: Ref)
    requires Ranked(g, rank) && OfDep(g, rank, at, t, ref) && More(at, at')
    ensures OfDep(g, rank, at', t, ref)
  {
    hide Ranked;
    var d :| Dep(g, t, d) && WorksOn(g, rank, at, d, ref);
    WorksMore(g, rank, at, at', d, ref);
  }

  lemma BatchMore(g: Deps, rank: map<Id, nat>, at: Places, at': Places, t: Id, b: Batch)
    requires Ranked(g, rank) && BatchAt(g, rank, at, t, b) && More(at, at')
    ensures BatchAt(g, rank, at', t, b)
  {
    hide Ranked, OfDep, Sole, Dep;
    match b
    case One(r) =>
    case Gathered(refs) =>
      forall r | r in refs ensures OfDep(g, rank, at', t, r) {
        OfDepMore(g, rank, at, at', t, r);
      }
  }

  lemma StationMore(g: Deps, rank: map<Id, nat>, at: Places, at': Places, t: Id, st: Station)
    requires Ranked(g, rank) && StationAt(g, rank, at, t, st) && More(at, at')
    ensures StationAt(g, rank, at', t, st)
  {
    hide Ranked, BatchAt, WorksOn, More;
    forall i | 0 <= i < |st.now| ensures BatchAt(g, rank, at', t, st.now[i]) {
      BatchMore(g, rank, at, at', t, st.now[i]);
    }
    forall i | 0 <= i < |st.next| ensures BatchAt(g, rank, at', t, st.next[i]) {
      BatchMore(g, rank, at, at', t, st.next[i]);
    }
    forall i | 0 <= i < |st.active| ensures WorksOn(g, rank, at', t, st.active[i].ref) {
      WorksMore(g, rank, at, at', t, st.active[i].ref);
    }
  }

  lemma BufferMore(g: Deps, rank: map<Id, nat>, at: Places, at': Places, buffer: seq<(Id, Ref)>)
    requires Ranked(g, rank) && BufferAt(g, rank, at, buffer) && More(at, at')
    ensures BufferAt(g, rank, at', buffer)
  {
    hide Ranked, WorksOn, More;
    forall i | 0 <= i < |buffer| ensures WorksOn(g, rank, at', buffer[i].0, buffer[i].1) {
      WorksMore(g, rank, at, at', buffer[i].0, buffer[i].1);
    }
  }

  // ----- Beginning

  /** The object that x works on from now on. */
  function WorkRef(s: Run, x: Id, k: nat): Ref
    requires x in s.stations && k < |s.stations[x].now|
  {
    if s.stations[x].now[k].One? then s.stations[x].now[k].ref else |s.heap|
  }

  lemma BeginShape(s: Run, x: Id, k: nat)
    requires x in s.stations && k < |s.stations[x].now|
    ensures var s', st, one := DoBegin(s, x, k), s.stations[x], s.stations[x].now[k].One?;
      && s'.stations.Keys == s.stations.Keys && s'.buffers == s.buffers && s'.superstep == s.superstep
      && (forall v :: v in s.stations && v != x ==> s'.stations[v] == s.stations[v])
      && s'.stations[x].now == Without(st.now, k) && s'.stations[x].next == st.next && s'.stations[x].ended == st.ended
      && |s'.stations[x].active| == |st.active| + 1 && s'.stations[x].active[..|st.active|] == st.active
      && s'.stations[x].begun == st.begun + [s.superstep]
      && s'.stations[x].active[|st.active|] ==
         Activation(WorkRef(s, x, k), Read(s'.heap, WorkRef(s, x, k)).outputs, Read(s'.heap, WorkRef(s, x, k)).userInput)
      && s'.heap == if one then s.heap else s.heap + [M.Merge(ReadAll(s.heap, st.now[k].refs))]
  {
  }

  /** The objects there are once x has begun. */
  ghost function PlacesAfter(s: Run, x: Id, k: nat, at: Places): Places
    requires x in s.stations && k < |s.stations[x].now|
  {
    if s.stations[x].now[k].One? then at else at[x := |s.heap|]
  }

  lemma BeginStation(g: Deps, rank: map<Id, nat>, at: Places, t: Id, st: Station, k: nat, st': Station)
    requires Ranked(g, rank) && StationAt(g, rank, at, t, st) && k < |st.now|
    requires st'.now == Without(st.now, k) && st'.next == st.next
    requires |st'.active| == |st.active| + 1 && st'.active[..|st.active|] == st.active
    requires WorksOn(g, rank, at, t, st'.active[|st.active|].ref)
    ensures StationAt(g, rank, at, t, st')
  {
    hide Ranked, BatchAt, WorksOn;
    forall i | 0 <= i < |st'.now| ensures BatchAt(g, rank, at, t, st'.now[i]) {
      assert st'.now[i] == st.now[if i < k then i else i + 1];
    }
    forall i | 0 <= i < |st'.active| ensures WorksOn(g, rank, at, t, st'.active[i].ref) {
      if i < |st.active| {
        assert st'.active[i] == st'.active[..|st.active|][i];
      }
    }
  }

  lemma BatchOf(g: Deps, rank: map<Id, nat>, at: Places, t: Id, st: Station, k: nat)
    requires Ranked(g, rank) && StationAt(g, rank, at, t, st) && k < |st.now|
    ensures BatchAt(g, rank, at, t, st.now[k])
  {
  }

  lemma NotStart(g: Deps, plan: Plan, x: Id, d: Id)
    requires Delivers(g, plan) && Dep(g, x, d)
    ensures x != plan.start
  {
  }

  lemma SomeDep(g: Deps, rank: map<Id, nat>, at: Places, x: Id, refs: seq<Ref>) returns (d: Id)
    requires Ranked(g, rank) && refs != [] && GatheredAt(g, rank, at, x, refs)
    ensures Dep(g, x, d) && Root(g, rank, x) == x
  {
    assert OfDep(g, rank, at, x, refs[0]);
    d :| Dep(g, x, d) && WorksOn(g, rank, at, d, refs[0]);
  }

  lemma NotPlaced(g: Deps, rank: map<Id, nat>, plan: Plan, s: Run, at: Places, x: Id)
    requires Ranked(g, rank) && Placed(g, rank, plan, s, at) && x in s.stations
    requires s.stations[x].begun == [] && x != plan.start
    ensures x !in at
  {
  }

  /** A join that begins has no object yet. */
  lemma NewPlace(g: Deps, rank: map<Id, nat>, plan: Plan, s: Run, at: Places, x: Id, k: nat)
    requires Ranked(g, rank) && Delivers(g, plan) && Placed(g, rank, plan, s, at) && x in s.stations
    requires k < |s.stations[x].now| && s.stations[x].begun == []
    requires s.stations[x].now[k].Gathered? && BatchAt(g, rank, at, x, s.stations[x].now[k])
    ensures x in g && x !in at && Root(g, rank, x) == x
  {
    hide Ranked, Delivers, Placed, Dep, Sole;
    var d := SomeDep(g, rank, at, x, s.stations[x].now[k].refs);
    NotStart(g, plan, x, d);
    NotPlaced(g, rank, plan, s, at, x);
  }

  lemma PlacedMore(g: Deps, rank: map<Id, nat>, plan: Plan, s: Run, s': Run, at: Places, x: Id)
    requires Ranked(g, rank) && Placed(g, rank, plan, s, at) && x in g && x !in at && Root(g, rank, x) == x
    requires |s.heap| < |s'.heap| && x in s'.stations && s'.stations[x].begun != []
    requires forall r :: r in s.stations && s.stations[r].begun != [] ==> r in s'.stations && s'.stations[r].begun != []
    ensures Placed(g, rank, plan, s', at[x := |s.heap|]) && More(at, at[x := |s.heap|])
  {
    hide Ranked, Root;
  }

  lemma PlacedSame(g: Deps, rank: map<Id, nat>, plan: Plan, s: Run, s': Run, at: Places)
    requires Ranked(g, rank) && Placed(g, rank, plan, s, at) && |s.heap| <= |s'.heap|
    requires forall r :: r in s.stations && s.stations[r].begun != [] ==> r in s'.stations && s'.stations[r].begun != []
    ensures Placed(g, rank, plan, s', at)
  {
    hide Ranked, Root;
  }

  lemma BeginsStay(s: Run, x: Id, k: nat)
    requires x in s.stations && k < |s.stations[x].now|
    ensures var s' := DoBegin(s, x, k);
      && x in s'.stations && s'.stations[x].begun != []
      && (forall r :: r in s.stations && s.stations[r].begun != [] ==> r in s'.stations && s'.stations[r].begun != [])
      && |s'.heap| == |s.heap| + if s.stations[x].now[k].One? then 0 else 1
  {
  }

  lemma PlacedAfter(g: Deps, rank: map<Id, nat>, plan: Plan, s: Run, at: Places, x: Id, k: nat)
    requires Ranked(g, rank) && Delivers(g, plan) && Placed(g, rank, plan, s, at) && x in g && x in s.stations
    requires k < |s.stations[x].now| && s.stations[x].begun == [] && BatchAt(g, rank, at, x, s.stations[x].now[k])
    ensures Placed(g, rank, plan, DoBegin(s, x, k), PlacesAfter(s, x, k, at)) && More(at, PlacesAfter(s, x, k, at))
    ensures WorksOn(g, rank, PlacesAfter(s, x, k, at), x, WorkRef(s, x, k))
  {
    hide DoBegin, Ranked, Delivers, Placed, Root;
    BeginsStay(s, x, k);
    if s.stations[x].now[k].Gathered? {
      NewPlace(g, rank, plan, s, at, x, k);
      PlacedMore(g, rank, plan, s, DoBegin(s, x, k), at, x);
    } else {
      PlacedSame(g, rank, plan, s, DoBegin(s, x, k), at);
    }
  }

  lemma BeginObj(g: Deps, rank: map<Id, nat>, plan: Plan, s: Run, at: Places, x: Id, k: nat)
    requires Ranked(g, rank) && Delivers(g, plan) && Inv(g, plan, rank, s) && ObjInv(g, rank, plan, s, at)
    requires x in g && x in s.stations && k < |s.stations[x].now|
    ensures ObjInv(g, rank, plan, DoBegin(s, x, k), PlacesAfter(s, x, k, at)) && More(at, PlacesAfter(s, x, k, at))
  {
    hide *;
    var s', at' := DoBegin(s, x, k), PlacesAfter(s, x, k, at);
    InvAt(g, plan, rank, s, x);
    QueuedNotBegun(rank[x], Ready(g, s, x), s.superstep, s.stations[x]);
    ObjParts(g, rank, plan, s, at);
    ObjAt(g, rank, plan, s, at, x);
    BatchOf(g, rank, at, x, s.stations[x], k);
    PlacedAfter(g, rank, plan, s, at, x, k);
    BeginShape(s, x, k);
    forall t | t in g ensures StationAt(g, rank, at', t, s'.stations[t]) {
      ObjAt(g, rank, plan, s, at, t);
      StationMore(g, rank, at, at', t, s.stations[t]);
      if t == x {
        BeginStation(g, rank, at', x, s.stations[x], k, s'.stations[x]);
      }
    }
    forall j | 0 <= j < |plan.groups| && plan.groups[j].FanIn? ensures BufferAt(g, rank, at', Buffer(s', j)) {
      BufferMore(g, rank, at, at', Buffer(s, j));
      SameBuffer(s, s', j);
    }
    MakeObj(g, rank, plan, s', at');
  }

  lemma SameBuffer(s: Run, s': Run, j: nat)
    requires s'.buffers == s.buffers
    ensures Buffer(s', j) == Buffer(s, j)
  {
  }

  lemma QueuedNotBegun(rank: nat, ready: bool, superstep: nat, st: Station)
    requires StationOk(rank, ready, superstep, st) && st.now != []
    ensures st.begun == [] && st.active == [] && st.ended == [] && st.next == [] && |st.now| == 1
    ensures rank == superstep && ready
  {
  }

  // ----- Sending

  lemma QueuePlus(g: Deps, rank: map<Id, nat>, at: Places, t: Id, queue: seq<Batch>, b: Batch)
    requires Ranked(g, rank) && QueueAt(g, rank, at, t, queue) && BatchAt(g, rank, at, t, b)
    ensures QueueAt(g, rank, at, t, queue + [b])
  {
    hide Ranked, BatchAt;
  }

  lemma WaiterWorksOn(g: Deps, rank: map<Id, nat>, at: Places, groups: seq<EdgeGroup>, x: Id, ref: Ref, t: Id)
    requires Ranked(g, rank) && ReachedPlainly(g, groups, t) && Dep(g, t, x) && WorksOn(g, rank, at, x, ref)
    ensures WorksOn(g, rank, at, t, ref)
  {
    hide Ranked;
    RootOfSole(g, rank, t, x);
  }

  /** A step that waits for x alone gets x's own object. */
  lemma PlainQueue(g: Deps, rank: map<Id, nat>, at: Places, groups: seq<EdgeGroup>, mid: Run, x: Id, ref: Ref, t: Id)
    requires Ranked(g, rank) && ReachedPlainly(g, groups, t) && WorksOn(g, rank, at, x, ref)
    requires t in mid.stations && QueueAt(g, rank, at, t, mid.stations[t].next)
    ensures t in Send(mid, groups, x, ref).stations
    ensures QueueAt(g, rank, at, t, Send(mid, groups, x, ref).stations[t].next)
  {
    S.SendPlain(mid, groups, x, ref, t);
    S.RepeatNone(mid.stations[t].next, One(ref));
    if Dep(g, t, x) {
      WaiterWorksOn(g, rank, at, groups, x, ref, t);
      hide ReachedPlainly, WorksOn, Send, Ranked;
      QueuePlus(g, rank, at, t, mid.stations[t].next, One(ref));
    }
  }

  /** Whoever has an entry in the buffer is among the sources. */
  ghost predicate From(buffer: seq<(Id, Ref)>, sources: seq<Id>) {
    forall i :: 0 <= i < |buffer| ==> buffer[i].0 in sources
  }

  lemma BufferFrom(s: Run, k: nat, sources: seq<Id>)
    requires BufferOk(s, k, sources)
    ensures From(Buffer(s, k), sources)
  {
    forall i | 0 <= i < |Buffer(s, k)| ensures Buffer(s, k)[i].0 in sources {
      assert HasSent(Buffer(s, k), Buffer(s, k)[i].0);
    }
  }

  /** A complete buffer holds the objects of all its target waits for. */
  lemma BufferGathers(g: Deps, rank: map<Id, nat>, at: Places, sources: seq<Id>, buffer: seq<(Id, Ref)>, t: Id)
    requires Ranked(g, rank) && BufferAt(g, rank, at, buffer) && From(buffer, sources) && Complete(sources, buffer)
    requires t in g && !Sole(g, t) && forall d :: d in sources <==> Dep(g, t, d)
    ensures GatheredAt(g, rank, at, t, Refs(buffer))
  {
    hide Ranked, Root, Sole;
    forall r | r in Refs(buffer) ensures OfDep(g, rank, at, t, r) {
      var i :| 0 <= i < |buffer| && Refs(buffer)[i] == r;
      assert Dep(g, t, buffer[i].0) && WorksOn(g, rank, at, buffer[i].0, r);
    }
    forall d | Dep(g, t, d) ensures Among(g, rank, at, d, Refs(buffer)) {
      var i :| 0 <= i < |buffer| && buffer[i].0 == d;
      assert WorksOn(g, rank, at, d, Refs(buffer)[i]);
    }
  }

  lemma BufferPlus(g: Deps, rank: map<Id, nat>, at: Places, buffer: seq<(Id, Ref)>, x: Id, ref: Ref, sources: seq<Id>)
    requires Ranked(g, rank) && BufferAt(g, rank, at, buffer) && WorksOn(g, rank, at, x, ref)
    requires From(buffer, sources) && x in sources
    ensures BufferAt(g, rank, at, buffer + [(x, ref)]) && From(buffer + [(x, ref)], sources)
  {
    hide Ranked, WorksOn;
  }

  lemma EmptyBuffer(g: Deps, rank: map<Id, nat>, at: Places)
    requires Ranked(g, rank)
    ensures BufferAt(g, rank, at, [])
  {
  }

  lemma GroupQueue(g: Deps, rank: map<Id, nat>, at: Places, groups: seq<EdgeGroup>, mid: Run, x: Id, ref: Ref, k: nat)
    requires Ranked(g, rank) && k < |groups| && groups[k].FanIn? && GathersAll(g, groups, k)
    requires groups[k].target in mid.stations && !Sole(g, groups[k].target) && WorksOn(g, rank, at, x, ref)
    requires BufferAt(g, rank, at, Buffer(mid, k)) && From(Buffer(mid, k), groups[k].sources)
    requires QueueAt(g, rank, at, groups[k].target, mid.stations[groups[k].target].next)
    ensures var s', t := Send(mid, groups, x, ref), groups[k].target;
      && t in s'.stations && QueueAt(g, rank, at, t, s'.stations[t].next)
      && BufferAt(g, rank, at, Buffer(s', k))
  {
    hide Ranked, Sole, Send, Dep, BufferAt, BatchAt, GatheredAt, QueueAt, WorksOn, Refs, Complete, Buffer, From;
    var t, buffer := groups[k].target, Buffer(mid, k) + [(x, ref)];
    S.SendGathered(mid, groups, k, x, ref);
    EmptyBuffer(g, rank, at);
    if x in groups[k].sources {
      BufferPlus(g, rank, at, Buffer(mid, k), x, ref, groups[k].sources);
      if Complete(groups[k].sources, buffer) {
        BufferGathers(g, rank, at, groups[k].sources, buffer, t);
        GatheredBatch(g, rank, at, t, buffer);
        QueuePlus(g, rank, at, t, mid.stations[t].next, Gathered(Refs(buffer)));
      }
    }
  }

  lemma GatheredBatch(g: Deps, rank: map<Id, nat>, at: Places, t: Id, buffer: seq<(Id, Ref)>)
    requires Ranked(g, rank) && buffer != [] && GatheredAt(g, rank, at, t, Refs(buffer))
    ensures BatchAt(g, rank, at, t, Gathered(Refs(buffer)))
  {
  }

  // ----- Finishing

  /** A run on its way from a recorded result to the messages sent. */
  ghost predicate Recording(g: Deps, rank: map<Id, nat>, plan: Plan, mid: Run, at: Places)
    requires Ranked(g, rank)
  {
    && ObjInv(g, rank, plan, mid, at)
    && forall k :: 0 <= k < |plan.groups| && plan.groups[k].FanIn? ==> From(Buffer(mid, k), plan.groups[k].sources)
  }

  lemma RecordedAt(g: Deps, rank: map<Id, nat>, plan: Plan, mid: Run, at: Places, k: nat)
    requires Ranked(g, rank) && Recording(g, rank, plan, mid, at) && k < |plan.groups| && plan.groups[k].FanIn?
    ensures From(Buffer(mid, k), plan.groups[k].sources) && BufferAt(g, rank, at, Buffer(mid, k))
  {
  }

  lemma RecordedObj(g: Deps, rank: map<Id, nat>, plan: Plan, mid: Run, at: Places)
    requires Ranked(g, rank) && Recording(g, rank, plan, mid, at)
    ensures ObjInv(g, rank, plan, mid, at)
  {
  }

  lemma StationParts(g: Deps, rank: map<Id, nat>, at: Places, t: Id, st: Station)
    requires Ranked(g, rank) && StationAt(g, rank, at, t, st)
    ensures QueueAt(g, rank, at, t, st.next)
    ensures forall next :: QueueAt(g, rank, at, t, next) ==> StationAt(g, rank, at, t, st.(next := next))
  {
    hide Ranked, QueueAt, WorksOn;
  }

  lemma SolesReached(g: Deps, plan: Plan, t: Id)
    requires SolesPlain(g, plan) && Sole(g, t)
    ensures ReachedPlainly(g, plan.groups, t)
  {
  }

  lemma ReachedHow(g: Deps, groups: seq<EdgeGroup>, t: Id)
    requires Reached(g, groups, t)
    ensures ReachedPlainly(g, groups, t) ||
      exists k :: 0 <= k < |groups| && groups[k].FanIn? && groups[k].target == t && GathersAll(g, groups, k)
  {
  }

  lemma SentQueue(g: Deps, rank: map<Id, nat>, plan: Plan, mid: Run, at: Places, x: Id, ref: Ref, t: Id)
    requires Ranked(g, rank) && Delivers(g, plan) && SolesPlain(g, plan) && Recording(g, rank, plan, mid, at)
    requires t in g && WorksOn(g, rank, at, x, ref)
    ensures t in Send(mid, plan.groups, x, ref).stations
    ensures QueueAt(g, rank, at, t, Send(mid, plan.groups, x, ref).stations[t].next)
  {
    hide *;
    RecordedObj(g, rank, plan, mid, at);
    ObjAt(g, rank, plan, mid, at, t);
    StationParts(g, rank, at, t, mid.stations[t]);
    DeliversAt(g, plan, t);
    ReachedHow(g, plan.groups, t);
    if ReachedPlainly(g, plan.groups, t) {
      PlainQueue(g, rank, at, plan.groups, mid, x, ref, t);
    } else {
      if Sole(g, t) { SolesReached(g, plan, t); }
      var k :| 0 <= k < |plan.groups| && plan.groups[k].FanIn? && plan.groups[k].target == t && GathersAll(g, plan.groups, k);
      RecordedAt(g, rank, plan, mid, at, k);
      GroupQueue(g, rank, at, plan.groups, mid, x, ref, k);
    }
  }

  lemma SentBuffer(g: Deps, rank: map<Id, nat>, plan: Plan, mid: Run, at: Places, x: Id, ref: Ref, k: nat)
    requires Ranked(g, rank) && Delivers(g, plan) && SolesPlain(g, plan) && Recording(g, rank, plan, mid, at)
    requires k < |plan.groups| && plan.groups[k].FanIn? && WorksOn(g, rank, at, x, ref)
    ensures BufferAt(g, rank, at, Buffer(Send(mid, plan.groups, x, ref), k))
  {
    hide *;
    var t := plan.groups[k].target;
    DeliversGroup(g, plan, k);
    GroupTarget(g, plan.groups, k);
    RecordedAt(g, rank, plan, mid, at, k);
    RecordedObj(g, rank, plan, mid, at);
    ObjAt(g, rank, plan, mid, at, t);
    StationParts(g, rank, at, t, mid.stations[t]);
    if Sole(g, t) {
      SolesReached(g, plan, t);
      NotByGroup(g, plan.groups, k);
    }
    GroupQueue(g, rank, at, plan.groups, mid, x, ref, k);
  }

  lemma NotByGroup(g: Deps, groups: seq<EdgeGroup>, k: nat)
    requires k < |groups| && groups[k].FanIn?
    ensures !ReachedPlainly(g, groups, groups[k].target)
  {
  }

  lemma PlacedSent(g: Deps, rank: map<Id, nat>, plan: Plan, mid: Run, at: Places, x: Id, ref: Ref, s': Run)
    requires Ranked(g, rank) && Placed(g, rank, plan, mid, at) && s' == Send(mid, plan.groups, x, ref)
    ensures Placed(g, rank, plan, s', at) && s'.stations.Keys == mid.stations.Keys
    ensures forall v :: v in mid.stations ==> s'.stations[v] == mid.stations[v].(next := s'.stations[v].next)
  {
    hide Ranked, Root, Send;
    S.SendKeeps(mid, plan.groups, x, ref);
  }

  lemma SendObj(g: Deps, rank: map<Id, nat>, plan: Plan, mid: Run, at: Places, x: Id, ref: Ref)
    requires Ranked(g, rank) && Delivers(g, plan) && SolesPlain(g, plan) && Recording(g, rank, plan, mid, at)
    requires WorksOn(g, rank, at, x, ref)
    ensures ObjInv(g, rank, plan, Send(mid, plan.groups, x, ref), at)
  {
    hide *;
    var s' := Send(mid, plan.groups, x, ref);
    RecordedObj(g, rank, plan, mid, at);
    ObjParts(g, rank, plan, mid, at);
    PlacedSent(g, rank, plan, mid, at, x, ref, s');
    forall t | t in g ensures StationAt(g, rank, at, t, s'.stations[t]) {
      ObjAt(g, rank, plan, mid, at, t);
      SentQueue(g, rank, plan, mid, at, x, ref, t);
      StationParts(g, rank, at, t, mid.stations[t]);
    }
    forall k | 0 <= k < |plan.groups| && plan.groups[k].FanIn? ensures BufferAt(g, rank, at, Buffer(s', k)) {
      SentBuffer(g, rank, plan, mid, at, x, ref, k);
    }
    MakeObj(g, rank, plan, s', at);
  }

  lemma RecordShape(s: Run, x: Id, k: nat, result: Option<Payload>)
    requires x in s.stations && k < |s.stations[x].active|
    ensures var mid, st := Recorded(s, x, k, result), s.stations[x];
      && mid.stations.Keys == s.stations.Keys && mid.buffers == s.buffers && |mid.heap| == |s.heap|
      && (forall v :: v in s.stations && v != x ==> mid.stations[v] == s.stations[v])
      && mid.stations[x] == st.(active := Without(st.active, k), ended := st.ended + [result])
      && (forall r :: r in s.stations && s.stations[r].begun != [] ==> mid.stations[r].begun != [])
  {
  }

  lemma RecordStation(g: Deps, rank: map<Id, nat>, at: Places, t: Id, st: Station, k: nat, st': Station)
    requires Ranked(g, rank) && StationAt(g, rank, at, t, st) && k < |st.active|
    requires st'.now == st.now && st'.next == st.next && st'.active == Without(st.active, k)
    ensures StationAt(g, rank, at, t, st')
  {
    hide Ranked, QueueAt, WorksOn;
    forall i | 0 <= i < |st'.active| ensures WorksOn(g, rank, at, t, st'.active[i].ref) {
      assert st'.active[i] == st.active[if i < k then i else i + 1];
    }
  }

  lemma WorkOf(g: Deps, rank: map<Id, nat>, at: Places, t: Id, st: Station, k: nat)
    requires Ranked(g, rank) && StationAt(g, rank, at, t, st) && k < |st.active|
    ensures WorksOn(g, rank, at, t, st.active[k].ref)
  {
  }

  lemma BuffersFrom(plan: Plan, s: Run, mid: Run)
    requires BuffersOk(plan, s) && mid.buffers == s.buffers
    ensures forall k :: 0 <= k < |plan.groups| && plan.groups[k].FanIn? ==>
      From(Buffer(mid, k), plan.groups[k].sources) && Buffer(mid, k) == Buffer(s, k)
  {
    hide BufferOk, From;
    forall k | 0 <= k < |plan.groups| && plan.groups[k].FanIn?
      ensures From(Buffer(mid, k), plan.groups[k].sources) && Buffer(mid, k) == Buffer(s, k)
    {
      SameBuffer(s, mid, k);
      BufferFrom(s, k, plan.groups[k].sources);
    }
  }

  lemma RecordObj(g: Deps, rank: map<Id, nat>, plan: Plan, s: Run, at: Places, x: Id, k: nat, result: Option<Payload>)
    requires Ranked(g, rank) && Inv(g, plan, rank, s) && ObjInv(g, rank, plan, s, at)
    requires x in g && x in s.stations && k < |s.stations[x].active|
    ensures Recording(g, rank, plan, Recorded(s, x, k, result), at)
  {
    hide *;
    var mid := Recorded(s, x, k, result);
    RecordShape(s, x, k, result);
    ObjParts(g, rank, plan, s, at);
    PlacedSame(g, rank, plan, s, mid, at);
    InvBuffers(g, plan, rank, s);
    BuffersFrom(plan, s, mid);
    forall t | t in g ensures StationAt(g, rank, at, t, mid.stations[t]) {
      ObjAt(g, rank, plan, s, at, t);
      if t == x {
        RecordStation(g, rank, at, x, s.stations[x], k, mid.stations[x]);
      }
    }
    MakeObj(g, rank, plan, mid, at);
    MakeRecording(g, rank, plan, mid, at);
  }

  lemma MakeRecording(g: Deps, rank: map<Id, nat>, plan: Plan, mid: Run, at: Places)
    requires Ranked(g, rank) && ObjInv(g, rank, plan, mid, at)
    requires forall k :: 0 <= k < |plan.groups| && plan.groups[k].FanIn? ==> From(Buffer(mid, k), plan.groups[k].sources)
    ensures Recording(g, rank, plan, mid, at)
  {
  }

  lemma FinishObj(g: Deps, rank: map<Id, nat>, plan: Plan, s: Run, at: Places, x: Id, k: nat, result: Option<Payload>)
    requires Ranked(g, rank) && Delivers(g, plan) && SolesPlain(g, plan)
    requires Inv(g, plan, rank, s) && ObjInv(g, rank, plan, s, at)
    requires x in g && x in s.stations && k < |s.stations[x].active|
    ensures ObjInv(g, rank, plan, DoFinish(plan, s, x, k, result), at)
    ensures WorksOn(g, rank, at, x, s.stations[x].active[k].ref)
  {
    hide Ranked, Delivers, SolesPlain, Inv, ObjInv, Recorded, Send, Recording, StationAt, WorksOn;
    ObjAt(g, rank, plan, s, at, x);
    WorkOf(g, rank, at, x, s.stations[x], k);
    RecordObj(g, rank, plan, s, at, x, k, result);
    RecordedObj(g, rank, plan, Recorded(s, x, k, result), at);
    if x !in plan.ends {
      SendObj(g, rank, plan, Recorded(s, x, k, result), at, x, s.stations[x].active[k].ref);
    }
  }

  // ----- Whole runs

  lemma AdvanceStation(g: Deps, rank: map<Id, nat>, at: Places, t: Id, st: Station)
    requires Ranked(g, rank) && StationAt(g, rank, at, t, st)
    ensures StationAt(g, rank, at, t, st.(now := st.now + st.next, next := []))
  {
    hide Ranked, BatchAt, WorksOn;
  }

  lemma AdvanceObj(g: Deps, rank: map<Id, nat>, plan: Plan, s: Run, at: Places)
    requires Ranked(g, rank) && ObjInv(g, rank, plan, s, at)
    ensures ObjInv(g, rank, plan, DoAdvance(s), at)
  {
    hide Ranked, StationAt, Placed, BufferAt;
    PlacedSame(g, rank, plan, s, DoAdvance(s), at);
    forall t | t in g ensures StationAt(g, rank, at, t, DoAdvance(s).stations[t]) {
      AdvanceStation(g, rank, at, t, s.stations[t]);
    }
    forall k | 0 <= k < |plan.groups| && plan.groups[k].FanIn? ensures BufferAt(g, rank, at, Buffer(DoAdvance(s), k)) {
      SameBuffer(s, DoAdvance(s), k);
    }
  }

  lemma StartRoot(g: Deps, rank: map<Id, nat>, plan: Plan)
    requires Ranked(g, rank) && Delivers(g, plan)
    ensures plan.ids == g.Keys && plan.start in g && Root(g, rank, plan.start) == plan.start
  {
    hide GathersAll, Reached;
  }

  lemma InitialStation(g: Deps, rank: map<Id, nat>, plan: Plan, input: M.Msg, t: Id)
    requires Ranked(g, rank) && t in plan.ids && plan.start in g && Root(g, rank, plan.start) == plan.start
    ensures t in Initial(plan, input).stations
    ensures StationAt(g, rank, map[plan.start := 0], t, Initial(plan, input).stations[t])
  {
    hide Ranked, Root;
  }

  lemma InitialPlaced(g: Deps, rank: map<Id, nat>, plan: Plan, input: M.Msg)
    requires Ranked(g, rank) && plan.start in g && Root(g, rank, plan.start) == plan.start
    ensures Placed(g, rank, plan, Initial(plan, input), map[plan.start := 0])
    ensures Initial(plan, input).stations.Keys == plan.ids
    ensures forall k :: Buffer(Initial(plan, input), k) == []
  {
    hide Ranked, Root;
  }

  lemma InitialObj(g: Deps, rank: map<Id, nat>, plan: Plan, input: M.Msg)
    requires Ranked(g, rank) && Delivers(g, plan)
    ensures ObjInv(g, rank, plan, Initial(plan, input), map[plan.start := 0])
  {
    hide *;
    var s, at := Initial(plan, input), map[plan.start := 0];
    StartRoot(g, rank, plan);
    InitialPlaced(g, rank, plan, input);
    EmptyBuffer(g, rank, at);
    forall t | t in g ensures StationAt(g, rank, at, t, s.stations[t]) {
      InitialStation(g, rank, plan, input, t);
    }
    MakeObj(g, rank, plan, s, at);
  }
}
