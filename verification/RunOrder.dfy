/** Every run of a workflow without conditions starts each step once, after all its dependencies. */
module RunOrder {
  import opened Wrappers
  import opened Graph
  import opened Sequences
  import opened Ranks
  import opened WorkflowBuild
  import opened Supersteps
  import opened Sends
  import M = Messages

  /** The sources of a fan-in group are the dependencies of its target, and nothing else leads there. */
  ghost predicate GathersAll(g: Deps, groups: seq<EdgeGroup>, k: nat) {
    k < |groups| && (groups[k].FanIn? ==>
      && groups[k].target in g
      && (forall d :: d in groups[k].sources <==> Dep(g, groups[k].target, d))
      && OnlyGroup(groups, k, groups[k].target))
  }

  /** t waits for one step, and one edge, no fan-in group, leads from there to t. */
  ghost predicate ReachedPlainly(g: Deps, groups: seq<EdgeGroup>, t: Id) {
    && (forall k :: 0 <= k < |groups| ==> !groups[k].Switch? && (groups[k].FanIn? ==> groups[k].target != t))
    && (forall d :: d in g ==> EdgeCount(groups, d, t) == if Dep(g, t, d) then 1 else 0)
    && (forall d, x :: Dep(g, t, d) && Dep(g, t, x) ==> d == x)
  }

  ghost predicate ReachedByGroup(g: Deps, groups: seq<EdgeGroup>, t: Id) {
    exists k :: 0 <= k < |groups| && groups[k].FanIn? && groups[k].target == t && GathersAll(g, groups, k)
  }

  ghost predicate Reached(g: Deps, groups: seq<EdgeGroup>, t: Id) {
    ReachedPlainly(g, groups, t) || ReachedByGroup(g, groups, t)
  }

  /** The plan delivers along the dependencies, the start is the only step without any, and end steps are not waited for. */
  ghost predicate Delivers(g: Deps, plan: Plan) {
    && plan.ids == g.Keys && plan.start in g
    && (forall v :: v in g ==> (v == plan.start <==> forall d :: !Dep(g, v, d)))
    && (forall v, d :: Dep(g, v, d) ==> d !in plan.ends)
    && (forall k :: 0 <= k < |plan.groups| ==> GathersAll(g, plan.groups, k))
    && (forall t :: t in g ==> Reached(g, plan.groups, t))
  }

  ghost predicate Ended(s: Run, v: Id) {
    v in s.stations && s.stations[v].ended != []
  }

  /** Everything v waits for has ended. */
  ghost predicate Ready(g: Deps, s: Run, v: Id) {
    forall d :: Dep(g, v, d) ==> Ended(s, d)
  }

  /** A step is queued or started once it is ready, and once only, in the superstep that is its rank. */
  ghost predicate StationOk(rank: nat, ready: bool, superstep: nat, st: Station) {
    && |st.now| + |st.next| + |st.begun| == (if ready then 1 else 0)
    && |st.active| + |st.ended| == |st.begun|
    && (st.now != [] ==> rank == superstep)
    && (st.next != [] ==> rank == superstep + 1)
    && (st.active != [] ==> rank == superstep)
    && (st.begun != [] ==> st.begun[0] == rank)
    && (st.ended != [] ==> rank <= superstep)
  }

  /** Until all have ended, a fan-in buffer holds just the sources that have. */
  ghost predicate BufferOk(s: Run, k: nat, sources: seq<Id>) {
    if forall d :: d in sources ==> Ended(s, d) then Buffer(s, k) == []
    else forall d :: HasSent(Buffer(s, k), d) <==> d in sources && Ended(s, d)
  }

  ghost predicate Inv(g: Deps, plan: Plan, rank: map<Id, nat>, s: Run) {
    && s.stations.Keys == g.Keys && rank.Keys == g.Keys
    && (forall v :: v in g ==> StationOk(rank[v], Ready(g, s, v), s.superstep, s.stations[v]))
    && (forall k :: 0 <= k < |plan.groups| && plan.groups[k].FanIn? ==> BufferOk(s, k, plan.groups[k].sources))
  }

  lemma InitialInv(g: Deps, plan: Plan, rank: map<Id, nat>, input: M.Msg)
    requires Delivers(g, plan) && Ranked(g, rank)
    ensures Inv(g, plan, rank, Initial(plan, input))
  {
    var s := Initial(plan, input);
    forall v | v in g ensures StationOk(rank[v], Ready(g, s, v), s.superstep, s.stations[v]) {
      if v != plan.start {
        var d :| Dep(g, v, d);
        assert !Ended(s, d);
      } else {
        assert rank[v] == 0;
      }
    }
    forall k | 0 <= k < |plan.groups| && plan.groups[k].FanIn? ensures BufferOk(s, k, plan.groups[k].sources) {
      assert GathersAll(g, plan.groups, k);
      assert Buffer(s, k) == [];
    }
  }

  /** A step of the run in which nothing ends or is sent. */
  lemma QuietInv(g: Deps, plan: Plan, rank: map<Id, nat>, s: Run, s': Run)
    requires Inv(g, plan, rank, s) && s'.stations.Keys == s.stations.Keys && s'.buffers == s.buffers
    requires forall v :: v in g ==> s'.stations[v].ended == s.stations[v].ended
    requires forall v :: v in g ==> StationOk(rank[v], Ready(g, s, v), s'.superstep, s'.stations[v])
    ensures Inv(g, plan, rank, s')
  {
    assert forall v :: Ended(s', v) <==> Ended(s, v);
    forall v | v in g ensures StationOk(rank[v], Ready(g, s', v), s'.superstep, s'.stations[v]) {
      assert Ready(g, s', v) <==> Ready(g, s, v);
    }
    forall k | 0 <= k < |plan.groups| && plan.groups[k].FanIn? ensures BufferOk(s', k, plan.groups[k].sources) {
      assert BufferOk(s, k, plan.groups[k].sources);
      assert Buffer(s', k) == Buffer(s, k);
    }
  }

  lemma BeginInv(g: Deps, plan: Plan, rank: map<Id, nat>, s: Run, x: Id, k: nat)
    requires Inv(g, plan, rank, s) && x in s.stations && k < |s.stations[x].now|
    ensures Inv(g, plan, rank, DoBegin(s, x, k))
  {
    var s' := DoBegin(s, x, k);
    assert StationOk(rank[x], Ready(g, s, x), s.superstep, s.stations[x]);
    BeginStation(rank[x], Ready(g, s, x), s.superstep, s.stations[x], k, s'.stations[x]);
    QuietInv(g, plan, rank, s, s');
  }

  lemma BeginStation(rank: nat, ready: bool, superstep: nat, st: Station, k: nat, st': Station)
    requires StationOk(rank, ready, superstep, st) && k < |st.now|
    requires st'.now == Without(st.now, k) && st'.next == st.next && st'.ended == st.ended
    requires |st'.active| == |st.active| + 1 && st'.begun == st.begun + [superstep]
    ensures StationOk(rank, ready, superstep, st')
  {
  }

  lemma AdvanceInv(g: Deps, plan: Plan, rank: map<Id, nat>, s: Run)
    requires Inv(g, plan, rank, s) && forall x :: x in s.stations ==> Resting(s.stations[x])
    ensures Inv(g, plan, rank, DoAdvance(s))
  {
    QuietInv(g, plan, rank, s, DoAdvance(s));
  }

  ghost predicate Untouched(st: Station) {
    st.now == [] && st.next == [] && st.active == [] && st.begun == [] && st.ended == []
  }

  /** A step that waits for a step still at work has not been reached in any way. */
  lemma WaiterBefore(g: Deps, rank: map<Id, nat>, s: Run, x: Id, t: Id)
    requires x in rank && t in rank && x in s.stations && t in s.stations && Dep(g, t, x) && s.stations[x].active != []
    requires StationOk(rank[x], Ready(g, s, x), s.superstep, s.stations[x])
    requires StationOk(rank[t], Ready(g, s, t), s.superstep, s.stations[t])
    ensures !Ended(s, x) && rank[x] == s.superstep && t != x && Untouched(s.stations[t])
  {
  }

  lemma PlainArrival(g: Deps, groups: seq<EdgeGroup>, mid: Run, x: Id, ref: Ref, t: Id)
    requires ReachedPlainly(g, groups, t) && Dep(g, t, x) && t in mid.stations && mid.stations[t].next == []
    ensures t in Send(mid, groups, x, ref).stations
    ensures Send(mid, groups, x, ref).stations[t].next == [One(ref)]
  {
    SendPlain(mid, groups, x, ref, t);
    RepeatNone([], One(ref));
    assert [] + [One(ref)] == [One(ref)];
  }

  /** mid is s with x's result recorded. */
  ghost predicate AfterRecord(s: Run, mid: Run, x: Id) {
    && x in s.stations && mid.stations.Keys == s.stations.Keys && mid.buffers == s.buffers && mid.superstep == s.superstep
    && (forall v :: v in s.stations && v != x ==> mid.stations[v] == s.stations[v])
    && mid.stations[x].ended != []
  }

  /** Once x has sent, it counts among the steps that have ended. */
  ghost predicate NowEnded(s: Run, s': Run, x: Id) {
    forall v :: Ended(s', v) <==> Ended(s, v) || v == x
  }

  lemma EndedAfter(s: Run, s': Run, x: Id, mid: Run)
    requires AfterRecord(s, mid, x) && OnlyNext(mid.stations, s'.stations)
    ensures NowEnded(s, s', x)
  {
  }

  lemma RankNext(g: Deps, rank: map<Id, nat>, s: Run, x: Id, t: Id)
    requires Ranked(g, rank) && Dep(g, t, x) && rank[x] == s.superstep
    requires forall d :: Dep(g, t, d) ==> rank[d] <= s.superstep
    ensures rank[t] == s.superstep + 1
  {
    var d :| Dep(g, t, d) && rank[d] + 1 == rank[t];
  }

  lemma EndedByNow(g: Deps, plan: Plan, rank: map<Id, nat>, s: Run, x: Id, t: Id)
    requires Inv(g, plan, rank, s) && Dep(g, t, x) && rank[x] == s.superstep
    requires forall d :: Dep(g, t, d) ==> Ended(s, d) || d == x
    ensures forall d :: Dep(g, t, d) ==> rank[d] <= s.superstep
  {
    forall d | Dep(g, t, d) && d != x ensures rank[d] <= s.superstep {
      assert StationOk(rank[d], Ready(g, s, d), s.superstep, s.stations[d]);
    }
  }

  /** The buffer is complete exactly when the target is ready. */
  lemma GatherComplete(g: Deps, s: Run, s': Run, j: nat, sources: seq<Id>, t: Id, x: Id, ref: Ref)
    requires Dep(g, t, x) && !Ended(s, x) && NowEnded(s, s', x)
    requires forall d :: d in sources <==> Dep(g, t, d)
    requires BufferOk(s, j, sources)
    ensures forall d :: HasSent(Buffer(s, j) + [(x, ref)], d) <==> d in sources && Ended(s', d)
    ensures Complete(sources, Buffer(s, j) + [(x, ref)]) <==> Ready(g, s', t)
  {
    var buffer := Buffer(s, j);
    forall d ensures HasSent(buffer + [(x, ref)], d) <==> HasSent(buffer, d) || d == x {
      if HasSent(buffer, d) {
        var i :| 0 <= i < |buffer| && buffer[i].0 == d;
        assert (buffer + [(x, ref)])[i].0 == d;
      }
      assert (buffer + [(x, ref)])[|buffer|].0 == x;
    }
  }

  ghost predicate BuffersOk(plan: Plan, s: Run) {
    forall k :: 0 <= k < |plan.groups| && plan.groups[k].FanIn? ==> BufferOk(s, k, plan.groups[k].sources)
  }

  /** A step waiting for x is queued by x's send exactly if x was the last it waited for. */
  lemma WaiterNext(g: Deps, plan: Plan, s: Run, mid: Run, s': Run, x: Id, ref: Ref, t: Id)
    requires Reached(g, plan.groups, t) && Dep(g, t, x) && !Ended(s, x) && BuffersOk(plan, s)
    requires t in mid.stations && mid.stations[t].next == [] && mid.buffers == s.buffers
    requires s' == Send(mid, plan.groups, x, ref) && NowEnded(s, s', x)
    ensures t in s'.stations && |s'.stations[t].next| == if Ready(g, s', t) then 1 else 0
  {
    if ReachedPlainly(g, plan.groups, t) {
      PlainArrival(g, plan.groups, mid, x, ref, t);
      assert Ready(g, s', t);
    } else {
      var j :| 0 <= j < |plan.groups| && plan.groups[j].FanIn? && plan.groups[j].target == t && GathersAll(g, plan.groups, j);
      SendGathered(mid, plan.groups, j, x, ref);
      assert Buffer(mid, j) == Buffer(s, j);
      GatherComplete(g, s, s', j, plan.groups[j].sources, t, x, ref);
    }
  }

  lemma WaiterStation(g: Deps, plan: Plan, rank: map<Id, nat>, s: Run, mid: Run, s': Run, x: Id, ref: Ref, t: Id)
    requires Reached(g, plan.groups, t) && Ranked(g, rank) && Inv(g, plan, rank, s) && Dep(g, t, x)
    requires AfterRecord(s, mid, x) && s.stations[x].active != [] && s' == Send(mid, plan.groups, x, ref)
    ensures t in s'.stations && StationOk(rank[t], Ready(g, s', t), s'.superstep, s'.stations[t])
  {
    hide Send, SendVia, Reached, BufferOk, Buffer, Ranked, GathersAll;
    InvAt(g, plan, rank, s, t);
    InvAt(g, plan, rank, s, x);
    InvBuffers(g, plan, rank, s);
    hide Inv, BuffersOk;
    WaiterBefore(g, rank, s, x, t);
    SendKeeps(mid, plan.groups, x, ref);
    EndedAfter(s, s', x, mid);
    WaiterNext(g, plan, s, mid, s', x, ref, t);
    if Ready(g, s', t) {
      EndedByNow(g, plan, rank, s, x, t);
      RankNext(g, rank, s, x, t);
    }
    WaiterOk(rank[t], Ready(g, s', t), s.superstep, s.stations[t], s'.stations[t]);
  }

  lemma WaiterOk(rank: nat, ready: bool, superstep: nat, st: Station, st': Station)
    requires Untouched(st) && st' == st.(next := st'.next)
    requires |st'.next| == if ready then 1 else 0
    requires ready ==> rank == superstep + 1
    ensures StationOk(rank, ready, superstep, st')
  {
  }

  /** A step that does not wait for x gets nothing from x. */
  lemma BystanderNext(g: Deps, groups: seq<EdgeGroup>, mid: Run, x: Id, ref: Ref, t: Id)
    requires Reached(g, groups, t) && x in g && !Dep(g, t, x) && t in mid.stations
    ensures t in Send(mid, groups, x, ref).stations
    ensures Send(mid, groups, x, ref).stations[t] == mid.stations[t]
  {
    SendKeeps(mid, groups, x, ref);
    if ReachedPlainly(g, groups, t) {
      SendPlain(mid, groups, x, ref, t);
      RepeatNone(mid.stations[t].next, One(ref));
    } else {
      var j :| 0 <= j < |groups| && groups[j].FanIn? && groups[j].target == t && GathersAll(g, groups, j);
      SendGathered(mid, groups, j, x, ref);
    }
  }

  lemma SameReady(g: Deps, s: Run, s': Run, x: Id, t: Id)
    requires NowEnded(s, s', x) && !Dep(g, t, x)
    ensures Ready(g, s', t) <==> Ready(g, s, t)
  {
  }

  lemma BystanderStation(g: Deps, groups: seq<EdgeGroup>, rank: nat, s: Run, mid: Run, s': Run, x: Id, ref: Ref, t: Id)
    requires Reached(g, groups, t) && x in g && !Dep(g, t, x) && t != x && t in s.stations
    requires AfterRecord(s, mid, x) && s' == Send(mid, groups, x, ref)
    requires StationOk(rank, Ready(g, s, t), s.superstep, s.stations[t])
    ensures t in s'.stations && StationOk(rank, Ready(g, s', t), s'.superstep, s'.stations[t])
  {
    BystanderNext(g, groups, mid, x, ref, t);
    SendKeeps(mid, groups, x, ref);
    EndedAfter(s, s', x, mid);
    SameReady(g, s, s', x, t);
  }

  lemma OwnStation(g: Deps, groups: seq<EdgeGroup>, rank: nat, s: Run, x: Id, k: nat, result: Option<Payload>, s': Run)
    requires Reached(g, groups, x) && x in g && !Dep(g, x, x) && x in s.stations && k < |s.stations[x].active|
    requires StationOk(rank, Ready(g, s, x), s.superstep, s.stations[x])
    requires s' == Send(Recorded(s, x, k, result), groups, x, s.stations[x].active[k].ref)
    ensures x in s'.stations && StationOk(rank, Ready(g, s', x), s'.superstep, s'.stations[x])
  {
    var mid := Recorded(s, x, k, result);
    var ref := s.stations[x].active[k].ref;
    BystanderNext(g, groups, mid, x, ref, x);
    SendKeeps(mid, groups, x, ref);
    EndedAfter(s, s', x, mid);
    SameReady(g, s, s', x, x);
  }

  lemma BufferAfter(g: Deps, groups: seq<EdgeGroup>, s: Run, mid: Run, s': Run, x: Id, ref: Ref, k: nat)
    requires s.stations.Keys == g.Keys && AfterRecord(s, mid, x) && !Ended(s, x)
    requires s' == Send(mid, groups, x, ref) && GathersAll(g, groups, k)
    requires groups[k].FanIn? && BufferOk(s, k, groups[k].sources)
    ensures BufferOk(s', k, groups[k].sources)
  {
    var sources, t := groups[k].sources, groups[k].target;
    SendKeeps(mid, groups, x, ref);
    EndedAfter(s, s', x, mid);
    SendGathered(mid, groups, k, x, ref);
    assert Buffer(mid, k) == Buffer(s, k);
    if x in sources {
      GatherComplete(g, s, s', k, sources, t, x, ref);
    } else {
      assert forall d :: d in sources ==> (Ended(s', d) <==> Ended(s, d));
    }
  }

  lemma InvAt(g: Deps, plan: Plan, rank: map<Id, nat>, s: Run, v: Id)
    requires Inv(g, plan, rank, s) && v in g
    ensures v in s.stations && v in rank && StationOk(rank[v], Ready(g, s, v), s.superstep, s.stations[v])
  {
  }

  lemma InvBuffers(g: Deps, plan: Plan, rank: map<Id, nat>, s: Run)
    requires Inv(g, plan, rank, s)
    ensures BuffersOk(plan, s) && s.stations.Keys == g.Keys && rank.Keys == g.Keys
  {
  }

  lemma DeliversAt(g: Deps, plan: Plan, t: Id)
    requires Delivers(g, plan) && t in g
    ensures Reached(g, plan.groups, t)
  {
  }

  lemma DeliversGroup(g: Deps, plan: Plan, k: nat)
    requires Delivers(g, plan) && k < |plan.groups|
    ensures GathersAll(g, plan.groups, k)
  {
  }

  lemma EndUnwanted(g: Deps, plan: Plan, x: Id, t: Id)
    requires Delivers(g, plan) && x in plan.ends
    ensures !Dep(g, t, x)
  {
  }

  lemma RecordIs(s: Run, x: Id, k: nat, result: Option<Payload>)
    requires x in s.stations && k < |s.stations[x].active|
    ensures AfterRecord(s, Recorded(s, x, k, result), x)
  {
  }

  lemma BusyNotEnded(g: Deps, s: Run, rank: nat, x: Id)
    requires x in s.stations
    requires s.stations[x].active != [] && StationOk(rank, Ready(g, s, x), s.superstep, s.stations[x])
    ensures !Ended(s, x)
  {
  }

  lemma NoSelfWait(g: Deps, rank: map<Id, nat>, x: Id)
    requires Ranked(g, rank)
    ensures !Dep(g, x, x)
  {
  }

  lemma SendStation(g: Deps, plan: Plan, rank: map<Id, nat>, s: Run, x: Id, k: nat, result: Option<Payload>, s': Run,
                    t: Id)
    requires Delivers(g, plan) && Ranked(g, rank) && Inv(g, plan, rank, s) && t in g
    requires x in s.stations && k < |s.stations[x].active|
    requires s' == Send(Recorded(s, x, k, result), plan.groups, x, s.stations[x].active[k].ref)
    ensures t in s'.stations && StationOk(rank[t], Ready(g, s', t), s'.superstep, s'.stations[t])
  {
    hide *;
    var mid := Recorded(s, x, k, result);
    var ref := s.stations[x].active[k].ref;
    RecordIs(s, x, k, result);
    DeliversAt(g, plan, t);
    InvAt(g, plan, rank, s, t);
    InvBuffers(g, plan, rank, s);
    NoSelfWait(g, rank, x);
    if t == x {
      OwnStation(g, plan.groups, rank[x], s, x, k, result, s');
    } else if Dep(g, t, x) {
      WaiterStation(g, plan, rank, s, mid, s', x, ref, t);
    } else {
      BystanderStation(g, plan.groups, rank[t], s, mid, s', x, ref, t);
    }
  }

  lemma SendBuffers(g: Deps, plan: Plan, s: Run, mid: Run, s': Run, x: Id, ref: Ref)
    requires Delivers(g, plan) && s.stations.Keys == g.Keys
    requires AfterRecord(s, mid, x) && !Ended(s, x) && BuffersOk(plan, s)
    requires s' == Send(mid, plan.groups, x, ref)
    ensures BuffersOk(plan, s')
  {
    hide Send, SendVia, BufferOk, GathersAll, Reached, AfterRecord;
    forall j | 0 <= j < |plan.groups| && plan.groups[j].FanIn? ensures BufferOk(s', j, plan.groups[j].sources) {
      DeliversGroup(g, plan, j);
      BufferAfter(g, plan.groups, s, mid, s', x, ref, j);
    }
  }

  lemma SendInv(g: Deps, plan: Plan, rank: map<Id, nat>, s: Run, x: Id, k: nat, result: Option<Payload>, s': Run)
    requires Delivers(g, plan) && Ranked(g, rank) && Inv(g, plan, rank, s)
    requires x in s.stations && k < |s.stations[x].active|
    requires s' == Send(Recorded(s, x, k, result), plan.groups, x, s.stations[x].active[k].ref)
    ensures Inv(g, plan, rank, s')
  {
    hide *;
    var mid := Recorded(s, x, k, result);
    var ref := s.stations[x].active[k].ref;
    RecordIs(s, x, k, result);
    InvBuffers(g, plan, rank, s);
    InvAt(g, plan, rank, s, x);
    BusyNotEnded(g, s, rank[x], x);
    SendBuffers(g, plan, s, mid, s', x, ref);
    forall t | t in g ensures t in s'.stations && StationOk(rank[t], Ready(g, s', t), s'.superstep, s'.stations[t]) {
      SendStation(g, plan, rank, s, x, k, result, s', t);
    }
    SendKeys(s, mid, plan.groups, x, ref);
    MakeInv(g, plan, rank, s');
  }

  lemma SendKeys(s: Run, mid: Run, groups: seq<EdgeGroup>, x: Id, ref: Ref)
    requires AfterRecord(s, mid, x)
    ensures Send(mid, groups, x, ref).stations.Keys == s.stations.Keys
  {
    SendKeeps(mid, groups, x, ref);
  }

  lemma MakeInv(g: Deps, plan: Plan, rank: map<Id, nat>, s: Run)
    requires s.stations.Keys == g.Keys && rank.Keys == g.Keys && BuffersOk(plan, s)
    requires forall t :: t in g ==> StationOk(rank[t], Ready(g, s, t), s.superstep, s.stations[t])
    ensures Inv(g, plan, rank, s)
  {
  }

  /** Nothing waits for an end step, so that it does not forward makes no difference. */
  lemma EndSendsNothing(g: Deps, plan: Plan, mid: Run, x: Id, ref: Ref)
    requires Delivers(g, plan) && x in g && x in plan.ends && mid.stations.Keys == g.Keys
    ensures Send(mid, plan.groups, x, ref).stations == mid.stations
    ensures Send(mid, plan.groups, x, ref).superstep == mid.superstep
    ensures forall k :: 0 <= k < |plan.groups| && plan.groups[k].FanIn? ==>
      Buffer(Send(mid, plan.groups, x, ref), k) == Buffer(mid, k)
  {
    hide Send, SendVia, Delivers, GathersAll, Reached, Dep;
    SendKeeps(mid, plan.groups, x, ref);
    forall t | t in g ensures Send(mid, plan.groups, x, ref).stations[t] == mid.stations[t] {
      EndUnwanted(g, plan, x, t);
      DeliversAt(g, plan, t);
      BystanderNext(g, plan.groups, mid, x, ref, t);
    }
    forall k | 0 <= k < |plan.groups| && plan.groups[k].FanIn?
      ensures Buffer(Send(mid, plan.groups, x, ref), k) == Buffer(mid, k)
    {
      DeliversGroup(g, plan, k);
      EndUnwanted(g, plan, x, plan.groups[k].target);
      GroupTarget(g, plan.groups, k);
      EndBuffer(g, plan.groups, mid, x, ref, k);
    }
  }

  lemma GroupTarget(g: Deps, groups: seq<EdgeGroup>, k: nat)
    requires GathersAll(g, groups, k) && groups[k].FanIn?
    ensures groups[k].target in g
  {
  }

  lemma EndBuffer(g: Deps, groups: seq<EdgeGroup>, mid: Run, x: Id, ref: Ref, k: nat)
    requires GathersAll(g, groups, k) && groups[k].FanIn?
    requires !Dep(g, groups[k].target, x) && groups[k].target in mid.stations
    ensures Buffer(Send(mid, groups, x, ref), k) == Buffer(mid, k)
  {
    SendGathered(mid, groups, k, x, ref);
  }

  lemma SameInv(g: Deps, plan: Plan, rank: map<Id, nat>, a: Run, b: Run)
    requires Inv(g, plan, rank, a) && a.stations == b.stations && a.superstep == b.superstep
    requires forall k :: 0 <= k < |plan.groups| && plan.groups[k].FanIn? ==> Buffer(a, k) == Buffer(b, k)
    ensures Inv(g, plan, rank, b)
  {
    assert forall v :: Ended(a, v) <==> Ended(b, v);
    forall v | v in g ensures StationOk(rank[v], Ready(g, b, v), b.superstep, b.stations[v]) {
      assert Ready(g, a, v) <==> Ready(g, b, v);
    }
  }

  lemma FinishInv(g: Deps, plan: Plan, rank: map<Id, nat>, s: Run, x: Id, k: nat, result: Option<Payload>)
    requires Delivers(g, plan) && Ranked(g, rank) && Inv(g, plan, rank, s)
    requires x in s.stations && k < |s.stations[x].active|
    ensures Inv(g, plan, rank, DoFinish(plan, s, x, k, result))
  {
    hide Send, SendVia, Inv, Delivers, Recorded, AfterRecord, Ranked, Buffer;
    var mid := Recorded(s, x, k, result);
    var ref := s.stations[x].active[k].ref;
    var sent := Send(mid, plan.groups, x, ref);
    SendInv(g, plan, rank, s, x, k, result, sent);
    if x in plan.ends {
      InvBuffers(g, plan, rank, s);
      RecordIs(s, x, k, result);
      RecordKeys(s, mid, x);
      EndSendsNothing(g, plan, mid, x, ref);
      SameInv(g, plan, rank, sent, mid);
    }
  }

  lemma RecordKeys(s: Run, mid: Run, x: Id)
    requires AfterRecord(s, mid, x)
    ensures mid.stations.Keys == s.stations.Keys
  {
  }

  /** Every run keeps the invariant. */
  lemma {:induction false} RunInv(g: Deps, plan: Plan, rank: map<Id, nat>, input: M.Msg, limit: nat, acts: seq<Action>)
    requires Delivers(g, plan) && Ranked(g, rank) && Schedule(plan, input, limit, acts)
    ensures Inv(g, plan, rank, Exec(plan, input, acts))
  {
    if acts == [] {
      InitialInv(g, plan, rank, input);
    } else {
      var n := |acts| - 1;
      RunInv(g, plan, rank, input, limit, acts[..n]);
      var s := Exec(plan, input, acts[..n]);
      match acts[n]
      case Begin(x, k) => BeginInv(g, plan, rank, s, x, k);
      case Finish(x, k, result) => FinishInv(g, plan, rank, s, x, k, result);
      case Advance => AdvanceInv(g, plan, rank, s);
    }
  }
}
