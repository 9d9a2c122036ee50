/** What one send does to the station of a given step. */
module Sends {
  import opened Graph
  import opened Sequences
  import opened WorkflowBuild
  import opened Supersteps

  /** Only what waits for the next superstep differs. */
  ghost predicate OnlyNext(a: map<Id, Station>, b: map<Id, Station>) {
    a.Keys == b.Keys && forall x :: x in a ==> b[x] == a[x].(next := b[x].next)
  }

  lemma {:induction false} DeliverToAllAt(stations: map<Id, Station>, ts: seq<Id>, b: Batch, t: Id)
    requires t in stations
    ensures OnlyNext(stations, DeliverToAll(stations, ts, b))
    ensures DeliverToAll(stations, ts, b)[t].next == stations[t].next + Repeat(b, multiset(ts)[t])
  {
    if ts != [] {
      var n := |ts| - 1;
      assert ts == ts[..n] + [ts[n]];
      DeliverToAllAt(stations, ts[..n], b, t);
    }
  }

  /** The group can deliver to t. */
  predicate Reaches(e: EdgeGroup, t: Id) {
    match e
    case FanIn(_, target) => target == t
    case FanOut(_, targets) => t in targets
    case Single(_, target) => target == t
    case Switch(_, _, _) => true
  }

  lemma {:induction false} NobodyToReach(stations: map<Id, Station>, ts: seq<Id>, b: Batch)
    requires stations == map[]
    ensures DeliverToAll(stations, ts, b) == stations
  {
    if ts != [] {
      NobodyToReach(stations, ts[..|ts| - 1], b);
    }
  }

  lemma DeliverKeeps(stations: map<Id, Station>, ts: seq<Id>, b: Batch)
    ensures OnlyNext(stations, DeliverToAll(stations, ts, b))
  {
    if stations == map[] {
      NobodyToReach(stations, ts, b);
    } else {
      var t :| t in stations;
      DeliverToAllAt(stations, ts, b, t);
    }
  }

  lemma ViaKeeps(s: Run, k: nat, e: EdgeGroup, step: Id, ref: Ref)
    ensures var r := SendVia(s, k, e, step, ref);
      OnlyNext(s.stations, r.stations) && r.heap == s.heap && r.superstep == s.superstep
    ensures forall j :: j != k ==> Buffer(SendVia(s, k, e, step, ref), j) == Buffer(s, j)
  {
    match e
    case FanIn(_, target) =>
      DeliverOneKeeps(s.stations, target, Gathered(Refs(Buffer(s, k) + [(step, ref)])));
    case FanOut(_, targets) =>
      DeliverKeeps(s.stations, targets, One(ref));
    case Single(_, target) =>
      DeliverOneKeeps(s.stations, target, One(ref));
    case Switch(source, cases, otherwise) =>
      DeliverOneKeeps(s.stations, Route(cases, otherwise, Chosen(Read(s.heap, ref), source)), One(ref));
  }

  lemma DeliverOneKeeps(stations: map<Id, Station>, t: Id, b: Batch)
    ensures OnlyNext(stations, DeliverTo(stations, t, b))
  {
  }

  /** A send leaves everything but buffers and what waits for the next superstep as it was. */
  lemma {:induction false} SendKeeps(s: Run, groups: seq<EdgeGroup>, step: Id, ref: Ref)
    ensures var r := Send(s, groups, step, ref);
      OnlyNext(s.stations, r.stations) && r.heap == s.heap && r.superstep == s.superstep
    ensures forall k :: k >= |groups| ==> Buffer(Send(s, groups, step, ref), k) == Buffer(s, k)
  {
    if groups != [] {
      var n := |groups| - 1;
      SendKeeps(s, groups[..n], step, ref);
      ViaKeeps(Send(s, groups[..n], step, ref), n, groups[n], step, ref);
    }
  }

  lemma RepeatNone<T>(s: seq<T>, x: T)
    ensures s + Repeat(x, 0) == s && s + Repeat(x, 1) == s + [x]
  {
    assert Repeat(x, 1) == [x];
  }

  lemma DeliverToOther(stations: map<Id, Station>, t: Id, other: Id, b: Batch)
    requires t in stations && other != t
    ensures t in DeliverTo(stations, other, b) && DeliverTo(stations, other, b)[t] == stations[t]
  {
  }

  lemma ViaPlain(s: Run, k: nat, e: EdgeGroup, step: Id, ref: Ref, t: Id)
    requires t in s.stations && !e.Switch? && (e.FanIn? ==> e.target != t)
    ensures t in SendVia(s, k, e, step, ref).stations
    ensures SendVia(s, k, e, step, ref).stations[t].next == s.stations[t].next + Repeat(One(ref), GroupCount(e, step, t))
  {
    hide Refs, Complete, HasSent, Buffer;
    RepeatNone(s.stations[t].next, One(ref));
    if e.FanOut? {
      DeliverToAllAt(s.stations, e.targets, One(ref), t);
    } else if e.target != t {
      var b := if e.FanIn? then Gathered(Refs(Buffer(s, k) + [(step, ref)])) else One(ref);
      DeliverToOther(s.stations, t, e.target, b);
    }
  }

  /** A step no fan-in group or switch leads to gets one message for every edge from the sender. */
  lemma {:induction false} SendPlain(s: Run, groups: seq<EdgeGroup>, step: Id, ref: Ref, t: Id)
    requires t in s.stations
    requires forall k :: 0 <= k < |groups| ==> !groups[k].Switch? && (groups[k].FanIn? ==> groups[k].target != t)
    ensures t in Send(s, groups, step, ref).stations
    ensures Send(s, groups, step, ref).stations[t].next == s.stations[t].next + Repeat(One(ref), EdgeCount(groups, step, t))
  {
    if groups != [] {
      var n := |groups| - 1;
      SendPlain(s, groups[..n], step, ref, t);
      ViaPlain(Send(s, groups[..n], step, ref), n, groups[n], step, ref, t);
      RepeatAdd(One(ref), EdgeCount(groups[..n], step, t), GroupCount(groups[n], step, t));
    }
  }

  /** What a send does to buffer k and to the step t that the group leads to: a full buffer is delivered. */
  ghost predicate Gathers(s: Run, r: Run, k: nat, sources: seq<Id>, t: Id, step: Id, ref: Ref) {
    var buffer := Buffer(s, k) + [(step, ref)];
    && t in s.stations && t in r.stations
    && if step !in sources then
         r.stations[t].next == s.stations[t].next && Buffer(r, k) == Buffer(s, k)
       else if Complete(sources, buffer) then
         r.stations[t].next == s.stations[t].next + [Gathered(Refs(buffer))] && Buffer(r, k) == []
       else
         r.stations[t].next == s.stations[t].next && Buffer(r, k) == buffer
  }

  /** No group leads to t, save possibly group k. */
  ghost predicate OnlyGroup(groups: seq<EdgeGroup>, k: nat, t: Id) {
    forall j :: 0 <= j < |groups| && j != k ==> !Reaches(groups[j], t)
  }

  lemma ViaMisses(s: Run, k: nat, e: EdgeGroup, step: Id, ref: Ref, t: Id)
    requires t in s.stations && !Reaches(e, t)
    ensures t in SendVia(s, k, e, step, ref).stations
    ensures SendVia(s, k, e, step, ref).stations[t].next == s.stations[t].next
  {
    ViaPlain(s, k, e, step, ref, t);
    assert GroupCount(e, step, t) == 0;
  }

  lemma {:induction false} SendMisses(s: Run, groups: seq<EdgeGroup>, step: Id, ref: Ref, t: Id)
    requires t in s.stations && forall j :: 0 <= j < |groups| ==> !Reaches(groups[j], t)
    ensures t in Send(s, groups, step, ref).stations
    ensures Send(s, groups, step, ref).stations[t].next == s.stations[t].next
  {
    if groups != [] {
      var n := |groups| - 1;
      SendMisses(s, groups[..n], step, ref, t);
      ViaMisses(Send(s, groups[..n], step, ref), n, groups[n], step, ref, t);
    }
  }

  lemma ViaGathers(s: Run, mid: Run, k: nat, e: EdgeGroup, step: Id, ref: Ref)
    requires e.FanIn? && e.target in s.stations && e.target in mid.stations
    requires mid.stations[e.target].next == s.stations[e.target].next && Buffer(mid, k) == Buffer(s, k)
    ensures Gathers(s, SendVia(mid, k, e, step, ref), k, e.sources, e.target, step, ref)
  {
  }

  /** The step that fan-in group k alone leads to. */
  lemma {:induction false} SendGathered(s: Run, groups: seq<EdgeGroup>, k: nat, step: Id, ref: Ref)
    requires k < |groups| && groups[k].FanIn? && groups[k].target in s.stations
    requires OnlyGroup(groups, k, groups[k].target)
    ensures Gathers(s, Send(s, groups, step, ref), k, groups[k].sources, groups[k].target, step, ref)
  {
    hide OnlyNext, Refs, Complete, SendVia;
    var n := |groups| - 1;
    var mid := Send(s, groups[..n], step, ref);
    if k < n {
      SendGathered(s, groups[..n], k, step, ref);
      assert !Reaches(groups[n], groups[k].target);
      ViaMisses(mid, n, groups[n], step, ref, groups[k].target);
      ViaKeeps(mid, n, groups[n], step, ref);
    } else {
      SendMisses(s, groups[..n], step, ref, groups[k].target);
      SendKeeps(s, groups[..n], step, ref);
      ViaGathers(s, mid, k, groups[k], step, ref);
    }
  }
}
