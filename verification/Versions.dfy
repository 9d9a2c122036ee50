/** The version history of an agent: a snapshot before every change, none twice in a row, old ones pruned. */
module Versions {
  import opened Wrappers
  import opened Sequences

  // An agent's settings, and the part of them that a snapshot keeps, in a fixed textual form.
  type Config(==, !new)
  type Snapshot(==, !new)

  datatype Version = Version(number: nat, snapshot: Snapshot, createdAt: int)

  const RETENTION := 72 * 3600

  // ----- Looking into the rows

  /** A row with the greatest number. */
  function Latest(rows: seq<Version>): (v: Option<Version>)
    ensures v.None? <==> rows == []
    ensures v.Some? ==> v.value in rows && forall r :: r in rows ==> r.number <= v.value.number
  {
    if rows == [] then None else
      var n := |rows| - 1;
      assert rows == rows[..n] + [rows[n]];
      var before := Latest(rows[..n]);
      if before.Some? && before.value.number > rows[n].number then before else Some(rows[n])
  }

  /** The row of the current settings, if they differ from the last snapshot. */
  function NextVersion(rows: seq<Version>, current: Snapshot, now: int): Option<Version> {
    match Latest(rows)
    case None => Some(Version(1, current, now))
    case Some(last) => if last.snapshot == current then None else Some(Version(last.number + 1, current, now))
  }

  /** What pruning leaves: rows that are not older than the retention time, and the latest. */
  function Kept(rows: seq<Version>, latest: Version, cutoff: int): (kept: seq<Version>)
    ensures forall r :: r in kept <==> r in rows && (r.createdAt >= cutoff || r == latest)
  {
    if rows == [] then [] else
      var n := |rows| - 1;
      assert rows == rows[..n] + [rows[n]];
      Kept(rows[..n], latest, cutoff) + if rows[n].createdAt >= cutoff || rows[n] == latest then [rows[n]] else []
  }

  /** No row has a greater number. */
  ghost predicate Newest(rows: seq<Version>, v: Version) {
    forall r :: r in rows ==> r.number <= v.number
  }

  lemma {:induction false} KeptInOrder(rows: seq<Version>, latest: Version, cutoff: int)
    ensures TakenFrom(Kept(rows, latest, cutoff), rows)
  {
    if rows != [] {
      var n := |rows| - 1;
      assert rows == rows[..n] + [rows[n]];
      KeptInOrder(rows[..n], latest, cutoff);
      var before := Kept(rows[..n], latest, cutoff);
      hide TakenFrom;
      assert before + [] == before;
      TakenSkips(before, rows[..n], rows[n]);
      TakenTakes(before, rows[..n], rows[n]);
    }
  }

  lemma {:induction false} TakenAll(rows: seq<Version>)
    ensures TakenFrom(rows, rows)
  {
    if rows != [] {
      TakenAll(rows[..|rows| - 1]);
    }
  }

  function Pruned(rows: seq<Version>, now: int): seq<Version> {
    match Latest(rows)
    case None => rows
    case Some(last) => Kept(rows, last, now - RETENTION)
  }

  // ----- The agent with its versions

  datatype State = State(config: Config, rows: seq<Version>)

  /** Edit replaces the settings, Publish leaves them, Prune clears away old versions. */
  datatype Event = Edit(config: Config, at: int) | Publish(at: int) | Prune(at: int)

  function Snapshotted(s: State, snap: Config -> Snapshot, now: int): State {
    match NextVersion(s.rows, snap(s.config), now)
    case None => s
    case Some(v) => s.(rows := s.rows + [v])
  }

  function Step(s: State, snap: Config -> Snapshot, e: Event): State {
    match e
    case Edit(config, at) => Snapshotted(s, snap, at).(config := config)
    case Publish(at) => Snapshotted(s, snap, at)
    case Prune(at) => s.(rows := Pruned(s.rows, at))
  }

  class Agent {
    var config: Config
    var rows: seq<Version>

    function View(): State
      reads this
    {
      State(config, rows)
    }

    constructor (config: Config)
      ensures View() == State(config, [])
    {
      this.config, rows := config, [];
    }

    method TakeSnapshot(snap: Config -> Snapshot, now: int) returns (added: Option<Version>)
      modifies this`rows
      ensures View() == Snapshotted(old(View()), snap, now)
      ensures added == NextVersion(old(rows), snap(old(config)), now)
    {
      var last := Latest(rows);
      var current := snap(config);
      if last.Some? && last.value.snapshot == current { return None; }
      var next := Version(if last.Some? then last.value.number + 1 else 1, current, now);
      rows := rows + [next];
      added := Some(next);
    }

    method Update(newConfig: Config, snap: Config -> Snapshot, now: int)
      modifies this
      ensures View() == Step(old(View()), snap, Edit(newConfig, now))
    {
      var added := TakeSnapshot(snap, now);
      config := newConfig;
    }

    /** Publishes the newest version, which holds the present settings. */
    method PublishVersion(snap: Config -> Snapshot, now: int) returns (published: Version)
      modifies this`rows
      ensures View() == Step(old(View()), snap, Publish(now))
      ensures published in rows && published.snapshot == snap(config)
    {
      var added := TakeSnapshot(snap, now);
      published := if added.Some? then added.value else Latest(rows).value;
    }

    method PruneOld(now: int)
      modifies this`rows
      ensures View() == State(old(config), Pruned(old(rows), now))
      ensures forall v :: v in rows ==> v in old(rows) && (v.createdAt >= now - 72 * 3600 || Newest(old(rows), v))
      ensures forall v :: v in old(rows) && v.createdAt >= now - 72 * 3600 ==> v in rows
      ensures old(rows) != [] ==> exists v :: v in rows && Newest(old(rows), v)
      ensures TakenFrom(rows, old(rows))
    {
      var last := Latest(rows);
      TakenAll(rows);
      if last.Some? {
        KeptInOrder(rows, last.value, now - RETENTION);
        hide TakenFrom;
        rows := Kept(rows, last.value, now - RETENTION);
      }
    }
  }

  // ----- Whole histories

  /** Every version ever issued, in the order of issue. */
  function Issued(s: State, snap: Config -> Snapshot, e: Event): seq<Version> {
    if e.Prune? then [] else
      match NextVersion(s.rows, snap(s.config), e.at)
      case None => []
      case Some(v) => [v]
  }

  function Run(config: Config, snap: Config -> Snapshot, events: seq<Event>): (State, seq<Version>) {
    if events == [] then (State(config, []), []) else
      var (s, issued) := Run(config, snap, events[..|events| - 1]);
      var e := events[|events| - 1];
      (Step(s, snap, e), issued + Issued(s, snap, e))
  }

  /** The clock never goes back. */
  ghost predicate Monotone(events: seq<Event>) {
    forall i, j :: 0 <= i <= j < |events| ==> events[i].at <= events[j].at
  }

  /** Versions are numbered one by one, no two neighbours hold the same, and they are in the order of their times. */
  ghost predicate Proper(issued: seq<Version>) {
    && (forall i :: 0 <= i < |issued| ==> issued[i].number == i + 1)
    && (forall i, j :: 0 <= i && j == i + 1 && j < |issued| ==> issued[i].snapshot != issued[j].snapshot)
    && (forall i, j :: 0 <= i < j < |issued| ==> issued[i].createdAt <= issued[j].createdAt)
  }

  /** The rows are the last of the versions issued, the very last one among them. */
  ghost predicate LastOnes(rows: seq<Version>, issued: seq<Version>) {
    IsEnd(rows, issued) && (issued != [] ==> rows != [])
  }

  lemma Rising(rows: seq<Version>, issued: seq<Version>)
    requires Proper(issued) && IsEnd(rows, issued)
    ensures forall i, j :: 0 <= i < j < |rows| ==> rows[i].number < rows[j].number && rows[i].createdAt <= rows[j].createdAt
  {
    assert forall i :: 0 <= i < |rows| ==> rows[i] == issued[|issued| - |rows| + i];
  }

  lemma GreatestIsLast(rows: seq<Version>)
    requires rows != [] && forall i, j :: 0 <= i < j < |rows| ==> rows[i].number < rows[j].number
    ensures Latest(rows) == Some(rows[|rows| - 1])
  {
    var last := Latest(rows).value;
    var i :| 0 <= i < |rows| && rows[i] == last;
    assert rows[|rows| - 1] in rows;
    hide Latest;
  }

  lemma LatestIsLast(rows: seq<Version>, issued: seq<Version>)
    requires Proper(issued) && LastOnes(rows, issued) && issued != []
    ensures Latest(rows) == Some(issued[|issued| - 1])
  {
    Rising(rows, issued);
    GreatestIsLast(rows);
    EndLast(rows, issued);
  }

  lemma ProperNext(issued: seq<Version>, v: Version)
    requires Proper(issued) && forall x :: x in issued ==> x.createdAt <= v.createdAt
    requires v.number == |issued| + 1 && (issued != [] ==> issued[|issued| - 1].snapshot != v.snapshot)
    ensures Proper(issued + [v])
  {
  }

  lemma ProperNumber(issued: seq<Version>)
    requires Proper(issued) && issued != []
    ensures issued[|issued| - 1].number == |issued|
  {
  }

  /** Issuing a version, or not because nothing has changed. */
  ghost predicate Issues(rows: seq<Version>, issued: seq<Version>, current: Snapshot, now: int) {
    match NextVersion(rows, current, now)
    case None => issued != [] && issued[|issued| - 1].snapshot == current
    case Some(v) => Proper(issued + [v]) && LastOnes(rows + [v], issued + [v]) && v.snapshot == current && v.createdAt == now
  }

  lemma IssueKeeps(rows: seq<Version>, issued: seq<Version>, current: Snapshot, now: int)
    requires Proper(issued) && LastOnes(rows, issued) && forall v :: v in issued ==> v.createdAt <= now
    ensures Issues(rows, issued, current, now)
  {
    hide Proper, IsEnd, Latest;
    if issued == [] {
      EndNothing(rows, issued);
    } else {
      LatestIsLast(rows, issued);
      ProperNumber(issued);
    }
    var v := NextVersion(rows, current, now);
    if v.Some? {
      ProperNext(issued, v.value);
      EndGrows(rows, issued, v.value);
    }
  }

  lemma EndNothing(rows: seq<Version>, issued: seq<Version>)
    requires IsEnd(rows, issued) && issued == []
    ensures rows == []
  {
  }

  lemma NoneKept(rows: seq<Version>, latest: Version, cutoff: int)
    requires forall r :: r in rows ==> r.createdAt < cutoff && r != latest
    ensures Kept(rows, latest, cutoff) == []
  {
    NoElements(Kept(rows, latest, cutoff));
  }

  lemma KeptNext(rows: seq<Version>, v: Version, latest: Version, cutoff: int)
    ensures Kept(rows + [v], latest, cutoff) ==
      if v.createdAt >= cutoff || v == latest then Kept(rows, latest, cutoff) + [v] else Kept(rows, latest, cutoff)
  {
    assert (rows + [v])[..|rows|] == rows;
  }

  /** Times that do not fall are kept from some place on. */
  lemma {:induction false} KeptIsEnd(rows: seq<Version>, latest: Version, cutoff: int)
    requires forall i, j :: 0 <= i < j < |rows| ==> rows[i].createdAt <= rows[j].createdAt
    requires forall i :: 0 <= i < |rows| - 1 ==> rows[i] != latest
    ensures IsEnd(Kept(rows, latest, cutoff), rows)
  {
    hide Kept;
    if rows == [] {
      NoneKept(rows, latest, cutoff);
    } else {
      var n := |rows| - 1;
      assert rows == rows[..n] + [rows[n]];
      KeptNext(rows[..n], rows[n], latest, cutoff);
      if rows[n].createdAt >= cutoff || rows[n] == latest {
        KeptIsEnd(rows[..n], latest, cutoff);
        EndGrows(Kept(rows[..n], latest, cutoff), rows[..n], rows[n]);
      } else {
        NoneKept(rows[..n], latest, cutoff);
      }
    }
  }

  lemma PruneKeeps(rows: seq<Version>, issued: seq<Version>, now: int)
    requires Proper(issued) && LastOnes(rows, issued)
    ensures LastOnes(Pruned(rows, now), issued)
  {
    hide Proper, Kept;
    if issued != [] {
      Rising(rows, issued);
      GreatestIsLast(rows);
      var latest := Latest(rows).value;
      KeptIsEnd(rows, latest, now - RETENTION);
      EndOfEnd(Kept(rows, latest, now - RETENTION), rows, issued);
      assert latest in Kept(rows, latest, now - RETENTION);
    } else {
      EndNothing(rows, issued);
    }
  }

  lemma RunNext(config: Config, snap: Config -> Snapshot, events: seq<Event>, e: Event)
    ensures var (s, issued) := Run(config, snap, events);
      Run(config, snap, events + [e]) == (Step(s, snap, e), issued + Issued(s, snap, e))
  {
    assert (events + [e])[..|events|] == events;
    hide Step, Issued;
  }

  /** What every history keeps true. */
  ghost predicate InOrder(rows: seq<Version>, issued: seq<Version>, now: int) {
    Proper(issued) && LastOnes(rows, issued) && forall v :: v in issued ==> v.createdAt <= now
  }

  lemma StepInOrder(s: State, snap: Config -> Snapshot, issued: seq<Version>, before: int, e: Event)
    requires InOrder(s.rows, issued, before) && before <= e.at
    ensures InOrder(Step(s, snap, e).rows, issued + Issued(s, snap, e), e.at)
  {
    hide Proper, LastOnes, Latest, NextVersion, Pruned;
    assert issued + [] == issued;
    if e.Prune? {
      PruneKeeps(s.rows, issued, e.at);
    } else {
      IssueKeeps(s.rows, issued, snap(s.config), e.at);
    }
  }

  function Now(events: seq<Event>, start: int): int {
    if events == [] then start else events[|events| - 1].at
  }

  /** Over every history of edits, publications and prunings with a clock that never goes back, version numbers go up
      one by one, so that none is issued twice, and neighbours differ; the rows kept are an unbroken end of the versions
      issued, with the newest among them. */
  lemma {:induction false} HistoryIsInOrder(config: Config, snap: Config -> Snapshot, events: seq<Event>, start: int)
    requires Monotone(events) && (events != [] ==> start <= events[0].at)
    ensures InOrder(Run(config, snap, events).0.rows, Run(config, snap, events).1, Now(events, start))
  {
    if events != [] {
      var n := |events| - 1;
      assert events == events[..n] + [events[n]];
      assert forall i :: 0 <= i < n ==> events[..n][i] == events[i];
      HistoryIsInOrder(config, snap, events[..n], start);
      RunNext(config, snap, events[..n], events[n]);
      hide Run, Step, Issued, InOrder;
      var (s, issued) := Run(config, snap, events[..n]);
      StepInOrder(s, snap, issued, Now(events[..n], start), events[n]);
    }
  }

  /** Whatever was issued, the newest version then holds the present settings. */
  lemma NewestIsCurrent(s: State, snap: Config -> Snapshot, issued: seq<Version>, e: Event)
    requires !e.Prune? && Issues(s.rows, issued, snap(s.config), e.at)
    ensures var all := issued + Issued(s, snap, e);
      all != [] && all[|all| - 1].snapshot == snap(s.config)
  {
    hide Proper, LastOnes, Latest, NextVersion;
  }

  lemma EditIssues(s: State, snap: Config -> Snapshot, issued: seq<Version>, now: int, newConfig: Config, at: int)
    requires InOrder(s.rows, issued, now) && now <= at
    ensures var after := Step(s, snap, Edit(newConfig, at));
      after.config == newConfig && Latest(after.rows).Some? && Latest(after.rows).value.snapshot == snap(s.config)
  {
    var e := Edit(newConfig, at);
    hide Proper, Latest, LastOnes, Issues, Issued, NextVersion;
    IssueKeeps(s.rows, issued, snap(s.config), at);
    StepInOrder(s, snap, issued, now, e);
    NewestIsCurrent(s, snap, issued, e);
    LatestIsLast(Step(s, snap, e).rows, issued + Issued(s, snap, e));
  }

  /** After each edit the newest version holds the settings from before it. */
  lemma EditIsRecorded(config: Config, snap: Config -> Snapshot, events: seq<Event>, newConfig: Config, at: int)
    requires Monotone(events) && (events != [] ==> events[|events| - 1].at <= at)
    ensures var before, after := Run(config, snap, events).0, Run(config, snap, events + [Edit(newConfig, at)]).0;
      && Latest(after.rows).Some? && Latest(after.rows).value.snapshot == snap(before.config)
      && after.config == newConfig
  {
    hide Run, InOrder, Latest, Step;
    var start := if events == [] then at else events[0].at;
    HistoryIsInOrder(config, snap, events, start);
    RunNext(config, snap, events, Edit(newConfig, at));
    var (s, issued) := Run(config, snap, events);
    EditIssues(s, snap, issued, Now(events, start), newConfig, at);
  }
}
