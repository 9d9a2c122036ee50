/** What every run of a built workflow without conditions guarantees. */
module RunTheorems {
  import opened Wrappers
  import opened Graph
  import opened Ranks
  import opened WorkflowSteps
  import opened WorkflowBuild
  import opened Supersteps
  import opened RunOrder
  import opened PlainWorkflows
  import S = Sends
  import M = Messages

  /** What the builder promises of a plain workflow it accepts. */
  ghost predicate Runnable(steps: seq<Step>, wf: Workflow, order: seq<Id>) {
    && Plain(steps) && Topological(DepsOf(steps), order)
    && EdgesExact(steps, {}, wf.groups) && wf.start == StartOf(steps).id
  }

  /** Builds a workflow whose fan-in groups the library accepts; every acyclic plain one can be run. */
  method BuildRunnable(steps: seq<Step>) returns (r: Result<Workflow, BuildError>, ghost order: seq<Id>)
    ensures Plain(steps) ==> (r.Ok? <==> !Cyclic(DepsOf(steps)))
    ensures Plain(steps) && r.Ok? ==> Runnable(steps, r.value, order)
  {
    hide EdgesExact, Topological, Cyclic;
    r, order := BuildWorkflow(steps, {});
  }

  lemma RunnableInv(steps: seq<Step>, wf: Workflow, order: seq<Id>, input: M.Msg, limit: nat, acts: seq<Action>)
    returns (rank: map<Id, nat>)
    requires Runnable(steps, wf, order) && Schedule(PlanOf(steps, wf), input, limit, acts)
    ensures Delivers(DepsOf(steps), PlanOf(steps, wf)) && Ranked(DepsOf(steps), rank)
    ensures Inv(DepsOf(steps), PlanOf(steps, wf), rank, Exec(PlanOf(steps, wf), input, acts))
  {
    hide *;
    RunnableParts(steps, wf, order);
    TopologicalIsAcyclic(DepsOf(steps), order);
    PlanDelivers(steps, wf);
    rank := RanksExist(DepsOf(steps), order);
    RunInv(DepsOf(steps), PlanOf(steps, wf), rank, input, limit, acts);
  }

  lemma RunnableParts(steps: seq<Step>, wf: Workflow, order: seq<Id>)
    requires Runnable(steps, wf, order)
    ensures Plain(steps) && Topological(DepsOf(steps), order)
    ensures EdgesExact(steps, {}, wf.groups) && wf.start == StartOf(steps).id
  {
  }

  /** The longest path from v has n steps. */
  ghost predicate LongestFrom(g: Deps, v: Id, n: nat) {
    && (exists p :: Path(g, p) && p[0] == v && |p| == n)
    && (forall p :: Path(g, p) && p[0] == v ==> |p| <= n)
  }

  lemma RankIsLongest(g: Deps, rank: map<Id, nat>, v: Id)
    requires Ranked(g, rank) && v in g
    ensures LongestFrom(g, v, rank[v] + 1)
  {
    var p := PathOfRank(g, rank, v);
    forall q | Path(g, q) && q[0] == v ensures |q| <= rank[v] + 1 {
      PathWithinRank(g, rank, q);
    }
  }

  /** v has been started at most once, and only after everything it waits for had ended, each once; it was started in
      the superstep given by the longest path below it. */
  ghost predicate RunOnceInOrder(g: Deps, s: Run, v: Id) {
    && v in s.stations
    && |s.stations[v].begun| <= 1 && |s.stations[v].ended| <= |s.stations[v].begun|
    && (s.stations[v].begun != [] ==>
          && (forall d :: Dep(g, v, d) ==> d in s.stations && |s.stations[d].ended| == 1)
          && LongestFrom(g, v, s.stations[v].begun[0] + 1))
  }

  lemma StationOnce(g: Deps, s: Run, rank: nat, v: Id)
    requires v in s.stations
    requires StationOk(rank, Ready(g, s, v), s.superstep, s.stations[v]) && LongestFrom(g, v, rank + 1)
    requires forall d :: Dep(g, v, d) ==> d in s.stations && |s.stations[d].ended| <= 1
    ensures RunOnceInOrder(g, s, v)
  {
    hide LongestFrom, Dep;
    if s.stations[v].begun != [] {
      forall d | Dep(g, v, d) ensures d in s.stations && |s.stations[d].ended| == 1 {
        assert Ended(s, d);
      }
    }
  }

  lemma EndedOnce(rank: nat, ready: bool, superstep: nat, st: Station)
    requires StationOk(rank, ready, superstep, st)
    ensures |st.ended| <= 1
  {
  }

  lemma DepKeys(g: Deps, v: Id, d: Id)
    requires Dep(g, v, d)
    ensures d in g
  {
  }

  lemma OnceInOrder(g: Deps, plan: Plan, rank: map<Id, nat>, s: Run, v: Id)
    requires Ranked(g, rank) && Inv(g, plan, rank, s) && v in g
    ensures RunOnceInOrder(g, s, v)
  {
    hide *;
    InvAt(g, plan, rank, s, v);
    RankIsLongest(g, rank, v);
    forall d | Dep(g, v, d) ensures d in s.stations && |s.stations[d].ended| <= 1 {
      DepKeys(g, v, d);
      InvAt(g, plan, rank, s, d);
      EndedOnce(rank[d], Ready(g, s, d), s.superstep, s.stations[d]);
    }
    StationOnce(g, s, rank[v], v);
  }

  /** At every moment of every run, each step has run at most once and in dependency order. */
  lemma StepsRunOnceInOrder(steps: seq<Step>, wf: Workflow, order: seq<Id>, input: M.Msg, limit: nat, acts: seq<Action>)
    requires Runnable(steps, wf, order) && Schedule(PlanOf(steps, wf), input, limit, acts)
    ensures forall v :: v in DepsOf(steps) ==> RunOnceInOrder(DepsOf(steps), Exec(PlanOf(steps, wf), input, acts), v)
  {
    hide *;
    var rank := RunnableInv(steps, wf, order, input, limit, acts);
    forall v | v in DepsOf(steps) ensures RunOnceInOrder(DepsOf(steps), Exec(PlanOf(steps, wf), input, acts), v) {
      OnceInOrder(DepsOf(steps), PlanOf(steps, wf), rank, Exec(PlanOf(steps, wf), input, acts), v);
    }
  }

  // ----- Halting

  // The superstep limit the builder sets.
  const MAX_WORKFLOW_SUPERSTEPS: nat := 50

  /** Facts about a run that do not depend on the graph: how far it is, and how many actions it took. */
  ghost predicate Paced(rank: map<Id, nat>, s: Run, limit: nat, n: nat) {
    && s.superstep < limit
    && (exists v :: v in rank && rank[v] == s.superstep)
    && n == |Begun(s)| + |Over(s)| + s.superstep
  }

  function Begun(s: Run): set<Id> {
    set v | v in s.stations && s.stations[v].begun != []
  }

  function Over(s: Run): set<Id> {
    set v | v in s.stations && s.stations[v].ended != []
  }

  lemma BeginCounts(s: Run, x: Id, k: nat)
    requires x in s.stations && k < |s.stations[x].now| && s.stations[x].begun == []
    ensures var s' := DoBegin(s, x, k);
      Begun(s') == Begun(s) + {x} && x !in Begun(s) && Over(s') == Over(s) && s'.superstep == s.superstep
  {
  }

  lemma QueuedStation(rank: nat, ready: bool, superstep: nat, st: Station)
    requires StationOk(rank, ready, superstep, st)
    ensures st.now != [] ==> st.begun == []
    ensures st.next != [] ==> rank == superstep + 1
    ensures st.active != [] ==> st.ended == []
    ensures st.ended != [] ==> rank <= superstep
  {
  }

  lemma BeginPaced(g: Deps, plan: Plan, rank: map<Id, nat>, s: Run, limit: nat, n: nat, x: Id, k: nat)
    requires Inv(g, plan, rank, s) && Paced(rank, s, limit, n) && x in g && x in s.stations && k < |s.stations[x].now|
    ensures Paced(rank, DoBegin(s, x, k), limit, n + 1)
  {
    hide Inv, StationOk, DoBegin, Begun, Over, Ready;
    InvAt(g, plan, rank, s, x);
    QueuedStation(rank[x], Ready(g, s, x), s.superstep, s.stations[x]);
    BeginCounts(s, x, k);
  }

  lemma RecordCounts(s: Run, x: Id, k: nat, result: Option<Payload>)
    requires x in s.stations && k < |s.stations[x].active| && s.stations[x].ended == []
    ensures var mid := Recorded(s, x, k, result);
      Begun(mid) == Begun(s) && Over(mid) == Over(s) + {x} && x !in Over(s) && mid.superstep == s.superstep
  {
  }

  lemma SentCounts(a: Run, b: Run)
    requires S.OnlyNext(a.stations, b.stations)
    ensures Begun(b) == Begun(a) && Over(b) == Over(a)
  {
  }

  lemma FinishCounts(plan: Plan, s: Run, x: Id, k: nat, result: Option<Payload>)
    requires x in s.stations && k < |s.stations[x].active| && s.stations[x].ended == []
    ensures var s' := DoFinish(plan, s, x, k, result);
      Begun(s') == Begun(s) && Over(s') == Over(s) + {x} && x !in Over(s) && s'.superstep == s.superstep
  {
    hide Send, Recorded, Begun, Over, S.OnlyNext;
    var mid := Recorded(s, x, k, result);
    RecordCounts(s, x, k, result);
    S.SendKeeps(mid, plan.groups, x, s.stations[x].active[k].ref);
    SentCounts(mid, Send(mid, plan.groups, x, s.stations[x].active[k].ref));
  }

  lemma FinishPaced(g: Deps, plan: Plan, rank: map<Id, nat>, s: Run, limit: nat, n: nat, x: Id, k: nat,
                    result: Option<Payload>)
    requires Inv(g, plan, rank, s) && Paced(rank, s, limit, n)
    requires x in g && x in s.stations && k < |s.stations[x].active|
    ensures Paced(rank, DoFinish(plan, s, x, k, result), limit, n + 1)
  {
    hide Inv, StationOk, DoFinish, Begun, Over, Ready;
    InvAt(g, plan, rank, s, x);
    QueuedStation(rank[x], Ready(g, s, x), s.superstep, s.stations[x]);
    FinishCounts(plan, s, x, k, result);
  }

  lemma AdvanceCounts(s: Run)
    ensures Begun(DoAdvance(s)) == Begun(s) && Over(DoAdvance(s)) == Over(s)
  {
  }

  lemma AdvancePaced(g: Deps, plan: Plan, rank: map<Id, nat>, s: Run, limit: nat, n: nat)
    requires Inv(g, plan, rank, s) && Paced(rank, s, limit, n) && Enabled(s, limit, Advance)
    ensures Paced(rank, DoAdvance(s), limit, n + 1)
  {
    InvBuffers(g, plan, rank, s);
    var v :| v in s.stations && s.stations[v].next != [];
    InvAt(g, plan, rank, s, v);
    QueuedStation(rank[v], Ready(g, s, v), s.superstep, s.stations[v]);
    hide Inv, StationOk, Begun, Over, Ready;
    AdvanceCounts(s);
  }

  lemma InitialPaced(g: Deps, plan: Plan, rank: map<Id, nat>, input: M.Msg, limit: nat)
    requires Delivers(g, plan) && Ranked(g, rank) && limit > 0
    ensures Paced(rank, Initial(plan, input), limit, 0)
  {
    var s := Initial(plan, input);
    assert Begun(s) == {} && Over(s) == {};
    assert rank[plan.start] == 0;
  }

  lemma {:induction false} RunPaced(g: Deps, plan: Plan, rank: map<Id, nat>, input: M.Msg, limit: nat,
                                    acts: seq<Action>)
    requires Delivers(g, plan) && Ranked(g, rank) && limit > 0 && Schedule(plan, input, limit, acts)
    ensures Paced(rank, Exec(plan, input, acts), limit, |acts|)
  {
    hide Inv, Delivers, Ranked, Paced, DoBegin, DoFinish, DoAdvance;
    if acts == [] {
      InitialPaced(g, plan, rank, input, limit);
    } else {
      var n := |acts| - 1;
      RunPaced(g, plan, rank, input, limit, acts[..n]);
      RunInv(g, plan, rank, input, limit, acts[..n]);
      var s := Exec(plan, input, acts[..n]);
      InvBuffers(g, plan, rank, s);
      match acts[n]
      case Begin(x, k) => BeginPaced(g, plan, rank, s, limit, n, x, k);
      case Finish(x, k, result) => FinishPaced(g, plan, rank, s, limit, n, x, k, result);
      case Advance => AdvancePaced(g, plan, rank, s, limit, n);
    }
  }

  lemma SubsetSize(a: set<Id>, b: set<Id>)
    requires a <= b
    ensures |a| <= |b|
  {
    if a != {} {
      var x :| x in a;
      SubsetSize(a - {x}, b - {x});
    }
  }

  lemma PacedBound(rank: map<Id, nat>, s: Run, limit: nat, n: nat)
    requires Paced(rank, s, limit, n)
    ensures n <= 2 * |s.stations.Keys| + s.superstep && s.superstep < limit
    ensures exists v :: v in rank && rank[v] == s.superstep
  {
    SubsetSize(Begun(s), s.stations.Keys);
    SubsetSize(Over(s), s.stations.Keys);
  }

  /** No run goes on for ever, and none takes more supersteps than some path has steps. */
  lemma RunsAreShort(steps: seq<Step>, wf: Workflow, order: seq<Id>, input: M.Msg, limit: nat, acts: seq<Action>)
    requires Runnable(steps, wf, order) && limit > 0 && Schedule(PlanOf(steps, wf), input, limit, acts)
    ensures var s := Exec(PlanOf(steps, wf), input, acts);
      && |acts| <= 2 * |DepsOf(steps).Keys| + s.superstep && s.superstep < limit
      && exists p :: Path(DepsOf(steps), p) && |p| == s.superstep + 1
  {
    hide *;
    var g, plan, s := DepsOf(steps), PlanOf(steps, wf), Exec(PlanOf(steps, wf), input, acts);
    var rank := RunnableInv(steps, wf, order, input, limit, acts);
    RunPaced(g, plan, rank, input, limit, acts);
    PacedBound(rank, s, limit, |acts|);
    InvBuffers(g, plan, rank, s);
    var v :| v in rank && rank[v] == s.superstep;
    var p := PathOfRank(g, rank, v);
  }

  // ----- What is true when nothing can happen any more

  ghost predicate AllEnded(g: Deps, s: Run) {
    forall v :: v in g ==> v in s.stations && |s.stations[v].ended| == 1
  }

  ghost predicate PathsWithin(g: Deps, n: nat) {
    forall p :: Path(g, p) ==> |p| <= n
  }

  /** Nothing is at work, and what still waits is held back by the superstep limit. */
  lemma HaltedStations(s: Run, limit: nat)
    requires Halted(s, limit)
    ensures forall x :: x in s.stations ==> Resting(s.stations[x])
    ensures (exists x :: x in s.stations && s.stations[x].next != []) ==> s.superstep + 1 >= limit
  {
    forall x | x in s.stations ensures Resting(s.stations[x]) {
      assert !Enabled(s, limit, Begin(x, 0));
      assert !Enabled(s, limit, Finish(x, 0, None));
    }
    assert !Enabled(s, limit, Advance);
  }

  lemma HeldBack(g: Deps, plan: Plan, rank: map<Id, nat>, s: Run, limit: nat, v: Id)
    requires Ranked(g, rank) && Inv(g, plan, rank, s) && Halted(s, limit) && PathsWithin(g, limit) && v in g
    ensures v in s.stations && s.stations[v].next == []
  {
    InvAt(g, plan, rank, s, v);
    QueuedStation(rank[v], Ready(g, s, v), s.superstep, s.stations[v]);
    hide Inv, StationOk, Ready, Ranked, Halted;
    if s.stations[v].next != [] {
      HaltedStations(s, limit);
      var p := PathOfRank(g, rank, v);
    }
  }

  lemma IdleStation(rank: nat, ready: bool, superstep: nat, st: Station)
    requires StationOk(rank, ready, superstep, st) && Resting(st) && st.next == [] && ready
    ensures |st.ended| == 1
  {
  }

  lemma {:induction false} ReachesAll(g: Deps, plan: Plan, rank: map<Id, nat>, s: Run, limit: nat, v: Id)
    requires Ranked(g, rank) && Inv(g, plan, rank, s) && Halted(s, limit)
    requires PathsWithin(g, limit) && v in rank && v in g
    ensures v in s.stations && |s.stations[v].ended| == 1
    decreases rank[v]
  {
    hide Inv, StationOk, PathsWithin, Halted, Resting;
    InvAt(g, plan, rank, s, v);
    forall d | Dep(g, v, d) ensures Ended(s, d) {
      ReachesAll(g, plan, rank, s, limit, d);
    }
    assert Ready(g, s, v);
    HeldBack(g, plan, rank, s, limit, v);
    HaltedStations(s, limit);
    IdleStation(rank[v], Ready(g, s, v), s.superstep, s.stations[v]);
  }

  lemma EndedRank(g: Deps, plan: Plan, rank: map<Id, nat>, s: Run, p: seq<Id>)
    requires Ranked(g, rank) && Inv(g, plan, rank, s) && AllEnded(g, s) && Path(g, p)
    ensures |p| <= s.superstep + 1
  {
    hide Inv, StationOk, Ready, Ranked;
    InvAt(g, plan, rank, s, p[0]);
    QueuedStation(rank[p[0]], Ready(g, s, p[0]), s.superstep, s.stations[p[0]]);
    PathWithinRank(g, rank, p);
  }

  /** A run that can go no further has run every step once exactly if no path is longer than the superstep limit;
      it then took just as many supersteps as the longest path has steps. */
  lemma CompleteIffPathsFit(steps: seq<Step>, wf: Workflow, order: seq<Id>, input: M.Msg, limit: nat, acts: seq<Action>)
    requires Runnable(steps, wf, order) && limit > 0 && Schedule(PlanOf(steps, wf), input, limit, acts)
    requires Halted(Exec(PlanOf(steps, wf), input, acts), limit)
    ensures var g, s := DepsOf(steps), Exec(PlanOf(steps, wf), input, acts);
      && (AllEnded(g, s) <==> PathsWithin(g, limit))
      && (AllEnded(g, s) ==> PathsWithin(g, s.superstep + 1) && exists p :: Path(g, p) && |p| == s.superstep + 1)
  {
    hide *;
    var g, plan, s := DepsOf(steps), PlanOf(steps, wf), Exec(PlanOf(steps, wf), input, acts);
    var rank := RunnableInv(steps, wf, order, input, limit, acts);
    RunsAreShort(steps, wf, order, input, limit, acts);
    InvBuffers(g, plan, rank, s);
    if PathsWithin(g, limit) {
      forall v | v in g ensures v in s.stations && |s.stations[v].ended| == 1 {
        ReachesAll(g, plan, rank, s, limit, v);
      }
      MakeAllEnded(g, s);
    }
    if AllEnded(g, s) {
      forall p | Path(g, p) ensures |p| <= s.superstep + 1 {
        EndedRank(g, plan, rank, s, p);
      }
      MakeWithin(g, s.superstep + 1);
      MakeWithin(g, limit);
    }
  }

  lemma PathsWithinOrder(g: Deps, order: seq<Id>)
    requires Topological(g, order)
    ensures PathsWithin(g, |order|)
  {
    hide Topological, Path;
    forall p | Path(g, p) ensures |p| <= |order| {
      PathEnds(g, order, p);
      PathDescends(g, order, p);
    }
  }

  lemma PathEnds(g: Deps, order: seq<Id>, p: seq<Id>)
    requires Topological(g, order) && Path(g, p)
    ensures |p| > 0 && p[0] in order && p[|p| - 1] in order
  {
    assert p[0] in g && p[|p| - 1] in g;
  }

  /** So a workflow of no more steps than the library allows supersteps is always run to its end. */
  lemma SmallWorkflowsComplete(steps: seq<Step>, wf: Workflow, order: seq<Id>, input: M.Msg, acts: seq<Action>)
    requires Runnable(steps, wf, order) && |order| <= MAX_WORKFLOW_SUPERSTEPS
    requires Schedule(PlanOf(steps, wf), input, MAX_WORKFLOW_SUPERSTEPS, acts)
    requires Halted(Exec(PlanOf(steps, wf), input, acts), MAX_WORKFLOW_SUPERSTEPS)
    ensures AllEnded(DepsOf(steps), Exec(PlanOf(steps, wf), input, acts))
  {
    assert MAX_WORKFLOW_SUPERSTEPS > 0;
    hide *;
    RunnableParts(steps, wf, order);
    PathsWithinOrder(DepsOf(steps), order);
    LooserBound(DepsOf(steps), |order|, MAX_WORKFLOW_SUPERSTEPS);
    CompleteIffPathsFit(steps, wf, order, input, MAX_WORKFLOW_SUPERSTEPS, acts);
  }

  lemma LooserBound(g: Deps, n: nat, m: nat)
    requires PathsWithin(g, n) && n <= m
    ensures PathsWithin(g, m)
  {
  }

  lemma MakeAllEnded(g: Deps, s: Run)
    requires forall v :: v in g ==> v in s.stations && |s.stations[v].ended| == 1
    ensures AllEnded(g, s)
  {
  }

  lemma MakeWithin(g: Deps, n: nat)
    requires forall p :: Path(g, p) ==> |p| <= n
    ensures PathsWithin(g, n)
  {
  }
}
