/** What the steps of a plain workflow come to does not depend on the schedule, as long as none reads an output that it
    may find or not. */
module RunResults {
  import opened Wrappers
  import opened Graph
  import opened Sequences
  import opened Ranks
  import opened WorkflowSteps
  import opened WorkflowBuild
  import opened Supersteps
  import opened RunOrder
  import opened PlainWorkflows
  import opened MessageObjects
  import opened ObjectRuns
  import opened Behaviours
  import opened Views
  import T = RunTheorems
  import M = Messages

  // ----- Runs of a built workflow

  lemma TwoDiffer<T>(s: seq<T>)
    requires Distinct(s) && |s| > 1
    ensures s[0] in s && s[1] in s && s[0] != s[1]
  {
  }

  lemma AllAlike<T>(s: seq<T>, x: T)
    requires Distinct(s) && forall y :: y in s ==> y == x
    ensures |s| <= 1
  {
    if |s| > 1 {
      TwoDiffer(s);
    }
  }

  lemma SoleIsNoJoin(steps: seq<Step>, s: Step)
    requires Plain(steps) && s in steps && StepDeps(steps, s) && Sole(DepsOf(steps), s.id)
    ensures !IsJoin(steps, {}, s)
  {
    var d :| SoleDep(DepsOf(steps), s.id, d);
    assert forall e :: e in KnownDeps(steps, s.dependsOn) ==> e == d;
    hide DepsOf, KnownDeps, Plain, IsJoin;
    AllAlike(KnownDeps(steps, s.dependsOn), d);
    PlainJoin(steps, s);
  }

  lemma PlanSoles(steps: seq<Step>, wf: Workflow)
    requires Plain(steps) && EdgesExact(steps, {}, wf.groups)
    ensures SolesPlain(DepsOf(steps), PlanOf(steps, wf))
  {
    var g := DepsOf(steps);
    forall t | Sole(g, t) ensures ReachedPlainly(g, wf.groups, t) {
      var d :| SoleDep(g, t, d);
      var s := StepOf(steps, t);
      hide EdgesExact, ReachedPlainly;
      SoleIsNoJoin(steps, s);
      NonJoinReached(steps, wf.groups, s);
    }
  }

  lemma RunnableSettings(steps: seq<Step>, wf: Workflow, order: seq<Id>, rank: map<Id, nat>)
    requires T.Runnable(steps, wf, order) && Ranked(DepsOf(steps), rank)
    ensures Delivers(DepsOf(steps), PlanOf(steps, wf)) && SolesPlain(DepsOf(steps), PlanOf(steps, wf))
  {
    hide *;
    T.RunnableParts(steps, wf, order);
    TopologicalIsAcyclic(DepsOf(steps), order);
    PlanDelivers(steps, wf);
    PlanSoles(steps, wf);
  }

  function SettingOf(steps: seq<Step>, wf: Workflow, rank: map<Id, nat>, timing: Timing, behave: Behaviour,
                     input: M.Msg): Setting {
    Setting(DepsOf(steps), rank, PlanOf(steps, wf), timing, behave, input.userInput)
  }

  /** A run in which every step has answered and ended. */
  ghost predicate Completes(steps: seq<Step>, wf: Workflow, input: M.Msg, behave: Behaviour, limit: nat,
                            acts: seq<Action>)
  {
    && Schedule(PlanOf(steps, wf), input, limit, acts) && Follows(PlanOf(steps, wf), input, behave, acts)
    && T.AllEnded(DepsOf(steps), Exec(PlanOf(steps, wf), input, acts))
  }

  /** All that is known at the end of a complete run. */
  ghost predicate Settled(c: Setting, s: Run)
    requires Ranked(c.g, c.rank)
  {
    && s.stations.Keys == c.g.Keys && T.AllEnded(c.g, s) && HeapTrue(c, s)
    && forall v :: v in c.g ==> Explained(c, s, v, s.stations[v].ended[0])
  }

  lemma ViewedSettles(c: Setting, s: Run, at: Places)
    requires Ranked(c.g, c.rank) && Viewed(c, s, at) && T.AllEnded(c.g, s)
    ensures Settled(c, s)
  {
    ViewedParts(c, s, at);
    InvBuffers(c.g, c.plan, c.rank, s);
    hide Ranked, Viewed, Inv, ObjInv, Caught, HeapTrue, Filled, Explained, Saw;
  }

  lemma CompleteSettles(steps: seq<Step>, wf: Workflow, order: seq<Id>, rank: map<Id, nat>, timing: Timing,
                        input: M.Msg, behave: Behaviour, limit: nat, acts: seq<Action>)
    requires T.Runnable(steps, wf, order) && Ranked(DepsOf(steps), rank) && Fresh(input)
    requires Completes(steps, wf, input, behave, limit, acts)
    requires KeptAlways(SettingOf(steps, wf, rank, timing, behave, input), input, acts)
    ensures Settled(SettingOf(steps, wf, rank, timing, behave, input), Exec(PlanOf(steps, wf), input, acts))
  {
    var c := SettingOf(steps, wf, rank, timing, behave, input);
    hide T.Runnable, Ranked, Fresh, Schedule, Follows, T.AllEnded, KeptAlways, Settled, DepsOf, PlanOf, Exec;
    RunnableSettings(steps, wf, order, rank);
    var at := RunViewed(c, input, limit, acts);
    ViewedSettles(c, Exec(PlanOf(steps, wf), input, acts), at);
  }

  // ----- Two runs of the same workflow

  lemma ExplainedBy(c: Setting, s: Run, v: Id) returns (seen: map<Id, Payload>)
    requires Ranked(c.g, c.rank) && Settled(c, s) && v in c.g
    ensures v in s.stations && Saw(c, s, v, seen) && s.stations[v].ended == [c.behave(v, seen, c.user)]
  {
    hide Ranked, HeapTrue, Saw;
    assert Explained(c, s, v, s.stations[v].ended[0]);
    seen :| Saw(c, s, v, seen) && s.stations[v].ended[0] == c.behave(v, seen, c.user);
  }

  lemma SawKnown(c: Setting, s: Run, v: Id, seen: map<Id, Payload>)
    requires Ranked(c.g, c.rank) && Settled(c, s) && Saw(c, s, v, seen)
    ensures seen.Keys <= c.g.Keys
    ensures forall w :: w in seen ==> w in c.g && w in s.stations && s.stations[w].ended == [Some(seen[w])]
  {
    hide Ranked, HeapTrue, Explained, SawOf;
    forall w | w in seen ensures w in c.g && w in s.stations && s.stations[w].ended == [Some(seen[w])] {
      assert EndedWith(s, w, Some(seen[w]));
    }
  }

  lemma SawAt(c: Setting, s: Run, v: Id, seen: map<Id, Payload>, w: Id)
    requires Ranked(c.g, c.rank) && Saw(c, s, v, seen) && w in c.g && v in c.g
    ensures Sees(c.g, c.rank, Surely(c, w), v, w) && Succeeded(s, w) ==> w in seen
    ensures w in seen ==> Sees(c.g, c.rank, Possibly(c, w), v, w)
  {
    assert SawOf(c, s, v, seen, w);
    hide Ranked, Sees;
  }

  /** None of the outputs that a step reads may be found by it or not, as it comes. */
  ghost predicate Steady(g: Deps, rank: map<Id, nat>, wanted: Deps)
    requires Ranked(g, rank)
  {
    forall v, w :: v in g && w in g && v in wanted && w in wanted[v] ==> !Varies(g, rank, v, w)
  }

  lemma SteadyAt(g: Deps, rank: map<Id, nat>, wanted: Deps, v: Id, w: Id)
    requires Ranked(g, rank) && Steady(g, rank, wanted) && v in g && w in g && v in wanted && w in wanted[v]
    ensures Sees(g, rank, true, v, w) ==> Sees(g, rank, false, v, w)
  {
    hide Ranked, Sees;
    assert !Varies(g, rank, v, w);
  }

  /** Two runs in which every step has ended gave w the same result. */
  ghost predicate SameEnd(s: Run, s': Run, w: Id) {
    w in s.stations && w in s'.stations && s.stations[w].ended == s'.stations[w].ended
  }

  lemma FoundInBoth(c: Setting, s: Run, s': Run, wanted: Deps, v: Id, seen: map<Id, Payload>, seen': map<Id, Payload>,
                    w: Id)
    requires Ranked(c.g, c.rank) && c.timing.Whenever? && Steady(c.g, c.rank, wanted) && Settled(c, s) && Settled(c, s')
    requires v in c.g && w in c.g && v in wanted && w in wanted[v] && Saw(c, s, v, seen) && Saw(c, s', v, seen')
    requires Sees(c.g, c.rank, false, v, w) ==> SameEnd(s, s', w)
    ensures w in seen ==> w in seen' && seen[w] == seen'[w]
  {
    hide Ranked, Steady, Settled, Saw, Sees;
    SteadyAt(c.g, c.rank, wanted, v, w);
    SawAt(c, s, v, seen, w);
    SawAt(c, s', v, seen', w);
    SawKnown(c, s, v, seen);
    SawKnown(c, s', v, seen');
    if w in seen {
      assert EndedWith(s', w, Some(seen[w]));
    }
  }

  lemma ReadsSame(g: Deps, wanted: Deps, behave: Behaviour, v: Id, a: map<Id, Payload>, b: map<Id, Payload>,
                  user: Option<Payload>)
    requires ReadsOnly(g, wanted, behave) && v in g && v in wanted && SameOn(g, wanted[v], a, b)
    ensures behave(v, a, user) == behave(v, b, user)
  {
  }

  lemma {:induction false} SameResult(c: Setting, s: Run, s': Run, wanted: Deps, v: Id)
    requires Ranked(c.g, c.rank) && c.timing.Whenever? && Steady(c.g, c.rank, wanted) && wanted.Keys == c.g.Keys
    requires ReadsOnly(c.g, wanted, c.behave) && Settled(c, s) && Settled(c, s') && v in c.g && v in c.rank
    ensures SameEnd(s, s', v)
    decreases c.rank[v]
  {
    hide Ranked, Steady, Settled, Saw, Sees, ReadsOnly, SameEnd;
    var seen := ExplainedBy(c, s, v);
    var seen' := ExplainedBy(c, s', v);
    SawKnown(c, s, v, seen);
    SawKnown(c, s', v, seen');
    forall w | w in wanted[v] ensures (w in seen <==> w in seen') && (w in seen && w in seen' ==> seen[w] == seen'[w]) {
      if w in c.g {
        if Sees(c.g, c.rank, false, v, w) {
          SeesParts(c, false, v, w);
          SameResult(c, s, s', wanted, w);
          SameEndBack(s, s', w);
        }
        FoundInBoth(c, s, s', wanted, v, seen, seen', w);
        FoundInBoth(c, s', s, wanted, v, seen', seen, w);
      }
    }
    ReadsSame(c.g, wanted, c.behave, v, seen, seen', c.user);
    MakeSameEnd(s, s', v);
  }

  lemma SameEndBack(s: Run, s': Run, w: Id)
    requires SameEnd(s, s', w)
    ensures SameEnd(s', s, w)
  {
  }

  lemma MakeSameEnd(s: Run, s': Run, w: Id)
    requires w in s.stations && w in s'.stations && s.stations[w].ended == s'.stations[w].ended
    ensures SameEnd(s, s', w)
  {
  }

  lemma SameFinals(g: Deps, s: Run, s': Run)
    requires s.stations.Keys == g.Keys && s'.stations.Keys == g.Keys && forall v :: v in g ==> SameEnd(s, s', v)
    ensures FinalOutputs(s) == FinalOutputs(s')
  {
    forall v | v in g ensures SameEnd(s, s', v) {}
  }

  /** Two complete runs came to the same results and outputs. */
  ghost predicate SameResults(g: Deps, s: Run, s': Run) {
    FinalOutputs(s) == FinalOutputs(s') && forall v :: v in g ==> SameEnd(s, s', v)
  }

  /** All complete runs of the workflow, on whatever input, come to the same results. */
  ghost predicate Confluent(steps: seq<Step>, wf: Workflow, behave: Behaviour) {
    forall input, limit, acts, limit', acts' ::
      Fresh(input) && Completes(steps, wf, input, behave, limit, acts) && Completes(steps, wf, input, behave, limit', acts') ==>
      SameResults(DepsOf(steps), Exec(PlanOf(steps, wf), input, acts), Exec(PlanOf(steps, wf), input, acts'))
  }

  lemma SettledResults(c: Setting, s: Run, s': Run, wanted: Deps)
    requires Ranked(c.g, c.rank) && c.timing.Whenever? && Steady(c.g, c.rank, wanted) && wanted.Keys == c.g.Keys
    requires ReadsOnly(c.g, wanted, c.behave) && Settled(c, s) && Settled(c, s') && c.rank.Keys == c.g.Keys
    ensures SameResults(c.g, s, s')
  {
    forall v | v in c.g ensures SameEnd(s, s', v) {
      hide *;
      SameResult(c, s, s', wanted, v);
    }
    hide Ranked, Steady, ReadsOnly, HeapTrue, Explained, T.AllEnded, SameEnd;
    SameFinals(c.g, s, s');
  }

  lemma SettingAt(steps: seq<Step>, wf: Workflow, rank: map<Id, nat>, timing: Timing, behave: Behaviour, input: M.Msg)
    ensures var c := SettingOf(steps, wf, rank, timing, behave, input);
      c.g == DepsOf(steps) && c.rank == rank && c.plan == PlanOf(steps, wf) && c.timing == timing && c.behave == behave
        && c.user == input.userInput
  {
  }

  lemma RankKeys(g: Deps, rank: map<Id, nat>)
    requires Ranked(g, rank)
    ensures rank.Keys == g.Keys
  {
  }

  lemma TwoRunsAgree(steps: seq<Step>, wf: Workflow, order: seq<Id>, rank: map<Id, nat>, wanted: Deps, behave: Behaviour,
                     input: M.Msg, limit: nat, acts: seq<Action>, limit': nat, acts': seq<Action>)
    requires T.Runnable(steps, wf, order) && Ranked(DepsOf(steps), rank) && wanted.Keys == DepsOf(steps).Keys
    requires Steady(DepsOf(steps), rank, wanted) && ReadsOnly(DepsOf(steps), wanted, behave) && Fresh(input)
    requires Completes(steps, wf, input, behave, limit, acts) && Completes(steps, wf, input, behave, limit', acts')
    ensures SameResults(DepsOf(steps), Exec(PlanOf(steps, wf), input, acts), Exec(PlanOf(steps, wf), input, acts'))
  {
    hide *;
    var c := SettingOf(steps, wf, rank, Whenever, behave, input);
    SettingAt(steps, wf, rank, Whenever, behave, input);
    RankKeys(DepsOf(steps), rank);
    AnyTime(c, input, acts);
    AnyTime(c, input, acts');
    CompleteSettles(steps, wf, order, rank, Whenever, input, behave, limit, acts);
    CompleteSettles(steps, wf, order, rank, Whenever, input, behave, limit', acts');
    SettledResults(c, Exec(PlanOf(steps, wf), input, acts), Exec(PlanOf(steps, wf), input, acts'), wanted);
  }

  /** Steps that read only outputs which they find in every schedule or in none come to the same results in every one. */
  lemma SteadyIsConfluent(steps: seq<Step>, wf: Workflow, order: seq<Id>, rank: map<Id, nat>, wanted: Deps,
                          behave: Behaviour)
    requires T.Runnable(steps, wf, order) && Ranked(DepsOf(steps), rank) && wanted.Keys == DepsOf(steps).Keys
    requires Steady(DepsOf(steps), rank, wanted) && ReadsOnly(DepsOf(steps), wanted, behave)
    ensures Confluent(steps, wf, behave)
  {
    forall input, limit, acts, limit', acts' |
      Fresh(input) && Completes(steps, wf, input, behave, limit, acts) && Completes(steps, wf, input, behave, limit', acts')
      ensures SameResults(DepsOf(steps), Exec(PlanOf(steps, wf), input, acts), Exec(PlanOf(steps, wf), input, acts'))
    {
      hide *;
      TwoRunsAgree(steps, wf, order, rank, wanted, behave, input, limit, acts, limit', acts');
    }
  }

  // ----- Answering one after the other

  function Outputs(outcome: Outcome): map<Id, Payload> {
    map v | v in outcome && outcome[v].Some? :: outcome[v].value
  }

  /** Letting the first n steps answer one after the other. */
  function Answers(order: seq<Id>, n: nat, behave: Behaviour, user: Option<Payload>): Outcome
    requires n <= |order|
  {
    if n == 0 then map[] else
      var before := Answers(order, n - 1, behave, user);
      before[order[n - 1] := behave(order[n - 1], Outputs(before), user)]
  }

  lemma {:induction false} AnswersKeys(order: seq<Id>, n: nat, behave: Behaviour, user: Option<Payload>)
    requires n <= |order|
    ensures forall x :: x in Answers(order, n, behave, user) <==> x in order[..n]
  {
    if n > 0 {
      AnswersKeys(order, n - 1, behave, user);
      assert order[..n] == order[..n - 1] + [order[n - 1]];
    }
  }

  /** A later step does not change an earlier answer. */
  lemma {:induction false} AnswersStay(order: seq<Id>, m: nat, n: nat, behave: Behaviour, user: Option<Payload>, x: Id)
    requires m <= n <= |order| && Distinct(order) && x in order[..m]
    ensures x in Answers(order, m, behave, user) && x in Answers(order, n, behave, user)
    ensures Answers(order, n, behave, user)[x] == Answers(order, m, behave, user)[x]
    decreases n - m
  {
    AnswersKeys(order, m, behave, user);
    if m < n {
      var k :| 0 <= k < m && order[..m][k] == x;
      assert order[k] == x && order[n - 1] != x;
      assert order[..n - 1][k] == x;
      AnswersStay(order, m, n - 1, behave, user, x);
    }
  }

  lemma {:induction false} AncestorBefore(g: Deps, order: seq<Id>, n: nat, x: Id)
    requires Topological(g, order) && n < |order| && Ancestor(g, x, order[n])
    ensures x in order[..n]
  {
    var p :| PathFromTo(g, p, order[n], x) && |p| >= 2;
    PathDescends(g, order, p);
    var k := IndexOf(order, x);
    assert IndexOf(order, order[n]) == n;
    assert order[..n][k] == x;
  }


  /** What v has found agrees with what the earlier answers say of an ancestor x. */
  lemma FoundAncestor(c: Setting, s: Run, v: Id, seen: map<Id, Payload>, x: Id, answer: Option<Payload>)
    requires Ranked(c.g, c.rank) && Settled(c, s) && Saw(c, s, v, seen) && v in c.g && x in c.g
    requires Ancestor(c.g, x, v) && x != v && c.timing.Whenever?
    requires x in s.stations && s.stations[x].ended == [answer]
    ensures (x in seen <==> answer.Some?) && (x in seen ==> answer == Some(seen[x]))
  {
    hide Ranked, Settled, Saw, Sees, Ancestor;
    AncestorSeen(c.g, c.rank, v, x);
    SawAt(c, s, v, seen, x);
    SawKnown(c, s, v, seen);
    if answer.Some? {
      assert EndedWith(s, x, Some(answer.value));
    }
  }

  lemma AnswersInOrder(g: Deps, order: seq<Id>, n: nat, behave: Behaviour, user: Option<Payload>)
    requires Topological(g, order) && n < |order|
    ensures order[n] in g && Outputs(Answers(order, n, behave, user)).Keys <= g.Keys
    ensures forall x :: Ancestor(g, x, order[n]) ==> x in order[..n] && x != order[n]
    ensures order[n] in Answers(order, n + 1, behave, user)
    ensures Answers(order, n + 1, behave, user)[order[n]] == behave(order[n], Outputs(Answers(order, n, behave, user)), user)
  {
    AnswersKeys(order, n, behave, user);
    hide Ancestor;
    forall x | Ancestor(g, x, order[n]) ensures x in order[..n] && x != order[n] {
      AncestorBefore(g, order, n, x);
    }
  }

  lemma PlaceOf(g: Deps, order: seq<Id>, n: nat, x: Id) returns (k: nat)
    requires Topological(g, order) && n < |order| && x in order[..n]
    ensures k < n && order[k] == x && x in g && x in order[..k + 1]
  {
    k :| 0 <= k < n && order[..n][k] == x;
    assert order[..k + 1][k] == x;
  }

  lemma LocalAt(g: Deps, behave: Behaviour, v: Id, a: map<Id, Payload>, b: map<Id, Payload>, user: Option<Payload>)
    requires Local(g, behave) && v in g && SameBelow(g, v, a, b)
    ensures behave(v, a, user) == behave(v, b, user)
  {
  }

  lemma FoundEarlier(c: Setting, s: Run, order: seq<Id>, n: nat, k: nat, v: Id, seen: map<Id, Payload>, x: Id)
    requires Ranked(c.g, c.rank) && Settled(c, s) && Saw(c, s, v, seen) && v in c.g && x in c.g
    requires Ancestor(c.g, x, v) && x != v && c.timing.Whenever? && Distinct(order)
    requires k < n <= |order| && x in order[..k + 1] && x in s.stations && x in Answers(order, k + 1, c.behave, c.user)
    requires s.stations[x].ended == [Answers(order, k + 1, c.behave, c.user)[x]]
    ensures var before := Answers(order, n, c.behave, c.user);
      x in before && (x in seen <==> before[x].Some?) && (x in seen ==> before[x] == Some(seen[x]))
  {
    hide *;
    AnswersStay(order, k + 1, n, c.behave, c.user, x);
    FoundAncestor(c, s, v, seen, x, Answers(order, n, c.behave, c.user)[x]);
  }

  lemma {:induction false} AnswerIs(c: Setting, s: Run, order: seq<Id>, n: nat)
    requires Ranked(c.g, c.rank) && Settled(c, s) && c.timing.Whenever? && Local(c.g, c.behave)
    requires Topological(c.g, order) && n < |order|
    ensures order[n] in s.stations && order[n] in Answers(order, n + 1, c.behave, c.user)
    ensures s.stations[order[n]].ended == [Answers(order, n + 1, c.behave, c.user)[order[n]]]
    decreases n
  {
    var v, before := order[n], Answers(order, n, c.behave, c.user);
    assert Distinct(order);
    hide *;
    AnswersInOrder(c.g, order, n, c.behave, c.user);
    var seen := ExplainedBy(c, s, v);
    SawKnown(c, s, v, seen);
    forall x | x in c.g && Ancestor(c.g, x, v)
      ensures x in before && (x in seen <==> before[x].Some?) && (x in seen ==> before[x] == Some(seen[x]))
    {
      var k := PlaceOf(c.g, order, n, x);
      AnswerIs(c, s, order, k);
      FoundEarlier(c, s, order, n, k, v, seen, x);
    }
    MakeSameBelow(c.g, v, seen, before);
    LocalAt(c.g, c.behave, v, seen, Outputs(before), c.user);
  }

  lemma MakeSameBelow(g: Deps, v: Id, seen: map<Id, Payload>, before: Outcome)
    requires seen.Keys <= g.Keys && Outputs(before).Keys <= g.Keys
    requires forall x :: x in g && Ancestor(g, x, v) ==>
      x in before && (x in seen <==> before[x].Some?) && (x in seen ==> before[x] == Some(seen[x]))
    ensures SameBelow(g, v, seen, Outputs(before))
  {
    hide Ancestor;
  }

  /** Every step has ended as the outcome says. */
  ghost predicate EndsAs(g: Deps, s: Run, outcome: Outcome) {
    outcome.Keys == g.Keys && forall v :: v in g ==> v in s.stations && s.stations[v].ended == [outcome[v]]
  }

  lemma AnswerAt(c: Setting, s: Run, order: seq<Id>, v: Id)
    requires Ranked(c.g, c.rank) && Settled(c, s) && c.timing.Whenever? && Local(c.g, c.behave) && Topological(c.g, order)
    requires Distinct(order) && v in order
    ensures v in s.stations && v in Answers(order, |order|, c.behave, c.user)
    ensures s.stations[v].ended == [Answers(order, |order|, c.behave, c.user)[v]]
  {
    hide *;
    var k := PlaceOfLast(order, v);
    AnswerIs(c, s, order, k);
    AnswersStay(order, k + 1, |order|, c.behave, c.user, v);
  }

  lemma SettledAnswers(c: Setting, s: Run, order: seq<Id>)
    requires Ranked(c.g, c.rank) && Settled(c, s) && c.timing.Whenever? && Local(c.g, c.behave) && Topological(c.g, order)
    ensures EndsAs(c.g, s, Answers(order, |order|, c.behave, c.user))
  {
    var outcome := Answers(order, |order|, c.behave, c.user);
    hide *;
    AnswersAll(c.g, order, c.behave, c.user);
    forall v | v in c.g ensures v in s.stations && s.stations[v].ended == [outcome[v]] {
      AnswerAt(c, s, order, v);
    }
    MakeEndsAs(c.g, s, outcome);
  }

  lemma MakeEndsAs(g: Deps, s: Run, outcome: Outcome)
    requires outcome.Keys == g.Keys && forall v :: v in g ==> v in s.stations && s.stations[v].ended == [outcome[v]]
    ensures EndsAs(g, s, outcome)
  {
  }

  lemma AnswersAll(g: Deps, order: seq<Id>, behave: Behaviour, user: Option<Payload>)
    requires Topological(g, order)
    ensures Distinct(order) && Answers(order, |order|, behave, user).Keys == g.Keys
    ensures forall v :: v in g ==> v in order
  {
    AnswersKeys(order, |order|, behave, user);
    assert order[..|order|] == order;
    hide Answers, DepsFirst;
    assert forall x :: x in order <==> x in g;
  }

  lemma PlaceOfLast(order: seq<Id>, x: Id) returns (k: nat)
    requires x in order
    ensures k < |order| && order[k] == x && x in order[..k + 1]
  {
    k :| 0 <= k < |order| && order[k] == x;
    assert order[..k + 1][k] == x;
  }

  lemma EndsOutputs(g: Deps, s: Run, outcome: Outcome)
    requires EndsAs(g, s, outcome) && s.stations.Keys == g.Keys
    ensures FinalOutputs(s) == Outputs(outcome)
  {
  }

  /** However a run is interleaved, steps that read only what they wait for come to the results they would have come to by
      answering one after the other in any dependency order; and no message says anything else. */
  lemma ResultsAreAnswers(steps: seq<Step>, wf: Workflow, order: seq<Id>, input: M.Msg, behave: Behaviour, limit: nat,
                          acts: seq<Action>)
    requires T.Runnable(steps, wf, order) && Fresh(input) && Local(DepsOf(steps), behave)
    requires Completes(steps, wf, input, behave, limit, acts)
    ensures var s, outcome := Exec(PlanOf(steps, wf), input, acts), Answers(order, |order|, behave, input.userInput);
      && EndsAs(DepsOf(steps), s, outcome) && FinalOutputs(s) == Outputs(outcome)
      && forall m :: m in s.heap ==> M.MapsAgree(m.outputs, Outputs(outcome)) && m.outputs.Keys <= Outputs(outcome).Keys
  {
    hide *;
    T.RunnableParts(steps, wf, order);
    var rank := RanksExist(DepsOf(steps), order);
    var c, s := SettingOf(steps, wf, rank, Whenever, behave, input), Exec(PlanOf(steps, wf), input, acts);
    SettingAt(steps, wf, rank, Whenever, behave, input);
    AnyTime(c, input, acts);
    CompleteSettles(steps, wf, order, rank, Whenever, input, behave, limit, acts);
    SettledAnswers(c, s, order);
    SettledKeys(c, s);
    EndsOutputs(c.g, s, Answers(order, |order|, behave, input.userInput));
    HeapWithin(c, s);
  }

  lemma SettledKeys(c: Setting, s: Run)
    requires Ranked(c.g, c.rank) && Settled(c, s)
    ensures s.stations.Keys == c.g.Keys && HeapTrue(c, s) && T.AllEnded(c.g, s)
  {
  }

  lemma HeapWithin(c: Setting, s: Run)
    requires HeapTrue(c, s) && s.stations.Keys == c.g.Keys && T.AllEnded(c.g, s)
    ensures forall m :: m in s.heap ==> M.MapsAgree(m.outputs, FinalOutputs(s)) && m.outputs.Keys <= FinalOutputs(s).Keys
  {
    forall m, v | m in s.heap && v in m.outputs ensures v in FinalOutputs(s) && FinalOutputs(s)[v] == m.outputs[v] {
      assert OutputsTrue(s, m);
    }
  }

  /** So two complete runs of the same workflow give each step the same result, whatever the interleaving, as long as no
      step reads beyond what it waits for. */
  lemma ResultsDoNotDependOnSchedule(steps: seq<Step>, wf: Workflow, order: seq<Id>, behave: Behaviour)
    requires T.Runnable(steps, wf, order) && Local(DepsOf(steps), behave)
    ensures Confluent(steps, wf, behave)
  {
    forall input, limit, acts, limit', acts' |
      Fresh(input) && Completes(steps, wf, input, behave, limit, acts) && Completes(steps, wf, input, behave, limit', acts')
      ensures SameResults(DepsOf(steps), Exec(PlanOf(steps, wf), input, acts), Exec(PlanOf(steps, wf), input, acts'))
    {
      hide *;
      ResultsAreAnswers(steps, wf, order, input, behave, limit, acts);
      ResultsAreAnswers(steps, wf, order, input, behave, limit', acts');
      EndAlike(DepsOf(steps), Exec(PlanOf(steps, wf), input, acts), Exec(PlanOf(steps, wf), input, acts'),
               Answers(order, |order|, behave, input.userInput));
    }
  }

  lemma EndAlike(g: Deps, s: Run, s': Run, outcome: Outcome)
    requires EndsAs(g, s, outcome) && EndsAs(g, s', outcome) && FinalOutputs(s) == FinalOutputs(s')
    ensures SameResults(g, s, s')
  {
  }
}
