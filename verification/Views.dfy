/** What the messages of a run hold, and so what a step finds in them when it begins. */
module Views {
  import opened Wrappers
  import opened Graph
  import opened Sequences
  import opened Ranks
  import opened WorkflowBuild
  import opened Supersteps
  import opened RunOrder
  import opened MessageObjects
  import opened ObjectRuns
  import opened Behaviours
  import S = Sends
  import M = Messages

  /** When, among the steps of its rank, one step may run: before all others have begun, after, or at any time. */
  datatype Timing = Whenever | Early(step: Id) | Late(step: Id)

  /** What stays the same throughout a run. */
  datatype Setting = Setting(
    g: Deps,
    rank: map<Id, nat>,
    plan: Plan,
    timing: Timing,
    behave: Behaviour,
    user: Option<Payload>)

  /** w has ended before any other step of its rank begins. */
  predicate Surely(c: Setting, w: Id) {
    c.timing == Early(w)
  }

  /** w may have ended before another step of its rank begins. */
  predicate Possibly(c: Setting, w: Id) {
    c.timing != Late(w)
  }

  ghost predicate Others(c: Setting, s: Run, w: Id, x: Id) {
    w in c.rank && x in c.rank && x in s.stations && x != w && c.rank[x] == c.rank[w]
  }

  /** The run has kept to the timing so far. */
  ghost predicate Kept(c: Setting, s: Run) {
    match c.timing
    case Whenever => true
    case Early(w) => forall x :: Others(c, s, w, x) && s.stations[x].begun != [] ==> Ended(s, w)
    case Late(w) => forall x :: Others(c, s, w, x) && s.stations[x].begun == [] ==> !Ended(s, w)
  }

  ghost predicate Succeeded(s: Run, w: Id) {
    exists p :: EndedWith(s, w, Some(p))
  }

  // ----- What messages hold

  /** What a message says of outputs is so. */
  ghost predicate OutputsTrue(s: Run, m: M.Msg) {
    forall v :: v in m.outputs ==> EndedWith(s, v, Some(m.outputs[v]))
  }

  ghost predicate HeapTrue(c: Setting, s: Run) {
    forall i :: 0 <= i < |s.heap| ==> OutputsTrue(s, s.heap[i]) && s.heap[i].userInput == c.user
  }

  /** w's output belongs in the object of r. */
  ghost predicate BelongsTo(c: Setting, may: bool, r: Id, w: Id)
    requires Ranked(c.g, c.rank) && r in c.g && w in c.g
  {
    Root(c.g, c.rank, w) == r || Carried(c.g, c.rank, may, r, w)
  }

  /** Message m, the object of r, holds w's output if it must, and only if it can. */
  ghost predicate Holding(c: Setting, s: Run, m: M.Msg, r: Id, w: Id)
    requires Ranked(c.g, c.rank)
  {
    && r in c.g && w in c.g
    && (Succeeded(s, w) && BelongsTo(c, Surely(c, w), r, w) ==> w in m.outputs)
    && (w in m.outputs ==> BelongsTo(c, Possibly(c, w), r, w))
  }

  ghost predicate Filled(c: Setting, s: Run, at: Places)
    requires Ranked(c.g, c.rank)
  {
    forall r, w :: r in at && w in c.g ==> Holding(c, s, Read(s.heap, at[r]), r, w)
  }

  // ----- What steps have seen

  /** seen is what v can have found, as far as w is concerned. */
  ghost predicate SawOf(c: Setting, s: Run, v: Id, seen: map<Id, Payload>, w: Id)
    requires Ranked(c.g, c.rank)
  {
    && v in c.g && w in c.g
    && (Sees(c.g, c.rank, Surely(c, w), v, w) ==> Ended(s, w) && (Succeeded(s, w) ==> w in seen))
    && (w in seen ==> Sees(c.g, c.rank, Possibly(c, w), v, w))
  }

  ghost predicate Saw(c: Setting, s: Run, v: Id, seen: map<Id, Payload>)
    requires Ranked(c.g, c.rank)
  {
    && (forall w :: w in c.g ==> SawOf(c, s, v, seen, w))
    && (forall w :: w in seen ==> EndedWith(s, w, Some(seen[w])))
  }

  /** v's result is its answer to something it can have found. */
  ghost predicate Explained(c: Setting, s: Run, v: Id, result: Option<Payload>)
    requires Ranked(c.g, c.rank)
  {
    exists seen :: Saw(c, s, v, seen) && result == c.behave(v, seen, c.user)
  }

  ghost predicate StationSaw(c: Setting, s: Run, v: Id, st: Station)
    requires Ranked(c.g, c.rank)
  {
    && (forall i :: 0 <= i < |st.active| ==> Saw(c, s, v, st.active[i].seen) && st.active[i].user == c.user)
    && (forall i :: 0 <= i < |st.ended| ==> Explained(c, s, v, st.ended[i]))
  }

  ghost predicate AllSaw(c: Setting, s: Run)
    requires Ranked(c.g, c.rank)
  {
    forall v :: v in c.g ==> v in s.stations && StationSaw(c, s, v, s.stations[v])
  }

  /** Whatever has a rank below the superstep has ended. */
  ghost predicate Caught(c: Setting, s: Run) {
    forall v :: v in c.g && v in c.rank && c.rank[v] < s.superstep ==> Ended(s, v)
  }

  /** What every run keeps true. */
  ghost predicate Viewed(c: Setting, s: Run, at: Places)
    requires Ranked(c.g, c.rank)
  {
    && Inv(c.g, c.plan, c.rank, s) && ObjInv(c.g, c.rank, c.plan, s, at)
    && Caught(c, s) && HeapTrue(c, s) && Filled(c, s, at) && AllSaw(c, s)
  }

  // ----- Endings

  /** s' knows of the same endings as s, and of x's. */
  ghost predicate OneMoreEnding(s: Run, s': Run, x: Id, result: Option<Payload>) {
    forall v, r :: EndedWith(s', v, r) <==> EndedWith(s, v, r) || (v == x && r == result)
  }

  ghost predicate SameEndings(s: Run, s': Run) {
    forall v, r :: EndedWith(s', v, r) <==> EndedWith(s, v, r)
  }

  lemma EndedSomehow(s: Run, v: Id)
    ensures Ended(s, v) <==> exists r :: EndedWith(s, v, r)
  {
    if Ended(s, v) {
      assert EndedWith(s, v, s.stations[v].ended[0]);
    }
  }

  lemma FinishEnding(plan: Plan, s: Run, x: Id, k: nat, result: Option<Payload>)
    requires x in s.stations && k < |s.stations[x].active|
    ensures OneMoreEnding(s, DoFinish(plan, s, x, k, result), x, result)
    ensures DoFinish(plan, s, x, k, result).heap == Recorded(s, x, k, result).heap
  {
    hide Send, SendVia;
    S.SendKeeps(Recorded(s, x, k, result), plan.groups, x, s.stations[x].active[k].ref);
  }

  lemma QuietEndings(s: Run, x: Id, k: nat)
    ensures SameEndings(s, DoAdvance(s))
    ensures x in s.stations && k < |s.stations[x].now| ==> SameEndings(s, DoBegin(s, x, k))
  {
  }

  /** Nothing more is known of v's ending. */
  ghost predicate SameEnding(s: Run, s': Run, v: Id) {
    forall r :: EndedWith(s', v, r) <==> EndedWith(s, v, r)
  }

  lemma SameEnded(s: Run, s': Run, v: Id)
    requires SameEnding(s, s', v)
    ensures (Ended(s', v) <==> Ended(s, v)) && (Succeeded(s', v) <==> Succeeded(s, v))
  {
    EndedSomehow(s, v);
    EndedSomehow(s', v);
    hide EndedWith, Ended;
  }

  /** All endings so far stay, and a step that has ended ends in no other way. */
  ghost predicate Later(s: Run, s': Run) {
    && (forall v, r :: EndedWith(s, v, r) ==> EndedWith(s', v, r))
    && (forall v :: Ended(s, v) ==> SameEnding(s, s', v))
  }

  lemma SawOfLater(c: Setting, s: Run, s': Run, v: Id, seen: map<Id, Payload>, w: Id)
    requires Ranked(c.g, c.rank) && SawOf(c, s, v, seen, w) && Later(s, s')
    ensures SawOf(c, s', v, seen, w)
  {
    hide Sees, Ranked, EndedWith;
    if Ended(s, w) {
      SameEnded(s, s', w);
    }
  }

  lemma SawLater(c: Setting, s: Run, s': Run, v: Id, seen: map<Id, Payload>)
    requires Ranked(c.g, c.rank) && Saw(c, s, v, seen) && Later(s, s')
    ensures Saw(c, s', v, seen)
  {
    forall w | w in seen ensures EndedWith(s', w, Some(seen[w])) {}
    hide Ranked, SawOf, EndedWith, Later;
    forall w | w in c.g ensures SawOf(c, s', v, seen, w) {
      SawOfLater(c, s, s', v, seen, w);
    }
  }

  lemma ExplainedLater(c: Setting, s: Run, s': Run, v: Id, result: Option<Payload>)
    requires Ranked(c.g, c.rank) && Explained(c, s, v, result) && Later(s, s')
    ensures Explained(c, s', v, result)
  {
    hide Ranked, Saw, Later;
    var seen :| Saw(c, s, v, seen) && result == c.behave(v, seen, c.user);
    SawLater(c, s, s', v, seen);
  }

  lemma StationLater(c: Setting, s: Run, s': Run, v: Id, st: Station)
    requires Ranked(c.g, c.rank) && StationSaw(c, s, v, st) && Later(s, s')
    ensures StationSaw(c, s', v, st)
  {
    hide Ranked, Saw, Explained, Later;
    forall i | 0 <= i < |st.active| ensures Saw(c, s', v, st.active[i].seen) { SawLater(c, s, s', v, st.active[i].seen); }
    forall i | 0 <= i < |st.ended| ensures Explained(c, s', v, st.ended[i]) { ExplainedLater(c, s, s', v, st.ended[i]); }
  }

  lemma TrueLater(s: Run, s': Run, m: M.Msg)
    requires OutputsTrue(s, m) && Later(s, s')
    ensures OutputsTrue(s', m)
  {
    hide EndedWith, SameEnding;
  }

  // ----- Merging

  ghost predicate SomeHas(heap: seq<M.Msg>, refs: seq<Ref>, w: Id) {
    exists r :: r in refs && w in Read(heap, r).outputs
  }

  lemma ReadNext(heap: seq<M.Msg>, refs: seq<Ref>)
    requires refs != []
    ensures ReadAll(heap, refs) != [] && ReadAll(heap, refs)[..|refs| - 1] == ReadAll(heap, refs[..|refs| - 1])
    ensures ReadAll(heap, refs)[|refs| - 1] == Read(heap, refs[|refs| - 1])
  {
  }

  /** A merge has just the outputs that some of the messages have. */
  lemma {:induction false} MergedHas(heap: seq<M.Msg>, refs: seq<Ref>, w: Id)
    ensures w in M.Merge(ReadAll(heap, refs)).outputs <==> SomeHas(heap, refs, w)
  {
    if refs != [] {
      var n := |refs| - 1;
      MergedHas(heap, refs[..n], w);
      ReadNext(heap, refs);
      M.MergeNext(ReadAll(heap, refs));
      hide M.Merge, ReadAll, Read;
      assert refs == refs[..n] + [refs[n]];
    }
  }

  lemma {:induction false} MergedTrue(c: Setting, s: Run, ms: seq<M.Msg>)
    requires ms != [] && forall i :: 0 <= i < |ms| ==> OutputsTrue(s, ms[i]) && ms[i].userInput == c.user
    ensures OutputsTrue(s, M.Merge(ms)) && M.Merge(ms).userInput == c.user
  {
    hide EndedWith;
    var n := |ms| - 1;
    if n > 0 {
      MergedTrue(c, s, ms[..n]);
    } else {
      assert ms[..n] == [];
    }
  }

  // ----- Beginning

  lemma EndedNotLater(c: Setting, s: Run, w: Id)
    requires Inv(c.g, c.plan, c.rank, s) && Ended(s, w)
    ensures w in c.rank && w in c.g && c.rank[w] <= s.superstep
  {
  }

  lemma SuccessEnds(s: Run, w: Id)
    requires Succeeded(s, w)
    ensures Ended(s, w)
  {
  }

  lemma OutputEnds(s: Run, m: M.Msg, w: Id)
    requires OutputsTrue(s, m) && w in m.outputs
    ensures Ended(s, w)
  {
  }

  /** x waits to begin. */
  ghost predicate Begins(c: Setting, s: Run, x: Id) {
    && Inv(c.g, c.plan, c.rank, s) && x in c.g && x in s.stations && x in c.rank
    && c.rank[x] == s.superstep && s.stations[x].begun == [] && !Ended(s, x)
  }

  /** A step that has ended as x begins has a lower rank, or may end before others of its rank. */
  lemma EndedBefore(c: Setting, s: Run, x: Id, w: Id)
    requires Begins(c, s, x) && Kept(c, s) && Ended(s, w)
    ensures w in c.rank && w != x && Before(c.rank, Possibly(c, w), w, x)
  {
    EndedNotLater(c, s, w);
    if c.rank[w] == c.rank[x] && c.timing == Late(w) {
      assert Others(c, s, w, x);
    }
  }

  /** What surely ends before x begins has ended. */
  lemma BeforeEnded(c: Setting, s: Run, s': Run, x: Id, w: Id)
    requires Begins(c, s, x) && Caught(c, s) && Kept(c, s') && w in c.g && w in c.rank && w != x
    requires x in s'.stations && s'.stations[x].begun != [] && SameEnding(s, s', w)
    requires Before(c.rank, Surely(c, w), w, x)
    ensures Ended(s', w)
  {
    SameEnded(s, s', w);
    if c.rank[w] == c.rank[x] {
      assert Others(c, s', w, x);
    }
  }

  lemma HoldingSame(c: Setting, s: Run, s': Run, m: M.Msg, r: Id, w: Id)
    requires Ranked(c.g, c.rank) && Holding(c, s, m, r, w) && SameEnding(s, s', w)
    ensures Holding(c, s', m, r, w)
  {
    hide Ranked, BelongsTo;
    SameEnded(s, s', w);
  }

  lemma FilledAt(c: Setting, s: Run, at: Places, r: Id, w: Id)
    requires Ranked(c.g, c.rank) && Filled(c, s, at) && r in at && w in c.g
    ensures Holding(c, s, Read(s.heap, at[r]), r, w)
  {
  }

  /** What a join merges: lower bound. */
  lemma JoinGets(c: Setting, s: Run, at: Places, x: Id, refs: seq<Ref>, w: Id)
    requires Ranked(c.g, c.rank) && Filled(c, s, at) && GatheredAt(c.g, c.rank, at, x, refs) && w in c.g
    requires Succeeded(s, w) && Carried(c.g, c.rank, Surely(c, w), x, w)
    ensures SomeHas(s.heap, refs, w)
  {
    var d := CarriedVia(c, Surely(c, w), x, w);
    assert Among(c.g, c.rank, at, d, refs);
    var r := Root(c.g, c.rank, d);
    FilledAt(c, s, at, r, w);
    hide Filled, Carried, Root, Sole;
    assert at[r] in refs && w in Read(s.heap, at[r]).outputs;
  }

  lemma CarriedVia(c: Setting, may: bool, x: Id, w: Id) returns (d: Id)
    requires Ranked(c.g, c.rank) && x in c.g && w in c.g && Carried(c.g, c.rank, may, x, w)
    ensures Dep(c.g, x, d) && BelongsTo(c, may, Root(c.g, c.rank, d), w)
  {
    d :| Dep(c.g, x, d) && (Carried(c.g, c.rank, may, Root(c.g, c.rank, d), w) ||
                            (Root(c.g, c.rank, w) == Root(c.g, c.rank, d) && Before(c.rank, may, w, x)));
  }

  lemma CarriedOn(c: Setting, may: bool, x: Id, d: Id, w: Id)
    requires Ranked(c.g, c.rank) && w in c.g && Dep(c.g, x, d)
    requires BelongsTo(c, may, Root(c.g, c.rank, d), w) && Before(c.rank, may, w, x)
    ensures Carried(c.g, c.rank, may, x, w)
  {
  }

  /** What a join merges: upper bound. */
  lemma JoinGetsOnly(c: Setting, s: Run, at: Places, x: Id, refs: seq<Ref>, w: Id)
    requires Ranked(c.g, c.rank) && Filled(c, s, at) && HeapTrue(c, s) && GatheredAt(c.g, c.rank, at, x, refs)
    requires Placed(c.g, c.rank, c.plan, s, at) && Begins(c, s, x) && Kept(c, s) && SomeHas(s.heap, refs, w)
    ensures w in c.g && Ended(s, w) && Carried(c.g, c.rank, Possibly(c, w), x, w)
  {
    hide Ranked, Carried, Root, Sole, Begins, Kept, BelongsTo, Dep, Before;
    var ref :| ref in refs && w in Read(s.heap, ref).outputs;
    var d := DepOf(c, at, x, refs, ref);
    InHeap(c, s, ref, w);
    OutputEnds(s, s.heap[ref], w);
    EndedIn(c, s, x, w);
    FilledAt(c, s, at, Root(c.g, c.rank, d), w);
    EndedBefore(c, s, x, w);
    CarriedOn(c, Possibly(c, w), x, d, w);
  }

  lemma InHeap(c: Setting, s: Run, ref: Ref, w: Id)
    requires HeapTrue(c, s) && w in Read(s.heap, ref).outputs
    ensures ref < |s.heap| && OutputsTrue(s, s.heap[ref]) && Read(s.heap, ref) == s.heap[ref]
  {
  }

  lemma EndedIn(c: Setting, s: Run, x: Id, w: Id)
    requires Begins(c, s, x) && Ended(s, w)
    ensures w in c.g
  {
  }

  lemma DepOf(c: Setting, at: Places, x: Id, refs: seq<Ref>, ref: Ref) returns (d: Id)
    requires Ranked(c.g, c.rank) && GatheredAt(c.g, c.rank, at, x, refs) && ref in refs
    ensures Dep(c.g, x, d) && d in c.g && Root(c.g, c.rank, d) in at && at[Root(c.g, c.rank, d)] == ref
  {
    assert OfDep(c.g, c.rank, at, x, ref);
    d :| Dep(c.g, x, d) && WorksOn(c.g, c.rank, at, d, ref);
  }

  lemma RootLater(c: Setting, s: Run, x: Id, w: Id)
    requires Ranked(c.g, c.rank) && Begins(c, s, x) && w in c.g && Root(c.g, c.rank, w) == x
    ensures !Ended(s, w)
  {
    if Ended(s, w) {
      EndedNotLater(c, s, w);
    }
  }

  /** The new object of a join. */
  lemma JoinHolds(c: Setting, s: Run, at: Places, x: Id, refs: seq<Ref>, w: Id)
    requires Ranked(c.g, c.rank) && Filled(c, s, at) && HeapTrue(c, s) && GatheredAt(c.g, c.rank, at, x, refs)
    requires Placed(c.g, c.rank, c.plan, s, at) && Begins(c, s, x) && Kept(c, s) && w in c.g
    ensures Holding(c, s, M.Merge(ReadAll(s.heap, refs)), x, w)
  {
    assert x in c.g;
    hide *;
    MergedHas(s.heap, refs, w);
    if Succeeded(s, w) && BelongsTo(c, Surely(c, w), x, w) {
      SuccessEnds(s, w);
      NotRooted(c, s, Surely(c, w), x, w);
      JoinGets(c, s, at, x, refs, w);
    }
    if SomeHas(s.heap, refs, w) {
      JoinGetsOnly(c, s, at, x, refs, w);
    }
    MakeHolding(c, s, M.Merge(ReadAll(s.heap, refs)), x, w);
  }

  lemma NotRooted(c: Setting, s: Run, may: bool, x: Id, w: Id)
    requires Ranked(c.g, c.rank) && Begins(c, s, x) && w in c.g && Ended(s, w) && x in c.g && BelongsTo(c, may, x, w)
    ensures Carried(c.g, c.rank, may, x, w)
  {
    if Root(c.g, c.rank, w) == x {
      RootLater(c, s, x, w);
    }
  }

  lemma MakeHolding(c: Setting, s: Run, m: M.Msg, r: Id, w: Id)
    requires Ranked(c.g, c.rank) && r in c.g && w in c.g
    requires Succeeded(s, w) && BelongsTo(c, Surely(c, w), r, w) ==> w in m.outputs
    requires w in m.outputs ==> Carried(c.g, c.rank, Possibly(c, w), r, w)
    ensures Holding(c, s, m, r, w)
  {
  }

  /** x has begun, and nothing has ended. */
  ghost predicate Begun(c: Setting, s: Run, s': Run, x: Id) {
    Begins(c, s, x) && x in s'.stations && s'.stations[x].begun != [] && SameEndings(s, s')
  }

  lemma BegunSame(c: Setting, s: Run, s': Run, x: Id, w: Id)
    requires Begun(c, s, s', x)
    ensures Begins(c, s, x) && SameEnding(s, s', w) && x in s'.stations && s'.stations[x].begun != []
  {
  }

  lemma SeesParts(c: Setting, may: bool, v: Id, w: Id)
    requires Ranked(c.g, c.rank) && v in c.g && w in c.g && Sees(c.g, c.rank, may, v, w)
    ensures w != v && BelongsTo(c, may, Root(c.g, c.rank, v), w) && w in c.rank && v in c.rank && Before(c.rank, may, w, v)
  {
    SeenBefore(c.g, c.rank, may, v, w);
  }

  lemma SeesMade(c: Setting, may: bool, v: Id, w: Id)
    requires Ranked(c.g, c.rank) && v in c.g && w in c.g && w != v && Before(c.rank, may, w, v)
    requires BelongsTo(c, may, Root(c.g, c.rank, v), w)
    ensures Sees(c.g, c.rank, may, v, w)
  {
  }

  /** What a step finds when it begins. */
  lemma SawNew(c: Setting, s: Run, s': Run, x: Id, m: M.Msg, w: Id)
    requires Ranked(c.g, c.rank) && Begun(c, s, s', x) && Caught(c, s) && Kept(c, s) && Kept(c, s') && x in c.g
    requires Holding(c, s', m, Root(c.g, c.rank, x), w) && OutputsTrue(s', m)
    ensures SawOf(c, s', x, m.outputs, w)
  {
    assert w in c.g;
    hide Ranked, Begun, Begins, Caught, Kept, BelongsTo, Sees, Root, SameEnding, Before, OutputsTrue, Succeeded;
    BegunSame(c, s, s', x, w);
    if Sees(c.g, c.rank, Surely(c, w), x, w) {
      SeesParts(c, Surely(c, w), x, w);
      BeforeEnded(c, s, s', x, w);
    }
    if w in m.outputs {
      OutputEnds(s', m, w);
      SameEnded(s, s', w);
      EndedBefore(c, s, x, w);
      SeesMade(c, Possibly(c, w), x, w);
    }
  }

  lemma FilledMore(c: Setting, s: Run, s': Run, at: Places, x: Id, ref: Ref)
    requires Ranked(c.g, c.rank) && Filled(c, s, at) && Placed(c.g, c.rank, c.plan, s, at) && SameEndings(s, s')
    requires |s.heap| <= |s'.heap| && s'.heap[..|s.heap|] == s.heap
    requires forall w :: w in c.g ==> Holding(c, s', Read(s'.heap, ref), x, w)
    ensures Filled(c, s', at[x := ref])
  {
    hide Ranked, Holding, Root;
    forall r, w | r in at && r != x && w in c.g ensures Holding(c, s', Read(s'.heap, at[r]), r, w) {
      assert s'.heap[at[r]] == s'.heap[..|s.heap|][at[r]];
      HoldingSame(c, s, s', Read(s.heap, at[r]), r, w);
    }
  }

  lemma FilledStays(c: Setting, s: Run, s': Run, at: Places)
    requires Ranked(c.g, c.rank) && Filled(c, s, at) && SameEndings(s, s') && s'.heap == s.heap
    ensures Filled(c, s', at)
  {
    hide Ranked, Holding, Root;
    forall r, w | r in at && w in c.g ensures Holding(c, s', Read(s'.heap, at[r]), r, w) {
      HoldingSame(c, s, s', Read(s.heap, at[r]), r, w);
    }
  }

  lemma JoinHoldsAfter(c: Setting, s: Run, s': Run, at: Places, x: Id, refs: seq<Ref>)
    requires Ranked(c.g, c.rank) && Filled(c, s, at) && HeapTrue(c, s) && GatheredAt(c.g, c.rank, at, x, refs)
    requires Placed(c.g, c.rank, c.plan, s, at) && Begins(c, s, x) && Kept(c, s) && SameEndings(s, s')
    ensures forall w :: w in c.g ==> Holding(c, s', M.Merge(ReadAll(s.heap, refs)), x, w)
  {
    forall w | w in c.g ensures Holding(c, s', M.Merge(ReadAll(s.heap, refs)), x, w) {
      assert SameEnding(s, s', w);
      hide *;
      JoinHolds(c, s, at, x, refs, w);
      HoldingSame(c, s, s', M.Merge(ReadAll(s.heap, refs)), x, w);
    }
  }

  lemma MergedHeapTrue(c: Setting, s: Run, at: Places, x: Id, refs: seq<Ref>)
    requires Ranked(c.g, c.rank) && HeapTrue(c, s) && Placed(c.g, c.rank, c.plan, s, at)
    requires refs != [] && GatheredAt(c.g, c.rank, at, x, refs)
    ensures OutputsTrue(s, M.Merge(ReadAll(s.heap, refs))) && M.Merge(ReadAll(s.heap, refs)).userInput == c.user
  {
    var ms := ReadAll(s.heap, refs);
    forall i | 0 <= i < |ms| ensures OutputsTrue(s, ms[i]) && ms[i].userInput == c.user {
      var d := DepOf(c, at, x, refs, refs[i]);
      hide Ranked, OutputsTrue, Root, GatheredAt;
    }
    hide Ranked, Placed, GatheredAt;
    MergedTrue(c, s, ms);
  }

  lemma HeapTrueMore(c: Setting, s: Run, s': Run, m: M.Msg)
    requires HeapTrue(c, s) && Later(s, s') && OutputsTrue(s, m) && m.userInput == c.user
    requires s'.heap == s.heap || s'.heap == s.heap + [m]
    ensures HeapTrue(c, s')
  {
    hide OutputsTrue, Later;
    TrueLater(s, s', m);
    forall i | 0 <= i < |s'.heap| ensures OutputsTrue(s', s'.heap[i]) && s'.heap[i].userInput == c.user {
      if i < |s.heap| {
        TrueLater(s, s', s.heap[i]);
      }
    }
  }

  lemma HeapTrueStays(c: Setting, s: Run, s': Run)
    requires HeapTrue(c, s) && Later(s, s') && s'.heap == s.heap
    ensures HeapTrue(c, s')
  {
    hide OutputsTrue, Later;
    forall i | 0 <= i < |s'.heap| ensures OutputsTrue(s', s'.heap[i]) { TrueLater(s, s', s.heap[i]); }
  }

  lemma BeginMessages(c: Setting, s: Run, at: Places, x: Id, k: nat)
    requires Ranked(c.g, c.rank) && Filled(c, s, at) && HeapTrue(c, s) && Placed(c.g, c.rank, c.plan, s, at)
    requires x in s.stations && k < |s.stations[x].now| && BatchAt(c.g, c.rank, at, x, s.stations[x].now[k])
    requires Begins(c, s, x) && Kept(c, s)
    ensures Filled(c, DoBegin(s, x, k), PlacesAfter(s, x, k, at)) && HeapTrue(c, DoBegin(s, x, k))
  {
    hide *;
    var s' := DoBegin(s, x, k);
    BeginShape(s, x, k);
    QuietEndings(s, x, k);
    QuietLater(s, s');
    if s.stations[x].now[k].One? {
      PlacesOne(s, x, k, at);
      FilledStays(c, s, s', at);
      HeapTrueStays(c, s, s');
    } else {
      var refs := s.stations[x].now[k].refs;
      var m := M.Merge(ReadAll(s.heap, refs));
      PlacesJoin(c, s, x, k, at);
      MergedHeapTrue(c, s, at, x, refs);
      HeapTrueMore(c, s, s', m);
      JoinHoldsAfter(c, s, s', at, x, refs);
      NewRead(s, s', m);
      FilledMore(c, s, s', at, x, |s.heap|);
    }
  }

  lemma NewRead(s: Run, s': Run, m: M.Msg)
    requires s'.heap == s.heap + [m]
    ensures Read(s'.heap, |s.heap|) == m && s'.heap[..|s.heap|] == s.heap
  {
  }

  lemma QuietLater(s: Run, s': Run)
    requires SameEndings(s, s')
    ensures Later(s, s')
  {
  }

  lemma PlacesOne(s: Run, x: Id, k: nat, at: Places)
    requires x in s.stations && k < |s.stations[x].now| && s.stations[x].now[k].One?
    ensures PlacesAfter(s, x, k, at) == at
  {
  }

  lemma PlacesJoin(c: Setting, s: Run, x: Id, k: nat, at: Places)
    requires Ranked(c.g, c.rank) && x in s.stations && k < |s.stations[x].now| && s.stations[x].now[k].Gathered?
    requires BatchAt(c.g, c.rank, at, x, s.stations[x].now[k])
    ensures PlacesAfter(s, x, k, at) == at[x := |s.heap|]
    ensures s.stations[x].now[k].refs != [] && GatheredAt(c.g, c.rank, at, x, s.stations[x].now[k].refs)
  {
  }

  lemma SawBegun(c: Setting, s: Run, s': Run, at': Places, x: Id, ref: Ref)
    requires Ranked(c.g, c.rank) && Begun(c, s, s', x) && Caught(c, s) && Kept(c, s) && Kept(c, s') && x in c.g
    requires Filled(c, s', at') && HeapTrue(c, s') && WorksOn(c.g, c.rank, at', x, ref) && ref < |s'.heap|
    ensures Saw(c, s', x, Read(s'.heap, ref).outputs) && Read(s'.heap, ref).userInput == c.user
  {
    var m := Read(s'.heap, ref);
    assert OutputsTrue(s', m);
    forall w | w in c.g ensures SawOf(c, s', x, m.outputs, w) {
      FilledAt(c, s', at', Root(c.g, c.rank, x), w);
      hide *;
      WorksOnRoot(c, at', x, ref);
      SawNew(c, s, s', x, m, w);
    }
    hide Ranked, Begun, Caught, Kept, Filled, SawOf, Root;
  }

  lemma WorksOnRoot(c: Setting, at: Places, x: Id, ref: Ref)
    requires Ranked(c.g, c.rank) && x in c.g && WorksOn(c.g, c.rank, at, x, ref)
    ensures Root(c.g, c.rank, x) in at && at[Root(c.g, c.rank, x)] == ref
  {
  }

  lemma BeginSawStation(c: Setting, s: Run, v: Id, st: Station, st': Station)
    requires Ranked(c.g, c.rank) && StationSaw(c, s, v, st) && st'.ended == st.ended
    requires |st'.active| == |st.active| + 1 && st'.active[..|st.active|] == st.active
    requires Saw(c, s, v, st'.active[|st.active|].seen) && st'.active[|st.active|].user == c.user
    ensures StationSaw(c, s, v, st')
  {
    hide Ranked, Saw, Explained;
    forall i | 0 <= i < |st'.active| ensures Saw(c, s, v, st'.active[i].seen) && st'.active[i].user == c.user {
      if i < |st.active| {
        assert st'.active[i] == st'.active[..|st.active|][i];
      }
    }
  }

  lemma AllSawAt(c: Setting, s: Run, v: Id)
    requires Ranked(c.g, c.rank) && AllSaw(c, s) && v in c.g
    ensures v in s.stations && StationSaw(c, s, v, s.stations[v])
  {
  }

  lemma MakeAllSaw(c: Setting, s: Run)
    requires Ranked(c.g, c.rank) && forall v :: v in c.g ==> v in s.stations && StationSaw(c, s, v, s.stations[v])
    ensures AllSaw(c, s)
  {
  }

  lemma ViewedParts(c: Setting, s: Run, at: Places)
    requires Ranked(c.g, c.rank) && Viewed(c, s, at)
    ensures Inv(c.g, c.plan, c.rank, s) && ObjInv(c.g, c.rank, c.plan, s, at)
    ensures Caught(c, s) && HeapTrue(c, s) && Filled(c, s, at) && AllSaw(c, s)
  {
  }

  lemma MakeViewed(c: Setting, s: Run, at: Places)
    requires Ranked(c.g, c.rank) && Inv(c.g, c.plan, c.rank, s) && ObjInv(c.g, c.rank, c.plan, s, at)
    requires Caught(c, s) && HeapTrue(c, s) && Filled(c, s, at) && AllSaw(c, s)
    ensures Viewed(c, s, at)
  {
  }

  lemma CaughtStays(c: Setting, s: Run, s': Run)
    requires Caught(c, s) && Later(s, s') && s'.superstep == s.superstep
    ensures Caught(c, s')
  {
    forall v | v in c.g && v in c.rank && c.rank[v] < s.superstep ensures Ended(s', v) {
      SameEnded(s, s', v);
    }
  }

  lemma MakeBegins(c: Setting, s: Run, x: Id)
    requires Inv(c.g, c.plan, c.rank, s) && x in c.g && x in s.stations && s.stations[x].now != []
    ensures Begins(c, s, x)
  {
    InvAt(c.g, c.plan, c.rank, s, x);
    hide Inv;
  }

  lemma MakeBegun(c: Setting, s: Run, x: Id, k: nat)
    requires Begins(c, s, x) && x in s.stations && k < |s.stations[x].now|
    ensures Begun(c, s, DoBegin(s, x, k), x)
  {
    QuietEndings(s, x, k);
    hide Begins;
  }

  lemma PlacedRef(c: Setting, s: Run, at: Places, x: Id, ref: Ref)
    requires Ranked(c.g, c.rank) && Placed(c.g, c.rank, c.plan, s, at) && WorksOn(c.g, c.rank, at, x, ref)
    ensures ref < |s.heap|
  {
    hide Ranked;
  }

  lemma SawAfterBegin(c: Setting, s: Run, x: Id, k: nat)
    requires x in c.g && x in s.stations && k < |s.stations[x].now|
    requires Ranked(c.g, c.rank) && AllSaw(c, s) && Later(s, DoBegin(s, x, k))
    requires Saw(c, DoBegin(s, x, k), x, Read(DoBegin(s, x, k).heap, WorkRef(s, x, k)).outputs)
    requires Read(DoBegin(s, x, k).heap, WorkRef(s, x, k)).userInput == c.user
    ensures AllSaw(c, DoBegin(s, x, k))
  {
    hide *;
    var s' := DoBegin(s, x, k);
    BeginShape(s, x, k);
    forall v | v in c.g ensures v in s'.stations && StationSaw(c, s', v, s'.stations[v]) {
      AllSawAt(c, s, v);
      StationLater(c, s, s', v, s.stations[v]);
      if v == x {
        BeginSawStation(c, s', x, s.stations[x], s'.stations[x]);
      }
    }
    MakeAllSaw(c, s');
  }

  lemma SeenAtBegin(c: Setting, s: Run, at: Places, x: Id, k: nat)
    requires Ranked(c.g, c.rank) && Delivers(c.g, c.plan) && Filled(c, s, at) && HeapTrue(c, s) && Caught(c, s)
    requires x in c.g && x in s.stations && k < |s.stations[x].now|
    requires Placed(c.g, c.rank, c.plan, s, at) && Begins(c, s, x) && Kept(c, s) && Kept(c, DoBegin(s, x, k))
    requires BatchAt(c.g, c.rank, at, x, s.stations[x].now[k])
    requires Placed(c.g, c.rank, c.plan, DoBegin(s, x, k), PlacesAfter(s, x, k, at))
    ensures Filled(c, DoBegin(s, x, k), PlacesAfter(s, x, k, at)) && HeapTrue(c, DoBegin(s, x, k))
    ensures Saw(c, DoBegin(s, x, k), x, Read(DoBegin(s, x, k).heap, WorkRef(s, x, k)).outputs)
    ensures Read(DoBegin(s, x, k).heap, WorkRef(s, x, k)).userInput == c.user
  {
    hide *;
    var s', at' := DoBegin(s, x, k), PlacesAfter(s, x, k, at);
    MakeBegun(c, s, x, k);
    BeginMessages(c, s, at, x, k);
    NewWork(c, s, at, x, k);
    PlacedRef(c, s', at', x, WorkRef(s, x, k));
    SawBegun(c, s, s', at', x, WorkRef(s, x, k));
  }

  lemma BeginsAt(c: Setting, s: Run, at: Places, x: Id, k: nat)
    requires Ranked(c.g, c.rank) && Delivers(c.g, c.plan) && Viewed(c, s, at)
    requires x in c.g && x in s.stations && k < |s.stations[x].now|
    ensures Placed(c.g, c.rank, c.plan, s, at) && Begins(c, s, x) && BatchAt(c.g, c.rank, at, x, s.stations[x].now[k])
    ensures ObjInv(c.g, c.rank, c.plan, DoBegin(s, x, k), PlacesAfter(s, x, k, at))
    ensures Placed(c.g, c.rank, c.plan, DoBegin(s, x, k), PlacesAfter(s, x, k, at))
    ensures Later(s, DoBegin(s, x, k)) && DoBegin(s, x, k).superstep == s.superstep
  {
    hide *;
    ViewedParts(c, s, at);
    BeginObj(c.g, c.rank, c.plan, s, at, x, k);
    ObjParts(c.g, c.rank, c.plan, s, at);
    ObjParts(c.g, c.rank, c.plan, DoBegin(s, x, k), PlacesAfter(s, x, k, at));
    ObjAt(c.g, c.rank, c.plan, s, at, x);
    BatchOf(c.g, c.rank, at, x, s.stations[x], k);
    MakeBegins(c, s, x);
    QuietEndings(s, x, k);
    QuietLater(s, DoBegin(s, x, k));
    SameSuperstep(s, x, k);
  }

  lemma SameSuperstep(s: Run, x: Id, k: nat)
    requires x in s.stations && k < |s.stations[x].now|
    ensures DoBegin(s, x, k).superstep == s.superstep
  {
  }

  lemma BeginViewed(c: Setting, s: Run, at: Places, x: Id, k: nat)
    requires x in c.g && x in s.stations && k < |s.stations[x].now|
    requires Ranked(c.g, c.rank) && Delivers(c.g, c.plan) && Viewed(c, s, at) && Kept(c, s) && Kept(c, DoBegin(s, x, k))
    ensures Viewed(c, DoBegin(s, x, k), PlacesAfter(s, x, k, at))
  {
    hide *;
    ViewedParts(c, s, at);
    BeginInv(c.g, c.plan, c.rank, s, x, k);
    BeginsAt(c, s, at, x, k);
    SeenAtBegin(c, s, at, x, k);
    CaughtStays(c, s, DoBegin(s, x, k));
    SawAfterBegin(c, s, x, k);
    MakeViewed(c, DoBegin(s, x, k), PlacesAfter(s, x, k, at));
  }

  lemma NewWork(c: Setting, s: Run, at: Places, x: Id, k: nat)
    requires Ranked(c.g, c.rank) && Delivers(c.g, c.plan) && Placed(c.g, c.rank, c.plan, s, at) && Begins(c, s, x)
    requires x in s.stations && k < |s.stations[x].now| && BatchAt(c.g, c.rank, at, x, s.stations[x].now[k])
    ensures WorksOn(c.g, c.rank, PlacesAfter(s, x, k, at), x, WorkRef(s, x, k))
  {
    hide Ranked, Delivers, Placed, BatchAt, WorksOn, PlacesAfter, Inv;
    PlacedAfter(c.g, c.rank, c.plan, s, at, x, k);
  }

  // ----- Finishing

  /** x is at work, and comes to its result. */
  ghost predicate Ends(c: Setting, s: Run, s': Run, x: Id, result: Option<Payload>) {
    && Inv(c.g, c.plan, c.rank, s) && x in c.g && x in s.stations && x in c.rank && c.rank[x] == s.superstep
    && !Ended(s, x) && OneMoreEnding(s, s', x, result)
  }

  lemma MakeEnds(c: Setting, s: Run, x: Id, k: nat, result: Option<Payload>)
    requires Inv(c.g, c.plan, c.rank, s) && x in c.g && x in s.stations && k < |s.stations[x].active|
    ensures Ends(c, s, DoFinish(c.plan, s, x, k, result), x, result)
  {
    FinishEnding(c.plan, s, x, k, result);
    InvAt(c.g, c.plan, c.rank, s, x);
    hide Inv, OneMoreEnding, DoFinish;
  }

  lemma EndsLater(c: Setting, s: Run, s': Run, x: Id, result: Option<Payload>)
    requires Ends(c, s, s', x, result)
    ensures Later(s, s') && forall w :: w != x ==> SameEnding(s, s', w)
  {
    hide Inv;
  }

  /** Every object there is belongs to the start or to a step that has begun. */
  lemma PlacedRank(c: Setting, s: Run, at: Places, r: Id)
    requires Ranked(c.g, c.rank) && Placed(c.g, c.rank, c.plan, s, at) && Inv(c.g, c.plan, c.rank, s) && r in at
    ensures r in c.g && r in c.rank && Root(c.g, c.rank, r) == r && !Sole(c.g, r)
    ensures r == c.plan.start || (r in s.stations && s.stations[r].begun != [] && c.rank[r] <= s.superstep)
  {
    if r != c.plan.start {
      InvAt(c.g, c.plan, c.rank, s, r);
    }
    hide Inv, Ranked, Sole;
  }

  lemma StartCarriesNothing(c: Setting, may: bool, w: Id)
    requires Ranked(c.g, c.rank) && Delivers(c.g, c.plan) && c.plan.start in c.g && w in c.g
    ensures !Carried(c.g, c.rank, may, c.plan.start, w)
  {
    hide GathersAll, Reached;
  }

  /** No join that has begun must carry the output of a step that only now comes to its result. */
  lemma NotCarriedYet(c: Setting, s: Run, s': Run, at: Places, x: Id, result: Option<Payload>, r: Id)
    requires Ranked(c.g, c.rank) && Delivers(c.g, c.plan) && Placed(c.g, c.rank, c.plan, s, at)
    requires Ends(c, s, s', x, result) && Kept(c, s) && r in at && x in c.g && r in c.g
    ensures !Carried(c.g, c.rank, Surely(c, x), r, x)
  {
    PlacedRank(c, s, at, r);
    hide Ranked, Delivers, Placed, Inv, Sole, Root, Carried, OneMoreEnding;
    StartCarriesNothing(c, Surely(c, x), x);
    if Others(c, s, x, r) && s.stations[r].begun != [] {
      assert !Surely(c, x);
    }
    if Carried(c.g, c.rank, Surely(c, x), r, x) {
      CarriedBefore(c.g, c.rank, Surely(c, x), r, x);
      if r == x {
        NotOwn(c.g, c.rank, Surely(c, x), x);
      }
    }
  }

  lemma OwnSuccess(c: Setting, s: Run, s': Run, x: Id, result: Option<Payload>)
    requires Ends(c, s, s', x, result)
    ensures (Succeeded(s', x) <==> result.Some?) && !Ended(s, x)
  {
    EndedSomehow(s, x);
    if result.Some? {
      assert EndedWith(s', x, Some(result.value));
    }
    hide EndedWith, Inv, Ended;
  }

  lemma UnendedSilent(s: Run, m: M.Msg, x: Id)
    requires OutputsTrue(s, m) && !Ended(s, x)
    ensures x !in m.outputs
  {
    if x in m.outputs {
      OutputEnds(s, m, x);
    }
  }

  lemma HoldingOwn(c: Setting, s: Run, s': Run, at: Places, x: Id, result: Option<Payload>, r: Id, m: M.Msg, m': M.Msg)
    requires Ranked(c.g, c.rank) && Delivers(c.g, c.plan) && Placed(c.g, c.rank, c.plan, s, at)
    requires Ends(c, s, s', x, result) && Kept(c, s) && r in at && x in c.g && r in c.g && OutputsTrue(s, m)
    requires m' == if r == Root(c.g, c.rank, x) then M.WithResult(m, x, result) else m
    ensures Holding(c, s', m', r, x)
  {
    NotCarriedYet(c, s, s', at, x, result, r);
    OwnSuccess(c, s, s', x, result);
    UnendedSilent(s, m, x);
    hide Ranked, Delivers, Placed, Ends, Ended, Root, Carried, Kept, Surely, Possibly, OutputsTrue, Succeeded;
  }

  lemma HoldingOther(c: Setting, s: Run, s': Run, m: M.Msg, m': M.Msg, x: Id, result: Option<Payload>, r: Id, w: Id)
    requires Ranked(c.g, c.rank) && Holding(c, s, m, r, w) && SameEnding(s, s', w) && w != x
    requires m' == m || m' == M.WithResult(m, x, result)
    ensures Holding(c, s', m', r, w)
  {
    hide Ranked, BelongsTo;
    SameEnded(s, s', w);
  }

  lemma RecordedHeap(s: Run, x: Id, k: nat, result: Option<Payload>)
    requires x in s.stations && k < |s.stations[x].active| && s.stations[x].active[k].ref < |s.heap|
    ensures Recorded(s, x, k, result).heap ==
      s.heap[s.stations[x].active[k].ref := M.WithResult(s.heap[s.stations[x].active[k].ref], x, result)]
  {
  }

  /** ref is the object of x, and now holds its result. */
  ghost predicate Written(s: Run, s': Run, x: Id, ref: Ref, result: Option<Payload>) {
    ref < |s.heap| && s'.heap == s.heap[ref := M.WithResult(s.heap[ref], x, result)]
  }

  lemma ObjectOf(c: Setting, s: Run, at: Places, x: Id, ref: Ref, r: Id)
    requires Ranked(c.g, c.rank) && Placed(c.g, c.rank, c.plan, s, at) && WorksOn(c.g, c.rank, at, x, ref) && r in at
    ensures x in c.g && r in c.g && at[r] < |s.heap| && (at[r] == ref <==> r == Root(c.g, c.rank, x))
  {
    hide Ranked, Root;
  }

  lemma FinishFilledAt(c: Setting, s: Run, s': Run, at: Places, x: Id, ref: Ref, result: Option<Payload>, r: Id, w: Id)
    requires Ranked(c.g, c.rank) && Delivers(c.g, c.plan) && Placed(c.g, c.rank, c.plan, s, at) && Filled(c, s, at)
    requires HeapTrue(c, s) && Ends(c, s, s', x, result) && Kept(c, s) && WorksOn(c.g, c.rank, at, x, ref)
    requires Written(s, s', x, ref, result) && r in at && w in c.g
    ensures Holding(c, s', Read(s'.heap, at[r]), r, w)
  {
    ObjectOf(c, s, at, x, ref, r);
    EndsLater(c, s, s', x, result);
    FilledAt(c, s, at, r, w);
    assert OutputsTrue(s, s.heap[at[r]]);
    hide Ranked, Delivers, Placed, Filled, HeapTrue, Ends, Kept, WorksOn, Holding, Root, OutputsTrue, SameEnding;
    var m, m' := Read(s.heap, at[r]), Read(s'.heap, at[r]);
    if w == x {
      HoldingOwn(c, s, s', at, x, result, r, m, m');
    } else {
      HoldingOther(c, s, s', m, m', x, result, r, w);
    }
  }

  lemma WrittenTrue(c: Setting, s: Run, s': Run, x: Id, ref: Ref, result: Option<Payload>)
    requires HeapTrue(c, s) && Ends(c, s, s', x, result) && Written(s, s', x, ref, result)
    ensures HeapTrue(c, s')
  {
    EndsLater(c, s, s', x, result);
    assert EndedWith(s', x, result);
    hide Ends, Later, EndedWith;
    forall i | 0 <= i < |s'.heap| ensures OutputsTrue(s', s'.heap[i]) && s'.heap[i].userInput == c.user {
      TrueLater(s, s', s.heap[i]);
    }
  }

  /** Once x has sent, only its own station has changed in what is at work or over. */
  lemma FinishShape(plan: Plan, s: Run, x: Id, k: nat, result: Option<Payload>)
    requires x in s.stations && k < |s.stations[x].active|
    ensures var s', st := DoFinish(plan, s, x, k, result), s.stations[x];
      && s'.stations.Keys == s.stations.Keys && s'.superstep == s.superstep
      && s'.stations[x].active == Without(st.active, k) && s'.stations[x].ended == st.ended + [result]
      && (forall v :: v in s.stations ==> s'.stations[v].begun == s.stations[v].begun)
      && (forall v :: v in s.stations && v != x ==>
            s'.stations[v].active == s.stations[v].active && s'.stations[v].ended == s.stations[v].ended)
  {
    hide Send;
    S.SendKeeps(Recorded(s, x, k, result), plan.groups, x, s.stations[x].active[k].ref);
  }

  lemma StationAlike(c: Setting, s: Run, v: Id, st: Station, st': Station)
    requires Ranked(c.g, c.rank) && StationSaw(c, s, v, st) && st'.active == st.active && st'.ended == st.ended
    ensures StationSaw(c, s, v, st')
  {
  }

  lemma StationDone(c: Setting, s: Run, v: Id, st: Station, st': Station, k: nat)
    requires Ranked(c.g, c.rank) && StationSaw(c, s, v, st) && k < |st.active|
    requires st'.active == Without(st.active, k)
    requires st'.ended == st.ended + [c.behave(v, st.active[k].seen, st.active[k].user)]
    ensures StationSaw(c, s, v, st')
  {
    hide Ranked, Saw;
    forall i | 0 <= i < |st'.active| ensures Saw(c, s, v, st'.active[i].seen) && st'.active[i].user == c.user {
      assert st'.active[i] == st.active[if i < k then i else i + 1];
    }
    assert Saw(c, s, v, st.active[k].seen);
  }

  lemma FinishSaw(c: Setting, s: Run, x: Id, k: nat, result: Option<Payload>)
    requires x in c.g && x in s.stations && k < |s.stations[x].active|
    requires Ranked(c.g, c.rank) && AllSaw(c, s) && Later(s, DoFinish(c.plan, s, x, k, result))
    requires result == c.behave(x, s.stations[x].active[k].seen, s.stations[x].active[k].user)
    ensures AllSaw(c, DoFinish(c.plan, s, x, k, result))
  {
    hide *;
    var s' := DoFinish(c.plan, s, x, k, result);
    FinishShape(c.plan, s, x, k, result);
    forall v | v in c.g ensures v in s'.stations && StationSaw(c, s', v, s'.stations[v]) {
      AllSawAt(c, s, v);
      StationLater(c, s, s', v, s.stations[v]);
      if v == x {
        StationDone(c, s', x, s.stations[x], s'.stations[x], k);
      } else {
        StationAlike(c, s', v, s.stations[v], s'.stations[v]);
      }
    }
    MakeAllSaw(c, s');
  }

  lemma FinishWritten(c: Setting, s: Run, at: Places, x: Id, k: nat, result: Option<Payload>)
    requires Ranked(c.g, c.rank) && Placed(c.g, c.rank, c.plan, s, at)
    requires x in s.stations && k < |s.stations[x].active|
    requires WorksOn(c.g, c.rank, at, x, s.stations[x].active[k].ref)
    ensures Written(s, DoFinish(c.plan, s, x, k, result), x, s.stations[x].active[k].ref, result)
  {
    PlacedRef(c, s, at, x, s.stations[x].active[k].ref);
    FinishEnding(c.plan, s, x, k, result);
    hide Ranked, DoFinish, Recorded;
    RecordedHeap(s, x, k, result);
  }

  lemma FinishMessages(c: Setting, s: Run, s': Run, at: Places, x: Id, ref: Ref, result: Option<Payload>)
    requires Ranked(c.g, c.rank) && Delivers(c.g, c.plan) && Placed(c.g, c.rank, c.plan, s, at) && Filled(c, s, at)
    requires HeapTrue(c, s) && Ends(c, s, s', x, result) && Kept(c, s) && WorksOn(c.g, c.rank, at, x, ref)
    requires Written(s, s', x, ref, result)
    ensures Filled(c, s', at) && HeapTrue(c, s')
  {
    WrittenTrue(c, s, s', x, ref, result);
    forall r, w | r in at && w in c.g ensures Holding(c, s', Read(s'.heap, at[r]), r, w) {
      hide *;
      FinishFilledAt(c, s, s', at, x, ref, result, r, w);
    }
  }

  lemma FinishViewed(c: Setting, s: Run, at: Places, x: Id, k: nat, result: Option<Payload>)
    requires Ranked(c.g, c.rank) && Delivers(c.g, c.plan) && SolesPlain(c.g, c.plan) && Viewed(c, s, at) && Kept(c, s)
    requires x in c.g && x in s.stations && k < |s.stations[x].active|
    requires result == c.behave(x, s.stations[x].active[k].seen, s.stations[x].active[k].user)
    ensures Viewed(c, DoFinish(c.plan, s, x, k, result), at)
  {
    hide *;
    var s' := DoFinish(c.plan, s, x, k, result);
    ViewedParts(c, s, at);
    ObjParts(c.g, c.rank, c.plan, s, at);
    FinishInv(c.g, c.plan, c.rank, s, x, k, result);
    FinishObj(c.g, c.rank, c.plan, s, at, x, k, result);
    MakeEnds(c, s, x, k, result);
    EndsLater(c, s, s', x, result);
    FinishWritten(c, s, at, x, k, result);
    FinishMessages(c, s, s', at, x, s.stations[x].active[k].ref, result);
    FinishSuperstep(c.plan, s, x, k, result);
    CaughtStays(c, s, s');
    FinishSaw(c, s, x, k, result);
    MakeViewed(c, s', at);
  }

  lemma FinishSuperstep(plan: Plan, s: Run, x: Id, k: nat, result: Option<Payload>)
    requires x in s.stations && k < |s.stations[x].active|
    ensures DoFinish(plan, s, x, k, result).superstep == s.superstep
  {
    FinishShape(plan, s, x, k, result);
  }

  // ----- Whole runs

  /** When nothing of this superstep is left, whatever has its rank has ended. */
  lemma AllOfRankEnded(c: Setting, s: Run, v: Id)
    requires Ranked(c.g, c.rank) && Inv(c.g, c.plan, c.rank, s) && Caught(c, s)
    requires v in c.g && v in s.stations && Resting(s.stations[v]) && v in c.rank && c.rank[v] <= s.superstep
    ensures Ended(s, v)
  {
    InvAt(c.g, c.plan, c.rank, s, v);
    hide Inv;
    assert Ready(c.g, s, v);
  }

  lemma CaughtAfter(c: Setting, s: Run)
    requires Ranked(c.g, c.rank) && Inv(c.g, c.plan, c.rank, s) && Caught(c, s)
    requires forall x :: x in s.stations ==> Resting(s.stations[x])
    ensures Caught(c, DoAdvance(s))
  {
    InvBuffers(c.g, c.plan, c.rank, s);
    hide Ranked, Inv, Resting;
    forall v | v in c.g && v in c.rank && c.rank[v] < s.superstep + 1 ensures Ended(DoAdvance(s), v) {
      AllOfRankEnded(c, s, v);
    }
  }

  lemma AdvanceLater(s: Run)
    ensures Later(s, DoAdvance(s)) && DoAdvance(s).heap == s.heap
    ensures DoAdvance(s).stations.Keys == s.stations.Keys
    ensures forall v :: v in s.stations ==> DoAdvance(s).stations[v].active == s.stations[v].active
    ensures forall v :: v in s.stations ==> DoAdvance(s).stations[v].ended == s.stations[v].ended
  {
    QuietEndings(s, Blank, 0);
    QuietLater(s, DoAdvance(s));
  }

  lemma AdvanceViewed(c: Setting, s: Run, at: Places)
    requires Ranked(c.g, c.rank) && Viewed(c, s, at) && forall x :: x in s.stations ==> Resting(s.stations[x])
    ensures Viewed(c, DoAdvance(s), at)
  {
    hide *;
    ViewedParts(c, s, at);
    AdvanceInv(c.g, c.plan, c.rank, s);
    AdvanceObj(c.g, c.rank, c.plan, s, at);
    CaughtAfter(c, s);
    AdvanceLater(s);
    HeapTrueStays(c, s, DoAdvance(s));
    QuietEndings(s, Blank, 0);
    FilledStays(c, s, DoAdvance(s), at);
    forall v | v in c.g ensures v in DoAdvance(s).stations && StationSaw(c, DoAdvance(s), v, DoAdvance(s).stations[v]) {
      AllSawAt(c, s, v);
      StationLater(c, s, DoAdvance(s), v, s.stations[v]);
      StationAlike(c, DoAdvance(s), v, s.stations[v], DoAdvance(s).stations[v]);
    }
    MakeAllSaw(c, DoAdvance(s));
    MakeViewed(c, DoAdvance(s), at);
  }

  lemma InitialMessages(c: Setting, input: M.Msg)
    requires Ranked(c.g, c.rank) && Fresh(input) && input.userInput == c.user && c.plan.start in c.g
    requires Root(c.g, c.rank, c.plan.start) == c.plan.start && c.plan.ids == c.g.Keys
    ensures HeapTrue(c, Initial(c.plan, input)) && Filled(c, Initial(c.plan, input), map[c.plan.start := 0])
    ensures Caught(c, Initial(c.plan, input)) && AllSaw(c, Initial(c.plan, input))
  {
    hide Ranked, Root, BelongsTo, Sees;
    var s := Initial(c.plan, input);
    assert forall v, r :: !EndedWith(s, v, r);
  }

  lemma InitialViewed(c: Setting, input: M.Msg)
    requires Ranked(c.g, c.rank) && Delivers(c.g, c.plan) && Fresh(input) && input.userInput == c.user
    ensures Viewed(c, Initial(c.plan, input), map[c.plan.start := 0])
  {
    hide *;
    StartRoot(c.g, c.rank, c.plan);
    InitialInv(c.g, c.plan, c.rank, input);
    InitialObj(c.g, c.rank, c.plan, input);
    InitialMessages(c, input);
    MakeViewed(c, Initial(c.plan, input), map[c.plan.start := 0]);
  }

  /** The run has kept to the timing at every moment. */
  ghost predicate KeptAlways(c: Setting, input: M.Msg, acts: seq<Action>) {
    Kept(c, Exec(c.plan, input, acts)) && (acts != [] ==> KeptAlways(c, input, acts[..|acts| - 1]))
  }

  lemma {:induction false} AnyTime(c: Setting, input: M.Msg, acts: seq<Action>)
    requires c.timing.Whenever?
    ensures KeptAlways(c, input, acts)
  {
    if acts != [] {
      AnyTime(c, input, acts[..|acts| - 1]);
    }
  }

  lemma StepViewed(c: Setting, s: Run, at: Places, limit: nat, a: Action) returns (at': Places)
    requires Ranked(c.g, c.rank) && Delivers(c.g, c.plan) && SolesPlain(c.g, c.plan) && Viewed(c, s, at)
    requires Enabled(s, limit, a) && Answered(s, c.behave, a) && Kept(c, s) && Kept(c, Apply(c.plan, s, a))
    ensures Viewed(c, Apply(c.plan, s, a), at')
  {
    hide Ranked, Delivers, SolesPlain, Viewed, Kept, DoBegin, DoFinish, DoAdvance, Resting;
    StationKeys(c, s, at);
    match a
    case Begin(x, k) =>
      at' := PlacesAfter(s, x, k, at);
      BeginViewed(c, s, at, x, k);
    case Finish(x, k, result) =>
      at' := at;
      FinishViewed(c, s, at, x, k, result);
    case Advance =>
      at' := at;
      AdvanceViewed(c, s, at);
  }

  lemma StationKeys(c: Setting, s: Run, at: Places)
    requires Ranked(c.g, c.rank) && Viewed(c, s, at)
    ensures s.stations.Keys == c.g.Keys
  {
  }

  /** In every run, at every moment: each message holds what it must and nothing it cannot, and what a step has read when
      it began, and so its result, is bounded in the same way. */
  lemma {:induction false} RunViewed(c: Setting, input: M.Msg, limit: nat, acts: seq<Action>) returns (at: Places)
    requires Ranked(c.g, c.rank) && Delivers(c.g, c.plan) && SolesPlain(c.g, c.plan)
    requires Fresh(input) && input.userInput == c.user && KeptAlways(c, input, acts)
    requires Schedule(c.plan, input, limit, acts) && Follows(c.plan, input, c.behave, acts)
    ensures Viewed(c, Exec(c.plan, input, acts), at)
  {
    hide Ranked, Delivers, SolesPlain, Fresh, Viewed, Kept, Enabled, Answered, Apply, Initial;
    if acts == [] {
      InitialViewed(c, input);
      at := map[c.plan.start := 0];
    } else {
      var n := |acts| - 1;
      var before := RunViewed(c, input, limit, acts[..n]);
      at := StepViewed(c, Exec(c.plan, input, acts[..n]), before, limit, acts[n]);
    }
  }
}
