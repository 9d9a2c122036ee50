/** The run message that travels along the edges of a workflow. */
module Messages {
  import opened Wrappers
  import opened Graph

  // A text a step produces or reads; only its identity matters.
  type Payload(==, !new)

  // A missing user input or run id is None.
  datatype Msg = Msg(
    outputs: map<Id, Payload>,
    conditionOutputs: map<Id, string>,
    skipped: set<Id>,
    userInput: Option<Payload>,
    runId: Option<Payload>,
    failed: set<Id>,
    completed: set<Id>)

  const EmptyMsg := Msg(map[], map[], {}, None, None, {}, {})

  function OrElse<T>(first: Option<T>, second: Option<T>): Option<T> {
    if first.Some? then first else second
  }

  /** Taking over what m knows; m wins on outputs, the receiver on the user input and the run id. */
  function Absorb(acc: Msg, m: Msg): Msg {
    Msg(acc.outputs + m.outputs, acc.conditionOutputs + m.conditionOutputs, acc.skipped + m.skipped,
        OrElse(acc.userInput, m.userInput), OrElse(acc.runId, m.runId), acc.failed + m.failed, acc.completed + m.completed)
  }

  function Merge(msgs: seq<Msg>): Msg {
    if msgs == [] then EmptyMsg else Absorb(Merge(msgs[..|msgs| - 1]), msgs[|msgs| - 1])
  }

  /** A step that succeeded records its output; one that failed only its failure. */
  function WithResult(m: Msg, id: Id, result: Option<Payload>): Msg {
    match result
    case Some(p) => m.(outputs := m.outputs[id := p], completed := m.completed + {id})
    case None => m.(failed := m.failed + {id})
  }

  class StateMessage {
    var outputs: map<Id, Payload>
    var conditionOutputs: map<Id, string>
    var skipped: set<Id>
    var userInput: Option<Payload>
    var runId: Option<Payload>
    var failedNodes: set<Id>
    var completedNodes: set<Id>

    function View(): Msg
      reads this
    {
      Msg(outputs, conditionOutputs, skipped, userInput, runId, failedNodes, completedNodes)
    }

    constructor ()
      ensures View() == EmptyMsg
    {
      outputs, conditionOutputs := map[], map[];
      skipped, failedNodes, completedNodes := {}, {}, {};
      userInput, runId := None, None;
    }

    method Record(id: Id, result: Option<Payload>)
      modifies this
      ensures View() == WithResult(old(View()), id, result)
      ensures result.Some? ==> outputs == old(outputs)[id := result.value] && completedNodes == old(completedNodes) + {id}
      ensures result.None? ==> outputs == old(outputs) && completedNodes == old(completedNodes)
      ensures failedNodes == if result.None? then old(failedNodes) + {id} else old(failedNodes)
      ensures conditionOutputs == old(conditionOutputs) && skipped == old(skipped)
      ensures userInput == old(userInput) && runId == old(runId)
    {
      match result {
        case Some(p) =>
          outputs := outputs[id := p];
          completedNodes := completedNodes + {id};
        case None =>
          failedNodes := failedNodes + {id};
      }
    }

    method Update(m: StateMessage)
      modifies this
      ensures View() == Absorb(old(View()), old(m.View()))
    {
      outputs := outputs + m.outputs;
      conditionOutputs := conditionOutputs + m.conditionOutputs;
      skipped := skipped + m.skipped;
      failedNodes := failedNodes + m.failedNodes;
      completedNodes := completedNodes + m.completedNodes;
      if m.userInput.Some? && userInput.None? {
        userInput := m.userInput;
      }
      if m.runId.Some? && runId.None? {
        runId := m.runId;
      }
    }
  }

  ghost function Views(msgs: seq<StateMessage>): seq<Msg>
    reads msgs
  {
    if msgs == [] then [] else Views(msgs[..|msgs| - 1]) + [msgs[|msgs| - 1].View()]
  }

  lemma {:induction false} ViewsAt(msgs: seq<StateMessage>, k: nat)
    requires k < |msgs|
    ensures |Views(msgs)| == |msgs| && Views(msgs)[k] == msgs[k].View()
  {
    var n := |msgs| - 1;
    if k < n {
      ViewsAt(msgs[..n], k);
    } else if n > 0 {
      ViewsAt(msgs[..n], 0);
    }
  }

  /** Merges into a new message; the messages merged keep their state. */
  method MergeMessages(msgs: seq<StateMessage>) returns (merged: StateMessage)
    ensures fresh(merged)
    ensures merged.View() == Merge(Views(msgs))
  {
    hide Absorb;
    ghost var views := Views(msgs);
    forall k | 0 <= k < |msgs| ensures |views| == |msgs| && views[k] == msgs[k].View() { ViewsAt(msgs, k); }
    merged := new StateMessage();
    var i := 0;
    while i < |msgs|
      invariant 0 <= i <= |msgs| == |views|
      invariant merged.View() == Merge(views[..i])
      invariant Views(msgs) == views && forall k :: 0 <= k < |msgs| ==> msgs[k].View() == views[k]
    {
      assert views[..i + 1][..i] == views[..i];
      merged.Update(msgs[i]);
      i := i + 1;
    }
    assert views[..i] == views;
  }

  // ----- Merging does not depend on the order

  ghost predicate MapsAgree<V>(a: map<Id, V>, b: map<Id, V>) {
    forall k :: k in a && k in b ==> a[k] == b[k]
  }

  ghost predicate OptionsAgree<T>(a: Option<T>, b: Option<T>) {
    a.Some? && b.Some? ==> a == b
  }

  ghost predicate Agree(a: Msg, b: Msg) {
    && MapsAgree(a.outputs, b.outputs) && MapsAgree(a.conditionOutputs, b.conditionOutputs)
    && OptionsAgree(a.userInput, b.userInput) && OptionsAgree(a.runId, b.runId)
  }

  ghost predicate AllAgree(msgs: seq<Msg>) {
    forall a, b :: a in msgs && b in msgs ==> Agree(a, b)
  }

  /** What m says is part of what acc says. */
  ghost predicate Within(m: Msg, acc: Msg) {
    && Agree(m, acc) && m.outputs.Keys <= acc.outputs.Keys && m.conditionOutputs.Keys <= acc.conditionOutputs.Keys
    && m.skipped <= acc.skipped && m.failed <= acc.failed && m.completed <= acc.completed
    && (m.userInput.Some? ==> acc.userInput.Some?) && (m.runId.Some? ==> acc.runId.Some?)
  }

  lemma {:induction false} MergeAgrees(msgs: seq<Msg>, x: Msg)
    requires forall m :: m in msgs ==> Agree(m, x)
    ensures Agree(Merge(msgs), x)
  {
    if msgs != [] {
      MergeAgrees(msgs[..|msgs| - 1], x);
      assert Agree(msgs[|msgs| - 1], x);
    }
  }

  /** A merge of agreeing messages loses nothing any of them says. */
  lemma {:induction false} MergeKeeps(msgs: seq<Msg>, m: Msg)
    requires AllAgree(msgs) && m in msgs
    ensures Within(m, Merge(msgs))
  {
    var n := |msgs| - 1;
    var rest, last := msgs[..n], msgs[n];
    assert msgs == rest + [last];
    MergeAgrees(rest, last);
    if m in rest {
      MergeKeeps(rest, m);
    }
  }

  /** A merge says nothing beyond what bounds every message. */
  lemma {:induction false} MergeBelow(msgs: seq<Msg>, bound: Msg)
    requires forall m :: m in msgs ==> Within(m, bound)
    ensures Within(Merge(msgs), bound)
  {
    if msgs != [] {
      MergeBelow(msgs[..|msgs| - 1], bound);
      assert Within(msgs[|msgs| - 1], bound);
    }
  }

  lemma WithinBoth(a: Msg, b: Msg)
    requires Within(a, b) && Within(b, a)
    ensures a == b
  {
    assert a.outputs == b.outputs && a.conditionOutputs == b.conditionOutputs;
  }

  /** Messages that agree where they overlap merge to the same message in every order and with any repetition. */
  lemma MergeOrderIrrelevant(a: seq<Msg>, b: seq<Msg>)
    requires AllAgree(a) && forall m :: m in a <==> m in b
    ensures Merge(a) == Merge(b)
  {
    forall m | m in a ensures Within(m, Merge(b)) { MergeKeeps(b, m); }
    forall m | m in b ensures Within(m, Merge(a)) { MergeKeeps(a, m); }
    MergeBelow(a, Merge(b));
    MergeBelow(b, Merge(a));
    WithinBoth(Merge(a), Merge(b));
  }

  lemma MergeNext(msgs: seq<Msg>)
    requires msgs != []
    ensures var front, last := msgs[..|msgs| - 1], msgs[|msgs| - 1];
      && msgs == front + [last]
      && Merge(msgs).outputs == Merge(front).outputs + last.outputs
      && Merge(msgs).userInput == OrElse(Merge(front).userInput, last.userInput)
  {
  }

  /** Message number i is the last that has an output of k. */
  ghost predicate LastWith(msgs: seq<Msg>, k: Id, i: nat) {
    i < |msgs| && k in msgs[i].outputs && forall j :: i < j < |msgs| ==> k !in msgs[j].outputs
  }

  /** A merge has an output of a step if any message has, and takes it from the last one. */
  lemma {:induction false} MergeTakesLast(msgs: seq<Msg>, k: Id)
    ensures k in Merge(msgs).outputs <==> exists i: nat :: LastWith(msgs, k, i)
    ensures forall i: nat :: LastWith(msgs, k, i) ==> Merge(msgs).outputs[k] == msgs[i].outputs[k]
  {
    if msgs != [] {
      var n := |msgs| - 1;
      MergeTakesLast(msgs[..n], k);
      MergeNext(msgs);
      hide Merge;
      if k in msgs[n].outputs {
        assert LastWith(msgs, k, n);
      } else {
        forall i: nat ensures LastWith(msgs, k, i) <==> LastWith(msgs[..n], k, i) {}
      }
    }
  }

  /** A choice, too, is taken from the last message that has one. */
  ghost predicate LastChoosing(msgs: seq<Msg>, k: Id, i: nat) {
    i < |msgs| && k in msgs[i].conditionOutputs && forall j :: i < j < |msgs| ==> k !in msgs[j].conditionOutputs
  }

  lemma MergeNextRest(msgs: seq<Msg>)
    requires msgs != []
    ensures var front, last := msgs[..|msgs| - 1], msgs[|msgs| - 1];
      && msgs == front + [last]
      && Merge(msgs).conditionOutputs == Merge(front).conditionOutputs + last.conditionOutputs
      && Merge(msgs).runId == OrElse(Merge(front).runId, last.runId)
      && Merge(msgs).skipped == Merge(front).skipped + last.skipped
      && Merge(msgs).failed == Merge(front).failed + last.failed
      && Merge(msgs).completed == Merge(front).completed + last.completed
  {
  }

  lemma {:induction false} MergeTakesLastChoice(msgs: seq<Msg>, k: Id)
    ensures k in Merge(msgs).conditionOutputs <==> exists i: nat :: LastChoosing(msgs, k, i)
    ensures forall i: nat :: LastChoosing(msgs, k, i) ==> Merge(msgs).conditionOutputs[k] == msgs[i].conditionOutputs[k]
  {
    if msgs != [] {
      var n := |msgs| - 1;
      MergeTakesLastChoice(msgs[..n], k);
      MergeNextRest(msgs);
      hide Merge;
      if k in msgs[n].conditionOutputs {
        assert LastChoosing(msgs, k, n);
      } else {
        forall i: nat ensures LastChoosing(msgs, k, i) <==> LastChoosing(msgs[..n], k, i) {}
      }
    }
  }

  /** A step is skipped, failed or completed in a merge exactly if it is so in some message. */
  lemma {:induction false} MergeUnites(msgs: seq<Msg>, v: Id)
    ensures v in Merge(msgs).skipped <==> exists m :: m in msgs && v in m.skipped
    ensures v in Merge(msgs).failed <==> exists m :: m in msgs && v in m.failed
    ensures v in Merge(msgs).completed <==> exists m :: m in msgs && v in m.completed
  {
    if msgs != [] {
      var n := |msgs| - 1;
      MergeUnites(msgs[..n], v);
      MergeNextRest(msgs);
      hide Merge;
      assert msgs[n] in msgs && forall m :: m in msgs <==> m in msgs[..n] || m == msgs[n];
    }
  }

  /** Message number i is the first with a user input. */
  ghost predicate FirstWithUser(msgs: seq<Msg>, i: nat) {
    i < |msgs| && msgs[i].userInput.Some? && forall j :: 0 <= j < i ==> msgs[j].userInput.None?
  }

  /** A merge has a user input if any message has, and takes it from the first one. */
  lemma {:induction false} MergeTakesFirstUser(msgs: seq<Msg>)
    ensures Merge(msgs).userInput.Some? <==> exists i: nat :: FirstWithUser(msgs, i)
    ensures forall i: nat :: FirstWithUser(msgs, i) ==> Merge(msgs).userInput == msgs[i].userInput
  {
    if msgs != [] {
      var n := |msgs| - 1;
      MergeTakesFirstUser(msgs[..n]);
      MergeNext(msgs);
      hide Merge;
      forall i: nat | i < n ensures FirstWithUser(msgs, i) <==> FirstWithUser(msgs[..n], i) {}
      if Merge(msgs[..n]).userInput.None? && msgs[n].userInput.Some? {
        NoneBefore(msgs[..n]);
        assert FirstWithUser(msgs, n);
      }
    }
  }

  /** Message number i is the first with a run id. */
  ghost predicate FirstWithRun(msgs: seq<Msg>, i: nat) {
    i < |msgs| && msgs[i].runId.Some? && forall j :: 0 <= j < i ==> msgs[j].runId.None?
  }

  lemma {:induction false} MergeTakesFirstRun(msgs: seq<Msg>)
    ensures (Merge(msgs).runId.None? <==> forall m :: m in msgs ==> m.runId.None?)
    ensures forall i: nat :: FirstWithRun(msgs, i) ==> Merge(msgs).runId == msgs[i].runId
  {
    if msgs != [] {
      var n := |msgs| - 1;
      MergeTakesFirstRun(msgs[..n]);
      MergeNextRest(msgs);
      hide Merge;
      assert msgs[n] in msgs && forall m :: m in msgs <==> m in msgs[..n] || m == msgs[n];
      forall i: nat | i < n && FirstWithRun(msgs, i) ensures FirstWithRun(msgs[..n], i) {}
      assert FirstWithRun(msgs, n) ==> forall m :: m in msgs[..n] ==> m.runId.None?;
    }
  }

  lemma NoneBefore(msgs: seq<Msg>)
    requires forall i: nat :: !FirstWithUser(msgs, i)
    ensures forall m :: m in msgs ==> m.userInput.None?
  {
    var n := 0;
    while n < |msgs|
      invariant n <= |msgs| && forall j :: 0 <= j < n ==> msgs[j].userInput.None?
    {
      assert !FirstWithUser(msgs, n);
      n := n + 1;
    }
  }

  /** Two messages merge alike in both orders exactly when they agree. */
  lemma MergeCommutesIff(a: Msg, b: Msg)
    ensures Merge([a, b]) == Merge([b, a]) <==> Agree(a, b)
  {
    MergePair(a, b);
    MergePair(b, a);
    if Agree(a, b) {
      AbsorbCommutes(a, b);
    } else {
      AbsorbDiffers(a, b);
    }
  }

  lemma AbsorbCommutes(a: Msg, b: Msg)
    requires Agree(a, b)
    ensures Absorb(a, b) == Absorb(b, a)
  {
    assert a.outputs + b.outputs == b.outputs + a.outputs;
    assert a.conditionOutputs + b.conditionOutputs == b.conditionOutputs + a.conditionOutputs;
  }

  lemma AbsorbDiffers(a: Msg, b: Msg)
    requires !Agree(a, b)
    ensures Absorb(a, b) != Absorb(b, a)
  {
    if !MapsAgree(a.outputs, b.outputs) {
      MapsDiffer(a.outputs, b.outputs);
    } else if !MapsAgree(a.conditionOutputs, b.conditionOutputs) {
      MapsDiffer(a.conditionOutputs, b.conditionOutputs);
    }
  }

  lemma MapsDiffer<V>(a: map<Id, V>, b: map<Id, V>)
    requires !MapsAgree(a, b)
    ensures a + b != b + a
  {
    var k :| k in a && k in b && a[k] != b[k];
    assert (a + b)[k] != (b + a)[k];
  }

  lemma MergePair(a: Msg, b: Msg)
    ensures Merge([a, b]) == Absorb(a, b)
  {
    assert [a, b][..1] == [a] && [a][..0] == [];
    assert map[] + a.outputs == a.outputs && map[] + a.conditionOutputs == a.conditionOutputs;
    assert Merge([a]) == Absorb(EmptyMsg, a) == a;
  }
}
