/** The map step: its items run concurrently behind a semaphore, and come back in the order of the input. */
module MapNode {
  import opened Wrappers
  import M = Messages

  type Payload = M.Payload
  type Outcome = Result<Payload, string>

  // ----- The items on their way

  /** Items wait outside the semaphore, run inside, or have left their outcome. */
  datatype Batch = Batch(waiting: set<nat>, running: set<nat>, left: map<nat, Outcome>)

  datatype Action = Enter(item: nat) | Leave(item: nat, outcome: Outcome)

  function UpTo(n: nat): (s: set<nat>)
    ensures |s| == n && forall i: nat :: i in s <==> i < n
  {
    if n == 0 then {} else UpTo(n - 1) + {n - 1}
  }

  function Start(n: nat): Batch {
    Batch(UpTo(n), {}, map[])
  }

  predicate Enabled(b: Batch, limit: nat, a: Action) {
    match a
    case Enter(i) => i in b.waiting && |b.running| < limit
    case Leave(i, _) => i in b.running
  }

  function Apply(b: Batch, a: Action): Batch {
    match a
    case Enter(i) => b.(waiting := b.waiting - {i}, running := b.running + {i})
    case Leave(i, r) => b.(running := b.running - {i}, left := b.left[i := r])
  }

  function Exec(n: nat, acts: seq<Action>): Batch {
    if acts == [] then Start(n) else Apply(Exec(n, acts[..|acts| - 1]), acts[|acts| - 1])
  }

  predicate Interleaving(n: nat, limit: nat, acts: seq<Action>) {
    acts == [] ||
    var k := |acts| - 1;
    Interleaving(n, limit, acts[..k]) && Enabled(Exec(n, acts[..k]), limit, acts[k])
  }

  /** Every item leaves with its own outcome. */
  ghost predicate Follows(acts: seq<Action>, outcome: nat -> Outcome) {
    forall a :: a in acts && a.Leave? ==> a.outcome == outcome(a.item)
  }

  /** Each item is in one place, at most limit of them inside, and only outcomes of their own have been left. */
  ghost predicate Inv(n: nat, limit: nat, b: Batch, outcome: nat -> Outcome) {
    && (forall i :: i in b.waiting || i in b.running || i in b.left ==> i < n)
    && (forall i: nat :: i < n ==> i in b.waiting || i in b.running || i in b.left)
    && b.waiting !! b.running && b.waiting !! b.left.Keys && b.running !! b.left.Keys
    && |b.running| <= limit
    && (forall i :: i in b.left ==> b.left[i] == outcome(i))
  }

  lemma StepInv(n: nat, limit: nat, b: Batch, a: Action, outcome: nat -> Outcome)
    requires Inv(n, limit, b, outcome) && Enabled(b, limit, a) && (a.Leave? ==> a.outcome == outcome(a.item))
    ensures Inv(n, limit, Apply(b, a), outcome)
    ensures 2 * |Apply(b, a).waiting| + |Apply(b, a).running| + 1 == 2 * |b.waiting| + |b.running|
  {
  }

  lemma {:induction false} InterleavingInv(n: nat, limit: nat, acts: seq<Action>, outcome: nat -> Outcome)
    requires Interleaving(n, limit, acts) && Follows(acts, outcome)
    ensures Inv(n, limit, Exec(n, acts), outcome)
    ensures |acts| + 2 * |Exec(n, acts).waiting| + |Exec(n, acts).running| == 2 * n
  {
    if acts != [] {
      hide Inv, Apply, Enabled;
      var k := |acts| - 1;
      InterleavingInv(n, limit, acts[..k], outcome);
      StepInv(n, limit, Exec(n, acts[..k]), acts[k], outcome);
    }
  }

  /** At most limit items are inside at once, and nothing is ever stuck: an interleaving that cannot go on has let
      every item through, in two steps each. */
  lemma AllComeBack(n: nat, limit: nat, acts: seq<Action>, outcome: nat -> Outcome)
    requires limit > 0 && Interleaving(n, limit, acts) && Follows(acts, outcome)
    ensures |Exec(n, acts).running| <= limit && |acts| <= 2 * n
    ensures (forall a :: !Enabled(Exec(n, acts), limit, a)) <==> |acts| == 2 * n
    ensures |acts| == 2 * n ==> Exec(n, acts).left == map i | i in UpTo(n) :: outcome(i)
  {
    InterleavingInv(n, limit, acts, outcome);
    var b := Exec(n, acts);
    if b.running != {} {
      var i :| i in b.running;
      assert Enabled(b, limit, Leave(i, outcome(i)));
    } else if b.waiting != {} {
      var i :| i in b.waiting;
      assert Enabled(b, limit, Enter(i));
    }
  }

  // ----- What becomes of the outcomes

  /** The values of the successful outcomes. */
  function Values(outcomes: seq<Outcome>): seq<Payload> {
    if outcomes == [] then [] else
      var n := |outcomes| - 1;
      if outcomes[n].Ok? then Values(outcomes[..n]) + [outcomes[n].value] else Values(outcomes[..n])
  }

  /** outputs are the values of the successful outcomes, in order; places says which. */
  ghost predicate Successes(outcomes: seq<Outcome>, outputs: seq<Payload>, places: seq<nat>) {
    && |places| == |outputs|
    && (forall j, k :: 0 <= j < k < |places| ==> places[j] < places[k])
    && (forall i :: 0 <= i < |outcomes| && outcomes[i].Ok? ==> i in places)
    && (forall k :: 0 <= k < |places| ==> places[k] < |outcomes| && outcomes[places[k]] == Ok(outputs[k]))
  }

  lemma OneMoreSuccess(front: seq<Outcome>, outputs: seq<Payload>, places: seq<nat>, p: Payload)
    requires Successes(front, outputs, places)
    ensures Successes(front + [Ok(p)], outputs + [p], places + [|front|])
  {
    var more := places + [|front|];
    assert forall i :: i in places ==> i in more;
    assert more[|places|] == |front|;
  }

  lemma OneMoreError(front: seq<Outcome>, outputs: seq<Payload>, places: seq<nat>, e: string)
    requires Successes(front, outputs, places)
    ensures Successes(front + [Err(e)], outputs, places)
  {
  }

  /** Just the successful items, in the order of the input. */
  lemma {:induction false} ValuesAreSuccesses(outcomes: seq<Outcome>) returns (places: seq<nat>)
    ensures Successes(outcomes, Values(outcomes), places)
  {
    if outcomes == [] {
      places := [];
    } else {
      hide Successes;
      var n := |outcomes| - 1;
      places := ValuesAreSuccesses(outcomes[..n]);
      assert outcomes == outcomes[..n] + [outcomes[n]];
      match outcomes[n] {
        case Ok(p) =>
          OneMoreSuccess(outcomes[..n], Values(outcomes[..n]), places, p);
          places := places + [n];
        case Err(e) =>
          OneMoreError(outcomes[..n], Values(outcomes[..n]), places, e);
      }
    }
  }

  ghost predicate FirstError(outcomes: seq<Outcome>, e: string) {
    exists i :: 0 <= i < |outcomes| && outcomes[i] == Err(e) && forall j :: 0 <= j < i ==> outcomes[j].Ok?
  }

  /** Fails with the first error if errors are not passed over, and otherwise gives the outputs there are. */
  method Reduce(outcomes: seq<Outcome>, continueOnError: bool)
    returns (r: Result<seq<Payload>, string>)
    ensures r.Err? <==> !continueOnError && exists i :: 0 <= i < |outcomes| && outcomes[i].Err?
    ensures r.Err? ==> FirstError(outcomes, r.error)
    ensures r.Ok? ==> r.value == Values(outcomes)
  {
    var errors: seq<string>, outputs := [], [];
    var i := 0;
    while i < |outcomes|
      invariant 0 <= i <= |outcomes|
      invariant outputs == Values(outcomes[..i])
      invariant errors == [] <==> forall j :: 0 <= j < i ==> outcomes[j].Ok?
      invariant errors != [] ==> FirstError(outcomes, errors[0])
    {
      assert outcomes[..i + 1][..i] == outcomes[..i];
      match outcomes[i] {
        case Ok(p) => outputs := outputs + [p];
        case Err(e) => errors := errors + [e];
      }
      i := i + 1;
    }
    assert outcomes[..i] == outcomes;
    r := if errors != [] && !continueOnError then Err(errors[0]) else Ok(outputs);
  }

  /** Items gathered in any interleaving reduce to the same. */
  lemma MapDoesNotDependOnInterleaving(n: nat, limit: nat, acts: seq<Action>, acts': seq<Action>,
                                       outcome: nat -> Outcome)
    requires limit > 0 && Interleaving(n, limit, acts) && Interleaving(n, limit, acts')
    requires Follows(acts, outcome) && Follows(acts', outcome) && |acts| == |acts'| == 2 * n
    ensures InOrder(n, Exec(n, acts)) == InOrder(n, Exec(n, acts'))
    ensures |InOrder(n, Exec(n, acts))| == n && forall i :: 0 <= i < n ==> InOrder(n, Exec(n, acts))[i] == outcome(i)
  {
    AllComeBack(n, limit, acts, outcome);
    AllComeBack(n, limit, acts', outcome);
  }

  /** The outcomes in the order of the items. */
  function InOrder(n: nat, b: Batch): (outcomes: seq<Outcome>)
    ensures (forall i: nat :: i < n ==> i in b.left) ==>
      |outcomes| == n && forall i :: 0 <= i < n ==> i in b.left && outcomes[i] == b.left[i]
  {
    if n == 0 then [] else InOrder(n - 1, b) + if n - 1 in b.left then [b.left[n - 1]] else []
  }
}
