/** The cycle check a workflow passes before it is built: a depth-first search with three colours. */
module TopologicalValidate {
  import opened Wrappers
  import opened Graph
  import opened Sequences
  import opened WorkflowSteps

  datatype Colour = White | Grey | Black

  type Colours = map<Id, Colour>

  /** The grey steps form the stack, which is a path; the black ones were finished in dependency order. */
  ghost predicate Coloured(g: Deps, colour: Colours, finished: seq<Id>, stack: seq<Id>) {
    && colour.Keys == g.Keys
    && (forall x :: x in finished <==> x in g && colour[x] == Black)
    && (forall x :: x in stack <==> x in g && colour[x] == Grey)
    && Distinct(finished) && DepsFirst(g, finished)
    && (stack != [] ==> Path(g, stack))
  }

  function Whites(colour: Colours): set<Id> {
    set n | n in colour && colour[n] == White
  }

  /** Nothing black is recoloured and no step turns white. */
  ghost predicate Advances(before: Colours, after: Colours) {
    && before.Keys == after.Keys
    && (forall x :: x in before && before[x] == Black ==> after[x] == Black)
    && Whites(after) <= Whites(before)
  }

  class Colouring {
    const lists: map<Id, seq<Id>>
    ghost const g: Deps
    var colour: Colours
    // The steps in the order in which they turned black.
    ghost var finished: seq<Id>

    constructor (lists: map<Id, seq<Id>>)
      ensures this.lists == lists && g == SetsOf(lists) && Coloured(g, colour, finished, [])
    {
      this.lists := lists;
      this.g := SetsOf(lists);
      colour := map n | n in lists :: White;
      finished := [];
    }

    /** Visits a white step below the grey stack. Returns the step that closes a cycle, if one is met. */
    method Dfs(node: Id, ghost stack: seq<Id>) returns (closing: Option<Id>)
      requires g == SetsOf(lists) && Coloured(g, colour, finished, stack)
      requires node in g && colour[node] == White
      requires stack != [] ==> Dep(g, stack[|stack| - 1], node)
      modifies this`colour, this`finished
      ensures closing.Some? ==> Ancestor(g, closing.value, closing.value)
      ensures closing.None? ==> Coloured(g, colour, finished, stack)
      ensures closing.None? ==> Advances(old(colour), colour) && colour[node] == Black
      decreases Whites(colour)
    {
      PushGrey(g, colour, finished, stack, node);
      ghost var deeper := stack + [node];
      ghost var was := colour;
      colour := colour[node := Grey];
      var i := 0;
      while i < |lists[node]|
        invariant 0 <= i <= |lists[node]|
        invariant Coloured(g, colour, finished, deeper)
        invariant Advances(was[node := Grey], colour)
        invariant forall d :: d in lists[node][..i] && d in g ==> colour[d] == Black
      {
        var dep := lists[node][i];
        assert deeper[|deeper| - 1] == node;
        if dep in colour {
          if colour[dep] == Grey {
            ClosesCycle(g, deeper, dep);
            return Some(dep);
          }
          if colour[dep] == White {
            FewerWhites(was, node, colour);
            var deep := Dfs(dep, deeper);
            if deep.Some? { return deep; }
          }
        }
        i := i + 1;
      }
      PopBlack(g, colour, finished, stack, node);
      FewerWhites(was, node, colour);
      assert Whites(colour[node := Black]) <= Whites(colour);
      colour := colour[node := Black];
      finished := finished + [node];
      closing := None;
    }
  }

  lemma PushGrey(g: Deps, colour: Colours, finished: seq<Id>, stack: seq<Id>, node: Id)
    requires Coloured(g, colour, finished, stack) && node in g && colour[node] == White
    requires stack != [] ==> Dep(g, stack[|stack| - 1], node)
    ensures Coloured(g, colour[node := Grey], finished, stack + [node])
  {
    assert Path(g, [node]);
    if stack == [] {
      assert stack + [node] == [node];
    } else {
      PathJoin(g, stack, [node]);
    }
  }

  lemma PopBlack(g: Deps, colour: Colours, finished: seq<Id>, stack: seq<Id>, node: Id)
    requires Coloured(g, colour, finished, stack + [node]) && node in g && node !in stack
    requires stack != [] ==> Path(g, stack)
    requires forall d :: d in g[node] && d in g ==> colour[d] == Black
    ensures Coloured(g, colour[node := Black], finished + [node], stack)
  {
    assert forall x :: x in stack + [node] <==> x in stack || x == node;
    var longer := finished + [node];
    forall i, d | 0 <= i < |longer| && Dep(g, longer[i], d) ensures d in longer[..i] {
      if i < |finished| {
        assert longer[..i] == finished[..i];
        assert Dep(g, finished[i], d);
      } else {
        assert longer[..i] == finished;
      }
    }
  }

  lemma FewerWhites(before: Colours, node: Id, after: Colours)
    requires node in before && before[node] == White
    requires Advances(before[node := Grey], after)
    ensures Whites(after) < Whites(before)
  {
    assert node !in Whites(before[node := Grey]) && node in Whites(before);
    forall x | x in Whites(after) ensures x in Whites(before) {
      assert x in Whites(before[node := Grey]);
    }
  }

  /** The top of the grey path waits for a step on that path: a cycle. */
  lemma ClosesCycle(g: Deps, stack: seq<Id>, dep: Id)
    requires Path(g, stack) && dep in stack && Dep(g, stack[|stack| - 1], dep)
    ensures Ancestor(g, dep, dep)
  {
    var k := IndexOf(stack, dep);
    PathSuffix(g, stack, k);
    assert Path(g, [dep]);
    PathJoin(g, stack[k..], [dep]);
    var p := stack[k..] + [dep];
    assert PathFromTo(g, p, dep, dep) && |p| >= 2;
  }

  /** Accepts exactly the acyclic graphs; the order in which steps turned black is then topological.
      A rejection names a step that lies on a cycle. */
  method Validate(steps: seq<Step>) returns (r: Result<(), Id>, ghost order: seq<Id>)
    ensures r.Err? ==> Ancestor(DepsOf(steps), r.error, r.error)
    ensures r.Ok? <==> !Cyclic(DepsOf(steps))
    ensures r.Ok? ==> Topological(DepsOf(steps), order)
  {
    hide ListsOf, SetsOf, DepsFirst, Path, Ancestor;
    var lists := ListsOf(steps);
    ghost var g := DepsOf(steps);
    var search := new Colouring(lists);
    var pending := lists.Keys;
    while pending != {}
      invariant pending <= g.Keys
      invariant search.lists == lists && search.g == g && Coloured(g, search.colour, search.finished, [])
      invariant forall n :: n in g && n !in pending ==> search.colour[n] == Black
      decreases pending
    {
      var node :| node in pending;
      pending := pending - {node};
      if search.colour[node] == White {
        var closing := search.Dfs(node, []);
        if closing.Some? {
          return Err(closing.value), [];
        }
      } else {
        assert search.colour[node] != Grey;
      }
    }
    order := search.finished;
    TopologicalIsAcyclic(g, order);
    r := Ok(());
  }
}
