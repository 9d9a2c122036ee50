/** The steps of a workflow as its author wrote them. */
module WorkflowSteps {
  import opened Graph

  // Any other node type behaves like Agent.
  datatype NodeType = Start | Agent | Condition | Approval | MapItems | End

  // inputBranch is "" when the step carries no branch label; branches belong to a condition.
  datatype Step = Step(id: Id, nodeType: NodeType, dependsOn: seq<Id>, inputBranch: string, branches: seq<string>)

  ghost predicate UniqueIds(steps: seq<Step>) {
    forall i, j :: 0 <= i < j < |steps| ==> steps[i].id != steps[j].id
  }

  lemma SameStep(steps: seq<Step>, s: Step, e: Step)
    requires UniqueIds(steps) && s in steps && e in steps && s.id == e.id
    ensures s == e
  {
    var i :| 0 <= i < |steps| && steps[i] == s;
    var j :| 0 <= j < |steps| && steps[j] == e;
  }

  function Ids(steps: seq<Step>): (ids: seq<Id>)
    ensures |ids| == |steps| && forall i :: 0 <= i < |steps| ==> ids[i] == steps[i].id
  {
    if steps == [] then [] else Ids(steps[..|steps| - 1]) + [steps[|steps| - 1].id]
  }

  predicate HasStep(steps: seq<Step>, id: Id) {
    exists i :: 0 <= i < |steps| && steps[i].id == id
  }

  /** The dependency lists by id. A step without an id has no place in the graph; a later step with the same id wins. */
  function ListsOf(steps: seq<Step>): (lists: map<Id, seq<Id>>)
    ensures forall x :: x in lists <==> x != Blank && HasStep(steps, x)
  {
    if steps == [] then map[] else
      var last := steps[|steps| - 1];
      var lists := ListsOf(steps[..|steps| - 1]);
      assert forall x :: HasStep(steps, x) <==> HasStep(steps[..|steps| - 1], x) || x == last.id by {
        assert steps == steps[..|steps| - 1] + [last];
      }
      if last.id == Blank then lists else lists[last.id := last.dependsOn]
  }

  function SetsOf(lists: map<Id, seq<Id>>): (g: Deps)
    ensures g.Keys == lists.Keys && forall a, d :: a in g ==> (d in g[a] <==> d in lists[a])
  {
    map a | a in lists :: set d | d in lists[a]
  }

  function DepsOf(steps: seq<Step>): Deps {
    SetsOf(ListsOf(steps))
  }

  /** With unique ids each step contributes its own list. */
  lemma {:induction false} ListsOfStep(steps: seq<Step>, i: nat)
    requires UniqueIds(steps) && i < |steps| && steps[i].id != Blank
    ensures steps[i].id in ListsOf(steps) && ListsOf(steps)[steps[i].id] == steps[i].dependsOn
  {
    var n := |steps| - 1;
    if i < n {
      ListsOfStep(steps[..n], i);
      assert steps[i].id != steps[n].id;
    }
  }
}
