/** How steps answer, and what a run makes of their answers. */
module Behaviours {
  import opened Wrappers
  import opened Graph
  import opened Supersteps
  import M = Messages

  /** What a step answers, from the outputs and the user input it has read; None is a failure. */
  type Behaviour = (Id, map<Id, Payload>, Option<Payload>) -> Option<Payload>

  type Outcome = map<Id, Option<Payload>>

  /** a and b hold outputs of steps, and the same ones for the steps that v waits for. */
  ghost predicate SameBelow(g: Deps, v: Id, a: map<Id, Payload>, b: map<Id, Payload>) {
    && a.Keys <= g.Keys && b.Keys <= g.Keys
    && forall x :: x in g && Ancestor(g, x, v) ==> (x in a <==> x in b) && (x in a && x in b ==> a[x] == b[x])
  }

  /** A step's answer depends only on the outputs of steps it waits for. */
  ghost predicate Local(g: Deps, behave: Behaviour) {
    forall v, a, b, u :: v in g && SameBelow(g, v, a, b) ==> behave(v, a, u) == behave(v, b, u)
  }

  /** a and b hold outputs of steps, and the same ones for the steps of want. */
  ghost predicate SameOn(g: Deps, want: set<Id>, a: map<Id, Payload>, b: map<Id, Payload>) {
    && a.Keys <= g.Keys && b.Keys <= g.Keys
    && forall x :: x in want ==> (x in a <==> x in b) && (x in a && x in b ==> a[x] == b[x])
  }

  /** A step's answer depends only on the outputs of the steps listed for it in reads. */
  ghost predicate ReadsOnly(g: Deps, wanted: Deps, behave: Behaviour) {
    forall v, a, b, u :: v in g && v in wanted && SameOn(g, wanted[v], a, b) ==> behave(v, a, u) == behave(v, b, u)
  }

  /** Whatever ended, ended as its step behaves on what it had read. */
  ghost predicate Answered(s: Run, behave: Behaviour, a: Action) {
    a.Finish? && a.step in s.stations && a.activation < |s.stations[a.step].active| ==>
      var w := s.stations[a.step].active[a.activation];
      a.result == behave(a.step, w.seen, w.user)
  }

  ghost predicate Follows(plan: Plan, input: M.Msg, behave: Behaviour, acts: seq<Action>) {
    acts == [] ||
    var n := |acts| - 1;
    Follows(plan, input, behave, acts[..n]) && Answered(Exec(plan, input, acts[..n]), behave, acts[n])
  }

  /** The message a run starts with. */
  ghost predicate Fresh(input: M.Msg) {
    input.outputs == map[]
  }

  predicate EndedWith(s: Run, v: Id, r: Option<Payload>) {
    v in s.stations && r in s.stations[v].ended
  }

  /** The outputs of the steps that have succeeded, as the run reports them. */
  function FinalOutputs(s: Run): map<Id, Payload> {
    map v | v in s.stations && s.stations[v].ended != [] && s.stations[v].ended[0].Some? :: s.stations[v].ended[0].value
  }
}
