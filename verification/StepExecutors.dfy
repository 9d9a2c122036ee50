/** What single steps do: agents with retries, approvals, end steps. */
module StepExecutors {
  import opened Wrappers
  import opened Graph
  import opened Sequences
  import opened WorkflowSteps
  import opened WorkflowBuild
  import opened Ranks
  import opened PlainWorkflows
  import opened MessageObjects
  import opened Behaviours
  import opened RunResults
  import T = RunTheorems
  import M = Messages

  type Payload = M.Payload

  // ----- What a step reads

  /** The outputs of the listed dependencies that there are, in the order of the list. */
  function Upstream(dependsOn: seq<Id>, outputs: map<Id, Payload>): (pairs: seq<(Id, Payload)>)
    ensures forall p :: p in pairs <==> p.0 in dependsOn && p.0 in outputs && outputs[p.0] == p.1
  {
    if dependsOn == [] then [] else
      var n := |dependsOn| - 1;
      assert dependsOn == dependsOn[..n] + [dependsOn[n]];
      Upstream(dependsOn[..n], outputs) + if dependsOn[n] in outputs then [(dependsOn[n], outputs[dependsOn[n]])] else []
  }

  function Listed(pairs: seq<(Id, Payload)>): (ids: seq<Id>)
    ensures |ids| == |pairs| && forall i :: 0 <= i < |ids| ==> ids[i] == pairs[i].0
  {
    if pairs == [] then [] else Listed(pairs[..|pairs| - 1]) + [pairs[|pairs| - 1].0]
  }

  /** They come in the order in which they are listed. */
  lemma {:induction false} UpstreamInOrder(dependsOn: seq<Id>, outputs: map<Id, Payload>)
    ensures TakenFrom(Listed(Upstream(dependsOn, outputs)), dependsOn)
  {
    if dependsOn != [] {
      var n := |dependsOn| - 1;
      assert dependsOn == dependsOn[..n] + [dependsOn[n]];
      UpstreamInOrder(dependsOn[..n], outputs);
      var before := Upstream(dependsOn[..n], outputs);
      hide TakenFrom, Upstream;
      if dependsOn[n] in outputs {
        assert Listed(before + [(dependsOn[n], outputs[dependsOn[n]])]) == Listed(before) + [dependsOn[n]];
        TakenTakes(Listed(before), dependsOn[..n], dependsOn[n]);
      } else {
        assert before + [] == before;
        TakenSkips(Listed(before), dependsOn[..n], dependsOn[n]);
      }
    }
  }

  /** The lists of a workflow's steps by id; nothing for an id that is none. */
  function ListOf(steps: seq<Step>, id: Id): seq<Id> {
    if id in ListsOf(steps) then ListsOf(steps)[id] else []
  }

  // How a step answers: from its resolved task, the outputs of its listed dependencies, and the user input.
  type Answer = (Id, seq<Payload>, seq<(Id, Payload)>, Option<Payload>) -> Option<Payload>

  lemma {:induction false} SameUpstream(deps: seq<Id>, a: map<Id, Payload>, b: map<Id, Payload>)
    requires forall d :: d in deps ==> (d in a <==> d in b) && (d in a && d in b ==> a[d] == b[d])
    ensures Upstream(deps, a) == Upstream(deps, b)
  {
    if deps != [] {
      var n := |deps| - 1;
      assert deps[n] in deps;
      SameUpstream(deps[..n], a, b);
    }
  }

  // A task is text with mentions of outputs; taken is what the path of a mention takes from the output.
  datatype Part = Literal(text: Payload) | Mention(id: Id, taken: Payload -> Payload)

  /** A mention of a step that has no output leaves nothing. */
  function Resolve(task: seq<Part>, outputs: map<Id, Payload>, nothing: Payload): (texts: seq<Payload>)
    ensures |texts| == |task|
    ensures forall i :: 0 <= i < |task| && task[i].Literal? ==> texts[i] == task[i].text
    ensures forall i :: 0 <= i < |task| && task[i].Mention? && task[i].id !in outputs ==> texts[i] == nothing
    ensures forall i :: 0 <= i < |task| && task[i].Mention? && task[i].id in outputs ==>
      texts[i] == task[i].taken(outputs[task[i].id])
  {
    if task == [] then [] else
      var n := |task| - 1;
      var text := match task[n]
        case Literal(text) => text
        case Mention(id, taken) => if id in outputs then taken(outputs[id]) else nothing;
      Resolve(task[..n], outputs, nothing) + [text]
  }

  ghost predicate Mentions(task: seq<Part>, id: Id) {
    exists i :: 0 <= i < |task| && task[i].Mention? && task[i].id == id
  }

  /** Steps that read the outputs their tasks mention, those of their listed dependencies, and the user input. */
  ghost function Interpolating(steps: seq<Step>, tasks: Id -> seq<Part>, nothing: Payload, answer: Answer): Behaviour {
    (v: Id, seen: map<Id, Payload>, user: Option<Payload>) =>
      answer(v, Resolve(tasks(v), seen, nothing), Upstream(ListOf(steps, v), seen), user)
  }

  /** The steps whose outputs each step can read. */
  ghost function WantedBy(steps: seq<Step>, tasks: Id -> seq<Part>): (wanted: Deps)
    ensures wanted.Keys == DepsOf(steps).Keys
    ensures forall v, w :: v in wanted ==> (w in wanted[v] <==> w in DepsOf(steps)[v] || Mentions(tasks(v), w))
  {
    map v | v in DepsOf(steps) :: DepsOf(steps)[v] + set i | 0 <= i < |tasks(v)| && tasks(v)[i].Mention? :: tasks(v)[i].id
  }

  lemma SameResolved(task: seq<Part>, a: map<Id, Payload>, b: map<Id, Payload>, nothing: Payload)
    requires forall w :: Mentions(task, w) ==> (w in a <==> w in b) && (w in a && w in b ==> a[w] == b[w])
    ensures Resolve(task, a, nothing) == Resolve(task, b, nothing)
  {
    forall i | 0 <= i < |task| ensures Resolve(task, a, nothing)[i] == Resolve(task, b, nothing)[i] {
      if task[i].Mention? {
        assert Mentions(task, task[i].id);
      }
    }
  }

  lemma ListedAre(steps: seq<Step>, v: Id)
    ensures v in DepsOf(steps) ==> forall d :: d in ListOf(steps, v) <==> d in DepsOf(steps)[v]
  {
  }

  lemma InterpolatingReads(steps: seq<Step>, tasks: Id -> seq<Part>, nothing: Payload, answer: Answer)
    ensures ReadsOnly(DepsOf(steps), WantedBy(steps, tasks), Interpolating(steps, tasks, nothing, answer))
  {
    var g, wanted := DepsOf(steps), WantedBy(steps, tasks);
    forall v, a, b, u | v in g && v in wanted && SameOn(g, wanted[v], a, b)
      ensures Interpolating(steps, tasks, nothing, answer)(v, a, u) == Interpolating(steps, tasks, nothing, answer)(v, b, u)
    {
      ListedAre(steps, v);
      SameUpstream(ListOf(steps, v), a, b);
      SameResolved(tasks(v), a, b, nothing);
    }
  }

  /** Tasks that mention only steps which their own step waits for, directly or not, read only what it waits for. */
  lemma MentionedAncestorsAreLocal(steps: seq<Step>, tasks: Id -> seq<Part>, nothing: Payload, answer: Answer)
    requires var g := DepsOf(steps); forall v, w :: v in g && w in g && Mentions(tasks(v), w) ==> Ancestor(g, w, v)
    ensures Local(DepsOf(steps), Interpolating(steps, tasks, nothing, answer))
  {
    var g, behave := DepsOf(steps), Interpolating(steps, tasks, nothing, answer);
    forall v, a, b, u | v in g && SameBelow(g, v, a, b) ensures behave(v, a, u) == behave(v, b, u) {
      ListedAre(steps, v);
      forall d | d in ListOf(steps, v) || Mentions(tasks(v), d)
        ensures (d in a <==> d in b) && (d in a && d in b ==> a[d] == b[d])
      {
        if d in g && d in g[v] {
          DirectAncestor(g, v, d);
        }
      }
      hide DepsOf, Ancestor;
      SameUpstream(ListOf(steps, v), a, b);
      SameResolved(tasks(v), a, b, nothing);
    }
  }

  /** A workflow of interpolated tasks comes to the same results in every schedule if no step can find an output that its
      task mentions in one schedule and not in another; its listed dependencies it always finds. */
  lemma SteadyMentionsAreConfluent(steps: seq<Step>, wf: Workflow, order: seq<Id>, rank: map<Id, nat>,
                                   tasks: Id -> seq<Part>, nothing: Payload, answer: Answer)
    requires T.Runnable(steps, wf, order) && Ranked(DepsOf(steps), rank)
    requires var g := DepsOf(steps); forall v, w :: v in g && w in g && Mentions(tasks(v), w) ==> !Varies(g, rank, v, w)
    ensures Confluent(steps, wf, Interpolating(steps, tasks, nothing, answer))
  {
    var g, wanted := DepsOf(steps), WantedBy(steps, tasks);
    hide T.Runnable, Ranked, Confluent, DepsOf, Varies, Interpolating, Mentions;
    forall v, w | v in g && w in g && v in wanted && w in wanted[v] ensures !Varies(g, rank, v, w) {
      if w in g[v] {
        ListedNeverVary(g, rank, v, w);
      }
    }
    InterpolatingReads(steps, tasks, nothing, answer);
    SteadyIsConfluent(steps, wf, order, rank, wanted, Interpolating(steps, tasks, nothing, answer));
  }

  lemma ListedNeverVary(g: Deps, rank: map<Id, nat>, v: Id, w: Id)
    requires Ranked(g, rank) && Dep(g, v, w)
    ensures !Varies(g, rank, v, w)
  {
    DirectAncestor(g, v, w);
    AncestorSeen(g, rank, v, w);
  }

  // ----- Agents

  // An attempt fails by a time-out or with a named error.
  datatype Failure = Failure(name: string, timedOut: bool)

  /** Without a list every error is tried again. */
  predicate Retryable(f: Failure, errors: Option<set<string>>): (again: bool)
    ensures again <==> (errors.Some? ==> f.name in errors.value || (f.timedOut && "TimeoutError" in errors.value))
  {
    match errors
    case None => true
    case Some(names) => f.name in names || (f.timedOut && "TimeoutError" in names)
  }

  function AtLeastOne(n: int): nat {
    if n > 1 then n else 1
  }

  /** Makes attempts until one is final, and records what it came to. */
  method ProcessAgent(m: M.StateMessage, id: Id, maxAttempts: int, errors: Option<set<string>>,
                      outcome: nat -> Result<Payload, Failure>)
    returns (attempts: nat)
    modifies m
    ensures 1 <= attempts && (attempts == 1 || attempts <= maxAttempts)
    ensures forall k :: 1 <= k < attempts ==> outcome(k).Err? && Retryable(outcome(k).error, errors)
    ensures outcome(attempts).Ok? || attempts >= maxAttempts || !Retryable(outcome(attempts).error, errors)
    ensures m.View() == M.WithResult(old(m.View()), id, if outcome(attempts).Ok? then Some(outcome(attempts).value) else None)
  {
    var max := AtLeastOne(maxAttempts);
    attempts := 1;
    while attempts <= max
      invariant 1 <= attempts <= max
      invariant m.View() == old(m.View())
      invariant forall k :: 1 <= k < attempts ==> outcome(k).Err? && Retryable(outcome(k).error, errors)
      decreases max - attempts
    {
      match outcome(attempts) {
        case Ok(content) =>
          m.Record(id, Some(content));
          return;
        case Err(e) =>
          if attempts >= max || !Retryable(e, errors) {
            m.Record(id, None);
            return;
          }
      }
      attempts := attempts + 1;
    }
  }

  // ----- Approvals

  // What came of waiting: someone decided, with the status then on record, or no one did in time.
  datatype Wait = Decided(status: string) | TimedOut

  function Decision(w: Wait, autoApprove: bool): string {
    match w
    case Decided(status) => status
    case TimedOut => if autoApprove then "approved" else "timed_out"
  }

  /** Succeeds only with approvals supported, a run to wait in, and an approval. */
  method ProcessApproval(m: M.StateMessage, id: Id, supported: bool, w: Wait, autoApprove: bool,
                         join: seq<(Id, Payload)> -> Payload, dependsOn: seq<Id>)
    modifies m
    ensures var was := old(m.View());
      m.View() == M.WithResult(was, id,
        if supported && was.runId.Some? && (w == Decided("approved") || (w.TimedOut? && autoApprove))
        then Some(join(Upstream(dependsOn, was.outputs))) else None)
  {
    if !supported || m.runId.None? {
      m.Record(id, None);
      return;
    }
    var upstream := Upstream(dependsOn, m.outputs);
    if Decision(w, autoApprove) != "approved" {
      m.Record(id, None);
      return;
    }
    m.Record(id, Some(join(upstream)));
  }
}
