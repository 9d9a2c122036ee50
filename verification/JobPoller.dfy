/** Polling a background job until it is done, has failed, or has been asked about often enough. */
module JobPoller {
  import opened Wrappers
  import opened Sequences
  import TextSearch

  datatype Status = Pending | Completed | Failed | Expired

  // The message that tells the chat of the end of a job.
  datatype Message = Message(status: Status, body: string)

  /** The job as it is stored, its messages, whether the scheduler knows of it, and how often its tool was called. */
  datatype Job = Job(
    status: Status,
    pollCount: nat,
    maxPolls: nat,
    lastResult: Option<string>,
    error: Option<string>,
    messages: seq<Message>,
    scheduled: bool,
    calls: nat)

  // What the poll tool gives: an error, or a text.
  datatype Tool = Broken | Answered(text: string)

  // The model that judges: there is none, setting it up raises an error, or its answer in capitals, if it gives one.
  datatype Judge = NoJudge | Raises | Judge(answer: Option<string>)

  /** What a poll meets with. posts: the final message can be stored. */
  datatype World = World(serverExists: bool, tool: Tool, judge: Judge, posts: bool)

  // ----- One poll

  /** Anything but a clear answer leaves the job pending. */
  function Classify(judge: Judge): (s: Status)
    ensures s != Expired
  {
    if !judge.Judge? || judge.answer.None? then Pending
    else if TextSearch.Find("COMPLETE", judge.answer.value).Some? then Completed
    else if TextSearch.Find("FAILED", judge.answer.value).Some? then Failed
    else Pending
  }

  const RESULT_LIMIT := 8000

  function Cut(text: string): Option<string> {
    if text == "" then None else if |text| > RESULT_LIMIT then Some(text[..RESULT_LIMIT]) else Some(text)
  }

  function Body(lastResult: Option<string>, error: Option<string>): string {
    if lastResult.Some? && lastResult.value != "" then lastResult.value else if error.Some? then error.value else ""
  }

  /** Ends the job: its message is posted and the scheduler forgets it, unless posting fails. */
  function Resolve(j: Job, status: Status, posts: bool): Job {
    var ended := j.(status := status);
    if posts then ended.(messages := j.messages + [Message(status, Body(j.lastResult, j.error))], scheduled := false) else ended
  }

  const SERVER_GONE := "MCP server no longer exists"

  /** A poll of a row: the count is stored before anything can raise an error. */
  function Polled(j: Job, w: World): Job {
    if j.status != Pending then j.(scheduled := false)
    else
      var counted := j.(pollCount := j.pollCount + 1);
      if counted.pollCount > j.maxPolls then Resolve(counted, Expired, w.posts)
      else if !w.serverExists then Resolve(counted.(error := Some(SERVER_GONE)), Failed, w.posts)
      else
        var called := counted.(calls := j.calls + 1);
        if w.tool.Broken? then called
        else
          var answered := called.(lastResult := Cut(w.tool.text));
          if Classify(w.judge) != Pending then Resolve(answered, Classify(w.judge), w.posts) else answered
  }

  /** A poll of a document: what has changed is stored together at the end. */
  function PolledMongo(j: Job, w: World): Job {
    if j.status != Pending then j.(scheduled := false)
    else if j.pollCount + 1 > j.maxPolls then Resolve(j.(pollCount := j.pollCount + 1), Expired, w.posts)
    else if !w.serverExists then Resolve(j.(pollCount := j.pollCount + 1, error := Some(SERVER_GONE)), Failed, w.posts)
    else
      var called := j.(calls := j.calls + 1);
      if w.tool.Answered? && w.judge.Raises? then called
      else
        var stored := called.(pollCount := j.pollCount + 1,
                              lastResult := if w.tool.Answered? then Cut(w.tool.text) else j.lastResult);
        if w.tool.Answered? && Classify(w.judge) != Pending then Resolve(stored, Classify(w.judge), w.posts) else stored
  }

  /** The judge is set up and that raises an error. */
  predicate SetupRaises(j: Job, w: World) {
    j.status == Pending && j.pollCount + 1 <= j.maxPolls && w.serverExists && w.tool.Answered? && w.judge.Raises?
  }

  class JobRecord {
    var status: Status
    var pollCount: nat
    const maxPolls: nat
    var lastResult: Option<string>
    var error: Option<string>
    var messages: seq<Message>
    var scheduled: bool
    var calls: nat

    function View(): Job
      reads this
    {
      Job(status, pollCount, maxPolls, lastResult, error, messages, scheduled, calls)
    }

    constructor (maxPolls: nat)
      ensures View() == NewJob(maxPolls)
    {
      status, pollCount, this.maxPolls := Pending, 0, maxPolls;
      lastResult, error, messages, scheduled, calls := None, None, [], true, 0;
    }

    /** Posts the message that the job has ended and unschedules it, if the message can be stored. */
    method Announce(verdict: Status, posts: bool)
      requires status == verdict
      modifies this
      ensures View() == Resolve(old(View()), verdict, posts)
    {
      if posts {
        messages := messages + [Message(verdict, Body(lastResult, error))];
        scheduled := false;
      }
    }

    /** The row is changed step by step, and every change is stored before anything can raise. */
    method PollSqlite(w: World)
      modifies this
      ensures View() == Polled(old(View()), w)
    {
      if status != Pending {
        scheduled := false;
        return;
      }
      pollCount := pollCount + 1;
      if pollCount > maxPolls {
        status := Expired;
        Announce(Expired, w.posts);
        return;
      }
      if !w.serverExists {
        status, error := Failed, Some(SERVER_GONE);
        Announce(Failed, w.posts);
        return;
      }
      calls := calls + 1;
      if w.tool.Broken? { return; }
      lastResult := Cut(w.tool.text);
      var verdict := Classify(w.judge);
      if verdict == Completed || verdict == Failed {
        status := verdict;
        Announce(verdict, w.posts);
      }
    }

    /** The document is read once and the changes are stored at the end: an error before that loses them. */
    method PollMongo(w: World)
      modifies this
      ensures View() == PolledMongo(old(View()), w)
    {
      if status != Pending {
        scheduled := false;
        return;
      }
      var count := pollCount + 1;
      if count > maxPolls {
        status, pollCount := Expired, count;
        Announce(Expired, w.posts);
        return;
      }
      if !w.serverExists {
        status, error, pollCount := Failed, Some(SERVER_GONE), count;
        Announce(Failed, w.posts);
        return;
      }
      calls := calls + 1;
      if w.tool.Broken? {
        pollCount := count;
        return;
      }
      if w.judge.Raises? { return; }
      var verdict := Classify(w.judge);
      pollCount, lastResult := count, Cut(w.tool.text);
      if verdict == Completed || verdict == Failed {
        status := verdict;
        Announce(verdict, w.posts);
      }
    }

    /** After a restart the scheduler is told of the pending jobs; kept: it still knew of this one. */
    method Restart(kept: bool)
      modifies this`scheduled
      ensures View() == Restarted(old(View()), kept)
      ensures scheduled <==> status == Pending || (kept && old(scheduled))
    {
      scheduled := (scheduled && kept) || status == Pending;
    }
  }

  function Restarted(j: Job, kept: bool): Job {
    j.(scheduled := (j.scheduled && kept) || j.status == Pending)
  }

  // ----- Whole runs

  datatype Event = Poll(world: World) | Restart(kept: bool)

  function NewJob(maxPolls: nat): Job {
    Job(Pending, 0, maxPolls, None, None, [], true, 0)
  }

  function Step(mongo: bool, j: Job, e: Event): Job {
    match e
    case Poll(w) => if mongo then PolledMongo(j, w) else Polled(j, w)
    case Restart(kept) => Restarted(j, kept)
  }

  function Run(mongo: bool, j: Job, events: seq<Event>): Job {
    if events == [] then j else Step(mongo, Run(mongo, j, events[..|events| - 1]), events[|events| - 1])
  }

  function Polls(events: seq<Event>): nat {
    if events == [] then 0 else Polls(events[..|events| - 1]) + if events[|events| - 1].Poll? then 1 else 0
  }

  /** A pending job is scheduled, has no message and has been polled no more than maxPolls times; an ended one has at
      most one message, which tells its status. */
  ghost predicate Sound(j: Job, maxPolls: nat) {
    && j.maxPolls == maxPolls && j.pollCount <= maxPolls + 1
    && (j.status == Pending ==> j.scheduled && j.messages == [] && j.pollCount <= maxPolls)
    && |j.messages| <= 1 && (forall m :: m in j.messages ==> m.status == j.status)
  }

  lemma {:induction false} RunSound(mongo: bool, maxPolls: nat, events: seq<Event>)
    ensures Sound(Run(mongo, NewJob(maxPolls), events), maxPolls)
  {
    if events != [] {
      RunSound(mongo, maxPolls, events[..|events| - 1]);
    }
  }

  /** A job's status leaves pending at most once; after that neither status, messages nor calls change. */
  lemma {:induction false} EndedStays(mongo: bool, maxPolls: nat, events: seq<Event>, more: seq<Event>)
    requires Run(mongo, NewJob(maxPolls), events).status != Pending
    ensures var ended, later := Run(mongo, NewJob(maxPolls), events), Run(mongo, NewJob(maxPolls), events + more);
      later.status == ended.status && later.messages == ended.messages && later.calls == ended.calls
  {
    if more == [] {
      assert events + more == events;
    } else {
      var n := |more| - 1;
      assert (events + more)[..|events| + n] == events + more[..n];
      EndedStays(mongo, maxPolls, events, more[..n]);
    }
  }

  /** Every poll of a pending job counts, so that it ends with poll number maxPolls + 1 at the latest, and its tool is
      called at most maxPolls times. */
  lemma {:induction false} SqliteEnds(maxPolls: nat, events: seq<Event>)
    ensures var j := Run(false, NewJob(maxPolls), events);
      && j.calls <= j.pollCount && j.calls <= maxPolls
      && (j.status == Pending ==> j.pollCount == Polls(events))
      && (Polls(events) > maxPolls ==> j.status != Pending)
  {
    if events != [] {
      var n := |events| - 1;
      SqliteEnds(maxPolls, events[..n]);
      RunSound(false, maxPolls, events[..n]);
    }
  }

  /** As long as messages can be stored, a job has one exactly if it has ended. */
  lemma {:induction false} EndedIsAnnounced(mongo: bool, maxPolls: nat, events: seq<Event>)
    requires forall e :: e in events && e.Poll? ==> e.world.posts
    ensures var j := Run(mongo, NewJob(maxPolls), events);
      (j.status == Pending <==> j.messages == []) && (j.status == Pending <==> j.scheduled)
  {
    if events != [] {
      EndedIsAnnounced(mongo, maxPolls, events[..|events| - 1]);
      RunSound(mongo, maxPolls, events[..|events| - 1]);
    }
  }

  // ----- What one poll comes to

  /** The poll gets as far as calling the tool and hearing its answer, and setting up the judge does not undo that. */
  predicate Heard(mongo: bool, j: Job, w: World) {
    && j.status == Pending && j.pollCount < j.maxPolls && w.serverExists && w.tool.Answered?
    && !(mongo && w.judge.Raises?)
  }

  /** The tool's last answer, or "" if there has been none. */
  function LastAnswer(mongo: bool, maxPolls: nat, events: seq<Event>): string {
    if events == [] then "" else
      var n := |events| - 1;
      if events[n].Poll? && Heard(mongo, Run(mongo, NewJob(maxPolls), events[..n]), events[n].world)
      then events[n].world.tool.text else LastAnswer(mongo, maxPolls, events[..n])
  }

  /** text, or as much of it as is kept. */
  predicate Shortened(text: string, kept: string) {
    kept == if |text| <= 8000 then text else text[..8000]
  }

  /** A pending job keeps the last answer, shortened, and has no error yet. */
  lemma {:induction false} KeepsLastAnswer(mongo: bool, maxPolls: nat, events: seq<Event>)
    ensures var j, answer := Run(mongo, NewJob(maxPolls), events), LastAnswer(mongo, maxPolls, events);
      && (answer == "" ==> j.lastResult.None?)
      && (answer != "" ==> j.lastResult.Some? && Shortened(answer, j.lastResult.value))
      && (j.status == Pending ==> j.error.None?)
  {
    if events != [] {
      KeepsLastAnswer(mongo, maxPolls, events[..|events| - 1]);
    }
  }

  /** What the judge has said holds word. */
  predicate Says(judge: Judge, word: string) {
    judge.Judge? && judge.answer.Some? && exists k :: 0 <= k <= |judge.answer.value| && TextSearch.At(word, judge.answer.value, k)
  }

  lemma SaysIff(judge: Judge, word: string)
    requires judge.Judge? && judge.answer.Some?
    ensures Says(judge, word) <==> TextSearch.Find(word, judge.answer.value).Some?
  {
    var found := TextSearch.Find(word, judge.answer.value);
    if found.Some? {
      assert TextSearch.At(word, judge.answer.value, found.value);
    }
  }

  /** How a poll of a pending job leaves it, in either store: out of polls it expires; without its server it fails;
      otherwise the judge's word on the tool's answer decides, COMPLETE before FAILED, and without either it stays
      pending. The count goes up, unless setting up the judge has raised in the document store. */
  lemma PollDecides(mongo: bool, maxPolls: nat, events: seq<Event>, w: World)
    requires Run(mongo, NewJob(maxPolls), events).status == Pending
    ensures var j, j' := Run(mongo, NewJob(maxPolls), events), Run(mongo, NewJob(maxPolls), events + [Poll(w)]);
      var expired, gone := j.pollCount + 1 > maxPolls, !w.serverExists;
      var complete := w.tool.Answered? && Says(w.judge, "COMPLETE");
      var failed := w.tool.Answered? && Says(w.judge, "FAILED") && !complete;
      && (j'.status == Expired <==> expired)
      && (j'.status == Failed <==> !expired && (gone || failed))
      && (j'.status == Completed <==> !expired && !gone && complete)
      && (j'.status == Pending <==> !expired && !gone && !complete && !failed)
      && j'.pollCount == j.pollCount + (if mongo && SetupRaises(j, w) then 0 else 1)
      && j'.calls == j.calls + (if expired || gone then 0 else 1)
  {
    assert (events + [Poll(w)])[..|events|] == events;
    RunKeepsMax(mongo, maxPolls, events);
    if w.judge.Judge? && w.judge.answer.Some? {
      SaysIff(w.judge, "COMPLETE");
      SaysIff(w.judge, "FAILED");
    }
  }

  /** And what it tells the chat: nothing while the job is pending or when messages cannot be stored, else one message
      with the job's status and the tool's last answer, shortened, or the reason for failing if there was none. */
  lemma PollTells(mongo: bool, maxPolls: nat, events: seq<Event>, w: World)
    requires Run(mongo, NewJob(maxPolls), events).status == Pending
    ensures var j, j' := Run(mongo, NewJob(maxPolls), events), Run(mongo, NewJob(maxPolls), events + [Poll(w)]);
      var answer := LastAnswer(mongo, maxPolls, events + [Poll(w)]);
      && j.messages == []
      && (j'.status == Pending || !w.posts ==> j'.messages == [] && j'.scheduled)
      && (j'.status != Pending && w.posts ==>
            && |j'.messages| == 1 && !j'.scheduled && j'.messages[0].status == j'.status
            && (answer != "" ==> Shortened(answer, j'.messages[0].body))
            && (answer == "" && j.pollCount < maxPolls && !w.serverExists ==>
                  j'.messages[0].body == "MCP server no longer exists")
            && (answer == "" && (j.pollCount >= maxPolls || w.serverExists) ==> j'.messages[0].body == ""))
  {
    hide *;
    OneMorePoll(mongo, maxPolls, events, w);
    RunKeepsMax(mongo, maxPolls, events);
    RunSound(mongo, maxPolls, events);
    SoundPending(Run(mongo, NewJob(maxPolls), events), maxPolls);
    KeepsLastAnswer(mongo, maxPolls, events);
    StepTells(mongo, Run(mongo, NewJob(maxPolls), events), w);
    KeepsLastAnswer(mongo, maxPolls, events + [Poll(w)]);
    BodyIs(LastAnswer(mongo, maxPolls, events + [Poll(w)]), Run(mongo, NewJob(maxPolls), events + [Poll(w)]));
  }

  lemma OneMorePoll(mongo: bool, maxPolls: nat, events: seq<Event>, w: World)
    ensures Run(mongo, NewJob(maxPolls), events + [Poll(w)]) == Step(mongo, Run(mongo, NewJob(maxPolls), events), Poll(w))
  {
    assert (events + [Poll(w)])[..|events|] == events;
    hide Step;
  }

  lemma SoundPending(j: Job, maxPolls: nat)
    requires Sound(j, maxPolls) && j.status == Pending
    ensures j.messages == [] && j.scheduled
  {
  }

  lemma BodyIs(answer: string, j: Job)
    requires answer == "" ==> j.lastResult.None?
    requires answer != "" ==> j.lastResult.Some? && Shortened(answer, j.lastResult.value)
    ensures answer != "" ==> Shortened(answer, Body(j.lastResult, j.error))
    ensures answer == "" ==> Body(j.lastResult, j.error) == if j.error.Some? then j.error.value else ""
  {
  }

  /** What a poll tells, from the result and the error it leaves. */
  lemma StepTells(mongo: bool, j: Job, w: World)
    requires j.status == Pending && j.messages == [] && j.scheduled && j.error.None?
    ensures var j' := Step(mongo, j, Poll(w));
      && (j'.status == Pending || !w.posts ==> j'.messages == [] && j'.scheduled)
      && (j'.status != Pending && w.posts ==>
            j'.messages == [Message(j'.status, Body(j'.lastResult, j'.error))] && !j'.scheduled)
      && j'.error == if j.pollCount < j.maxPolls && !w.serverExists then Some("MCP server no longer exists") else None
  {
  }

  // ----- The two stores

  /** Event number k is a poll in which setting up the judge raises an error, in the run so far. */
  predicate RaisesAt(mongo: bool, maxPolls: nat, events: seq<Event>, k: nat) {
    k < |events| && events[k].Poll? && SetupRaises(Run(mongo, NewJob(maxPolls), events[..k]), events[k].world)
  }

  lemma StoresStepAlike(j: Job, w: World)
    requires !SetupRaises(j, w)
    ensures PolledMongo(j, w) == Polled(j, w)
  {
  }

  /** What keeps a document and a row apart once a count has been lost: it stays lost, or more calls are made for it, or
      the two have ended differently. */
  ghost predicate Apart(document: Job, row: Job) {
    || (document.status == Pending && row.status == Pending && document.pollCount < row.pollCount &&
        document.calls == row.calls)
    || (row.status != Pending && document.calls > row.calls)
    || (row.status != Pending && document.status != Pending &&
        (document.pollCount != row.pollCount || document.status != row.status))
  }

  lemma StaysApart(document: Job, row: Job, e: Event)
    requires Apart(document, row) && document.maxPolls == row.maxPolls
    ensures Apart(Step(true, document, e), Step(false, row, e))
  {
  }

  lemma {:induction false} RunKeepsMax(mongo: bool, maxPolls: nat, events: seq<Event>)
    ensures Run(mongo, NewJob(maxPolls), events).maxPolls == maxPolls
  {
    RunSound(mongo, maxPolls, events);
  }

  lemma ApartFrom(j: Job, w: World)
    requires SetupRaises(j, w)
    ensures Apart(PolledMongo(j, w), Polled(j, w))
  {
  }

  lemma {:induction false} ApartOnceRaised(maxPolls: nat, events: seq<Event>, k: nat)
    requires RaisesAt(false, maxPolls, events, k)
    ensures Apart(Run(true, NewJob(maxPolls), events), Run(false, NewJob(maxPolls), events))
    decreases |events|
  {
    hide Apart, SetupRaises, Polled, PolledMongo;
    var n := |events| - 1;
    if i :| 0 <= i < n && RaisesAt(false, maxPolls, events, i) {
      assert events[..n][..i] == events[..i];
      ApartOnceRaised(maxPolls, events[..n], i);
      RunKeepsMax(true, maxPolls, events[..n]);
      RunKeepsMax(false, maxPolls, events[..n]);
      StaysApart(Run(true, NewJob(maxPolls), events[..n]), Run(false, NewJob(maxPolls), events[..n]), events[n]);
    } else {
      StoresRunAlikeUntil(maxPolls, events, n);
      ApartFrom(Run(false, NewJob(maxPolls), events[..n]), events[n].world);
    }
  }

  /** Up to a poll in which the judge cannot be set up the two stores do the same. */
  lemma {:induction false} StoresRunAlikeUntil(maxPolls: nat, events: seq<Event>, n: nat)
    requires n <= |events| && forall i :: 0 <= i < n ==> !RaisesAt(false, maxPolls, events, i)
    ensures Run(true, NewJob(maxPolls), events[..n]) == Run(false, NewJob(maxPolls), events[..n])
  {
    if n > 0 {
      StoresRunAlikeUntil(maxPolls, events, n - 1);
      assert events[..n][..n - 1] == events[..n - 1] && !RaisesAt(false, maxPolls, events, n - 1);
      if events[n - 1].Poll? {
        StoresStepAlike(Run(false, NewJob(maxPolls), events[..n - 1]), events[n - 1].world);
      }
    }
  }

  /** A run over documents comes to the same as one over rows exactly if no poll of the latter reaches a judge that cannot
      be set up: a lost count is never made good. */
  lemma StoresRunAlikeIff(maxPolls: nat, events: seq<Event>)
    ensures Run(true, NewJob(maxPolls), events) == Run(false, NewJob(maxPolls), events) <==>
            forall k :: !RaisesAt(false, maxPolls, events, k)
  {
    if k: nat :| RaisesAt(false, maxPolls, events, k) {
      ApartOnceRaised(maxPolls, events, k);
    } else {
      StoresRunAlikeUntil(maxPolls, events, |events|);
      assert events[..|events|] == events;
    }
  }

  /** How many polls of a document reach a judge that cannot be set up. */
  function Lost(maxPolls: nat, events: seq<Event>): nat {
    if events == [] then 0 else
      var n := |events| - 1;
      Lost(maxPolls, events[..n]) + if RaisesAt(true, maxPolls, events, n) then 1 else 0
  }

  /** The bound on calls that documents keep: one more for every count that was lost. */
  lemma {:induction false} MongoCalls(maxPolls: nat, events: seq<Event>)
    ensures var j := Run(true, NewJob(maxPolls), events);
      && j.calls <= maxPolls + Lost(maxPolls, events)
      && (j.status == Pending ==> j.pollCount + Lost(maxPolls, events) == Polls(events))
      && (Polls(events) > maxPolls + Lost(maxPolls, events) ==> j.status != Pending)
  {
    MongoCounts(maxPolls, events);
    RunSound(true, maxPolls, events);
  }

  lemma {:induction false} MongoCounts(maxPolls: nat, events: seq<Event>)
    ensures var j := Run(true, NewJob(maxPolls), events);
      && j.calls <= j.pollCount + Lost(maxPolls, events) && j.calls <= maxPolls + Lost(maxPolls, events)
      && (j.status == Pending ==> j.pollCount + Lost(maxPolls, events) == Polls(events))
  {
    if events != [] {
      var n := |events| - 1;
      MongoCounts(maxPolls, events[..n]);
      RunSound(true, maxPolls, events[..n]);
    }
  }

  /** With a judge that cannot be set up the document store calls the tool again and again, however small maxPolls. */
  lemma {:induction false} MongoNeverEnds(maxPolls: nat, text: string, n: nat)
    requires maxPolls > 0
    ensures var j := Run(true, NewJob(maxPolls), Repeat(Poll(World(true, Answered(text), Raises, true)), n));
      j.status == Pending && j.calls == n && j.pollCount == 0 && j.maxPolls == maxPolls
  {
    if n > 0 {
      var e := Poll(World(true, Answered(text), Raises, true));
      MongoNeverEnds(maxPolls, text, n - 1);
      assert Repeat(e, n)[..n - 1] == Repeat(e, n - 1);
    }
  }

  // ----- What the judge says

  /** What the judge is asked to say: exactly one of three words. */
  function Meant(answer: string): Status {
    if answer == "COMPLETE" then Completed else if answer == "FAILED" then Failed else Pending
  }

  predicate Mentions(answer: string, word: string) {
    TextSearch.Find(word, answer).Some?
  }

  /** An answer is taken as it is meant exactly if it is one of the two words, or mentions neither of them. */
  lemma ClassifiedAsMeantIff(answer: string)
    ensures Classify(Judge(Some(answer))) == Meant(answer) <==>
            answer == "COMPLETE" || answer == "FAILED" || (!Mentions(answer, "COMPLETE") && !Mentions(answer, "FAILED"))
  {
    if answer == "COMPLETE" {
      assert answer[0..|"COMPLETE"|] == "COMPLETE" && TextSearch.At("COMPLETE", answer, 0);
    } else if answer == "FAILED" {
      assert answer[0..|"FAILED"|] == "FAILED" && TextSearch.At("FAILED", answer, 0);
    }
  }

  /** An answer that denies completion is taken for one that affirms it. */
  lemma IncompleteCountsAsComplete()
    ensures Classify(Judge(Some("INCOMPLETE"))) == Completed
  {
    assert "INCOMPLETE"[2..2 + |"COMPLETE"|] == "COMPLETE";
    assert TextSearch.At("COMPLETE", "INCOMPLETE", 2);
  }
}
