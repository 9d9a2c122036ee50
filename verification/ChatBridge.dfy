/** One socket of the chat bridge: messages of a chat are held back until it has been quiet for a while, and each message
    is taken once even if it arrives twice. */
module ChatBridge {
  import opened Wrappers
  import opened Sequences

  type Chat(==, !new)
  type MsgId(==, !new)
  type Text(==, !new)

  const DEBOUNCE_MS := 3000
  const SEEN_LIMIT := 500

  datatype Entry = Entry(id: MsgId, text: Text)

  datatype Buffer = Buffer(msgs: seq<Entry>, timer: nat)

  datatype Timer = Timer(chat: Chat, due: nat)

  /** seen lists the ids in the order in which they were added; transcribing are the voice notes being transcribed. */
  datatype Bridge = Bridge(
    now: nat,
    nextTimer: nat,
    buffers: map<Chat, Buffer>,
    timers: map<nat, Timer>,
    seen: seq<MsgId>,
    transcribing: seq<(MsgId, Chat)>)

  const NEW_BRIDGE := Bridge(0, 0, map[], map[], [], [])

  /** What can happen, one turn of the event loop each. Message and Update carry no text when nothing is readable;
      Own is a message the bot itself has sent. */
  datatype Event =
    | Message(id: MsgId, chat: Chat, text: Option<Text>)
    | Voice(id: MsgId, chat: Chat)
    | Transcribed(note: nat, text: Option<Text>)
    | Update(id: MsgId, chat: Chat, text: Option<Text>)
    | Own(id: MsgId)
    | Fire(timer: nat)
    | Elapse(ms: nat)

  // ----- One turn

  /** Adds an id that is not there yet; evicting drops the oldest one once there are more than the limit. */
  function Marked(b: Bridge, id: MsgId, evicting: bool): Bridge {
    if id in b.seen then b else
      var seen := b.seen + [id];
      b.(seen := if evicting && |seen| > SEEN_LIMIT then seen[1..] else seen)
  }

  /** Puts an entry into its chat's buffer and starts the chat's time of quiet anew. */
  function Pushed(b: Bridge, chat: Chat, e: Entry): Bridge {
    var held := if chat in b.buffers then b.buffers[chat].msgs else [];
    var timers := if chat in b.buffers then b.timers - {b.buffers[chat].timer} else b.timers;
    b.(buffers := b.buffers[chat := Buffer(held + [e], b.nextTimer)],
       timers := timers[b.nextTimer := Timer(chat, b.now + DEBOUNCE_MS)], nextTimer := b.nextTimer + 1)
  }

  /** The timer runs out, and the buffer of its chat goes out. */
  function Flushed(b: Bridge, t: nat): Bridge
    requires t in b.timers
  {
    b.(timers := b.timers - {t}, buffers := b.buffers - {b.timers[t].chat})
  }

  predicate Enabled(b: Bridge, e: Event) {
    match e
    case Transcribed(k, _) => k < |b.transcribing|
    case Fire(t) => t in b.timers && b.timers[t].due <= b.now
    case _ => true
  }

  function Step(b: Bridge, e: Event): Bridge {
    if !Enabled(b, e) then b else
    match e
    case Message(id, chat, text) =>
      if id in b.seen || text.None? then b else Pushed(Marked(b, id, true), chat, Entry(id, text.value))
    case Voice(id, chat) =>
      if id in b.seen then b else Marked(b, id, true).(transcribing := b.transcribing + [(id, chat)])
    case Transcribed(k, text) =>
      var (id, chat) := b.transcribing[k];
      var done := b.(transcribing := Without(b.transcribing, k));
      if text.None? then done else Pushed(Marked(done, id, true), chat, Entry(id, text.value))
    case Update(id, chat, text) =>
      if id in b.seen then b else
        var marked := Marked(b, id, false);
        if text.None? then marked else Pushed(marked, chat, Entry(id, text.value))
    case Own(id) => Marked(b, id, false)
    case Fire(t) => Flushed(b, t)
    case Elapse(ms) => b.(now := b.now + ms)
  }

  /** after is before with e at the end of the chat's buffer. */
  ghost predicate Buffered(before: map<Chat, Buffer>, after: map<Chat, Buffer>, chat: Chat, e: Entry) {
    && chat in after && after[chat].msgs == (if chat in before then before[chat].msgs else []) + [e]
    && forall c :: c != chat ==> (c in after <==> c in before) && (c in after && c in before ==> after[c] == before[c])
  }

  /** A socket of the bridge. */
  class Socket {
    var now: nat
    var nextTimer: nat
    var chatBuffers: map<Chat, Buffer>
    var timers: map<nat, Timer>
    var seenMsgIds: seq<MsgId>
    var transcribing: seq<(MsgId, Chat)>

    function View(): Bridge
      reads this
    {
      Bridge(now, nextTimer, chatBuffers, timers, seenMsgIds, transcribing)
    }

    constructor ()
      ensures View() == NEW_BRIDGE
    {
      now, nextTimer, chatBuffers, timers, seenMsgIds, transcribing := 0, 0, map[], map[], [], [];
    }

    method Mark(id: MsgId, evicting: bool)
      modifies this`seenMsgIds
      ensures View() == Marked(old(View()), id, evicting)
      ensures id in old(seenMsgIds) ==> seenMsgIds == old(seenMsgIds)
      ensures id !in old(seenMsgIds) && !(evicting && |old(seenMsgIds)| >= 500) ==> seenMsgIds == old(seenMsgIds) + [id]
      ensures id !in old(seenMsgIds) && evicting && |old(seenMsgIds)| >= 500 ==> seenMsgIds == old(seenMsgIds)[1..] + [id]
    {
      if id !in seenMsgIds {
        seenMsgIds := seenMsgIds + [id];
        if evicting && |seenMsgIds| > SEEN_LIMIT {
          seenMsgIds := seenMsgIds[1..];
        }
      }
    }

    method Push(chat: Chat, e: Entry)
      modifies this`chatBuffers, this`timers, this`nextTimer
      ensures View() == Pushed(old(View()), chat, e)
      ensures Buffered(old(chatBuffers), chatBuffers, chat, e)
      ensures chatBuffers[chat].timer in timers && timers[chatBuffers[chat].timer] == Timer(chat, now + 3000)
      ensures chat in old(chatBuffers) && old(chatBuffers[chat].timer) != old(nextTimer) ==>
        old(chatBuffers[chat].timer) !in timers
    {
      if chat in chatBuffers {
        timers := timers - {chatBuffers[chat].timer};
        chatBuffers := chatBuffers[chat := Buffer(chatBuffers[chat].msgs + [e], nextTimer)];
      } else {
        chatBuffers := chatBuffers[chat := Buffer([e], nextTimer)];
      }
      assert [] + [e] == [e];
      timers := timers[nextTimer := Timer(chat, now + DEBOUNCE_MS)];
      nextTimer := nextTimer + 1;
    }

    method OnMessage(id: MsgId, chat: Chat, text: Option<Text>)
      modifies this
      ensures View() == Step(old(View()), Message(id, chat, text))
      ensures id in old(seenMsgIds) || text.None? ==> View() == old(View())
      ensures id !in old(seenMsgIds) && text.Some? ==> id in seenMsgIds
      ensures id !in old(seenMsgIds) && text.Some? ==> Buffered(old(chatBuffers), chatBuffers, chat, Entry(id, text.value))
    {
      if id in seenMsgIds { return; }
      if text.None? { return; }
      Mark(id, true);
      Push(chat, Entry(id, text.value));
    }

    method OnVoice(id: MsgId, chat: Chat)
      modifies this
      ensures View() == Step(old(View()), Voice(id, chat))
      ensures id in old(seenMsgIds) ==> View() == old(View())
      ensures id !in old(seenMsgIds) ==> id in seenMsgIds && transcribing == old(transcribing) + [(id, chat)]
      ensures chatBuffers == old(chatBuffers)
    {
      if id in seenMsgIds { return; }
      Mark(id, true);
      transcribing := transcribing + [(id, chat)];
    }

    method OnTranscribed(k: nat, text: Option<Text>)
      requires k < |transcribing|
      modifies this
      ensures View() == Step(old(View()), Transcribed(k, text))
      ensures transcribing == old(transcribing)[..k] + old(transcribing)[k + 1..]
      ensures text.None? ==> chatBuffers == old(chatBuffers)
      ensures text.Some? ==>
        Buffered(old(chatBuffers), chatBuffers, old(transcribing)[k].1, Entry(old(transcribing)[k].0, text.value))
    {
      var note := transcribing[k];
      transcribing := Without(transcribing, k);
      if text.None? { return; }
      Mark(note.0, true);
      Push(note.1, Entry(note.0, text.value));
    }

    method OnUpdate(id: MsgId, chat: Chat, text: Option<Text>)
      modifies this
      ensures View() == Step(old(View()), Update(id, chat, text))
      ensures id in old(seenMsgIds) ==> View() == old(View())
      ensures id !in old(seenMsgIds) ==> seenMsgIds == old(seenMsgIds) + [id]
      ensures id !in old(seenMsgIds) && text.None? ==> chatBuffers == old(chatBuffers)
      ensures id !in old(seenMsgIds) && text.Some? ==> Buffered(old(chatBuffers), chatBuffers, chat, Entry(id, text.value))
    {
      if id in seenMsgIds { return; }
      Mark(id, false);
      if text.None? { return; }
      Push(chat, Entry(id, text.value));
    }

    /** The timer has run out: the chat's buffer goes to the backend. */
    method FlushChat(t: nat) returns (chat: Chat, batch: seq<Entry>)
      requires t in timers && timers[t].due <= now
      modifies this
      ensures View() == Step(old(View()), Fire(t))
      ensures chat !in chatBuffers && t !in timers && seenMsgIds == old(seenMsgIds)
      ensures chat == old(timers[t].chat) && batch == if chat in old(chatBuffers) then old(chatBuffers[chat].msgs) else []
    {
      chat, batch := timers[t].chat, [];
      timers := timers - {t};
      if chat in chatBuffers {
        batch := chatBuffers[chat].msgs;
      }
      chatBuffers := chatBuffers - {chat};
    }
  }

  // ----- Whole runs

  /** What has happened: entries as they were taken, with the time; batches as they went out, with the time; and ids as
      they were marked. */
  datatype History = History(taken: seq<(Chat, Entry, nat)>, flushed: seq<(Chat, seq<Entry>, nat)>, marks: seq<MsgId>)

  /** The entry an event takes, and for which chat. */
  function Takes(b: Bridge, e: Event): Option<(Chat, Entry)> {
    match e
    case Message(id, chat, text) => if id in b.seen || text.None? then None else Some((chat, Entry(id, text.value)))
    case Transcribed(k, text) =>
      if k >= |b.transcribing| || text.None? then None else Some((b.transcribing[k].1, Entry(b.transcribing[k].0, text.value)))
    case Update(id, chat, text) => if id in b.seen || text.None? then None else Some((chat, Entry(id, text.value)))
    case _ => None
  }

  /** The id an event marks as seen. */
  function Marks(b: Bridge, e: Event): Option<MsgId> {
    match e
    case Message(id, _, text) => if id in b.seen || text.None? then None else Some(id)
    case Voice(id, _) => if id in b.seen then None else Some(id)
    case Transcribed(k, text) =>
      if k >= |b.transcribing| || text.None? || b.transcribing[k].0 in b.seen then None else Some(b.transcribing[k].0)
    case Update(id, _, _) => if id in b.seen then None else Some(id)
    case Own(id) => if id in b.seen then None else Some(id)
    case _ => None
  }

  function Noted(h: History, b: Bridge, e: Event): History {
    var taken := if Takes(b, e).Some? then h.taken + [(Takes(b, e).value.0, Takes(b, e).value.1, b.now)] else h.taken;
    var flushed := if e.Fire? && Enabled(b, e) && b.timers[e.timer].chat in b.buffers
                   then h.flushed + [(b.timers[e.timer].chat, b.buffers[b.timers[e.timer].chat].msgs, b.now)] else h.flushed;
    History(taken, flushed, if Marks(b, e).Some? then h.marks + [Marks(b, e).value] else h.marks)
  }

  function Run(events: seq<Event>): (Bridge, History) {
    if events == [] then (NEW_BRIDGE, History([], [], [])) else
      var (b, h) := Run(events[..|events| - 1]);
      (Step(b, events[|events| - 1]), Noted(h, b, events[|events| - 1]))
  }

  /** The entries taken for one chat. */
  function TakenFor(taken: seq<(Chat, Entry, nat)>, chat: Chat): seq<Entry> {
    if taken == [] then [] else
      var n := |taken| - 1;
      if taken[n].0 == chat then TakenFor(taken[..n], chat) + [taken[n].1] else TakenFor(taken[..n], chat)
  }

  function FlushedFor(flushed: seq<(Chat, seq<Entry>, nat)>, chat: Chat): seq<Entry> {
    if flushed == [] then [] else
      var n := |flushed| - 1;
      if flushed[n].0 == chat then FlushedFor(flushed[..n], chat) + flushed[n].1 else FlushedFor(flushed[..n], chat)
  }

  function Pending(b: Bridge, chat: Chat): seq<Entry> {
    if chat in b.buffers then b.buffers[chat].msgs else []
  }

  /** The time at which an entry was last taken for a chat. */
  function LastTaken(taken: seq<(Chat, Entry, nat)>, chat: Chat): Option<nat> {
    if taken == [] then None else
      var n := |taken| - 1;
      if taken[n].0 == chat then Some(taken[n].2) else LastTaken(taken[..n], chat)
  }

  // ----- Buffers and timers

  /** A chat has a buffer exactly when it has a live timer, and then it has one only. */
  ghost predicate Timed(b: Bridge) {
    && (forall c :: c in b.buffers ==> b.buffers[c].timer in b.timers && b.timers[b.buffers[c].timer].chat == c)
    && (forall t :: t in b.timers ==> b.timers[t].chat in b.buffers && b.buffers[b.timers[t].chat].timer == t)
    && (forall t :: t in b.timers ==> t < b.nextTimer)
  }

  ghost predicate Conserved(b: Bridge, h: History, chat: Chat) {
    FlushedFor(h.flushed, chat) + Pending(b, chat) == TakenFor(h.taken, chat)
  }

  /** The timer of a chat is set to the end of its time of quiet. */
  ghost predicate Due(b: Bridge, h: History) {
    forall t :: t in b.timers ==>
      LastTaken(h.taken, b.timers[t].chat).Some? && b.timers[t].due == LastTaken(h.taken, b.timers[t].chat).value + DEBOUNCE_MS
  }

  /** Nothing about buffers and timers differs. */
  ghost predicate SameBuffers(a: Bridge, b: Bridge) {
    a.buffers == b.buffers && a.timers == b.timers && a.nextTimer == b.nextTimer
  }

  predicate Fires(b: Bridge, e: Event) {
    e.Fire? && Enabled(b, e)
  }

  /** A turn takes an entry, flushes a buffer, or leaves buffers and timers alone. */
  lemma StepKinds(b: Bridge, e: Event) returns (mid: Bridge)
    ensures SameBuffers(b, mid)
    ensures Takes(b, e).Some? ==> mid.now == b.now && Step(b, e) == Pushed(mid, Takes(b, e).value.0, Takes(b, e).value.1)
    ensures Fires(b, e) ==> Takes(b, e).None? && mid == b && Step(b, e) == Flushed(b, e.timer)
    ensures Takes(b, e).None? && !Fires(b, e) ==> mid == Step(b, e)
  {
    match e
    case Message(id, _, text) => mid := if Takes(b, e).Some? then Marked(b, id, true) else Step(b, e);
    case Transcribed(k, text) =>
      mid := if Takes(b, e).Some? then Marked(b.(transcribing := Without(b.transcribing, k)), b.transcribing[k].0, true) else Step(b, e);
    case Update(id, _, _) => mid := if Takes(b, e).Some? then Marked(b, id, false) else Step(b, e);
    case _ => mid := if Fires(b, e) then b else Step(b, e);
  }

  lemma StepTimed(b: Bridge, e: Event)
    requires Timed(b)
    ensures Timed(Step(b, e))
  {
    hide Step, Takes;
    var mid := StepKinds(b, e);
  }

  lemma {:induction false} RunTimed(events: seq<Event>)
    ensures Timed(Run(events).0)
  {
    if events != [] {
      RunTimed(events[..|events| - 1]);
      StepTimed(Run(events[..|events| - 1]).0, events[|events| - 1]);
    }
  }

  lemma TakenMore(h: History, b: Bridge, e: Event, chat: Chat)
    ensures TakenFor(Noted(h, b, e).taken, chat) == TakenFor(h.taken, chat) +
      if Takes(b, e).Some? && Takes(b, e).value.0 == chat then [Takes(b, e).value.1] else []
    ensures LastTaken(Noted(h, b, e).taken, chat) ==
      if Takes(b, e).Some? && Takes(b, e).value.0 == chat then Some(b.now) else LastTaken(h.taken, chat)
  {
    hide Takes, Marks, Enabled;
    var taken := Noted(h, b, e).taken;
    if Takes(b, e).Some? {
      assert taken[..|taken| - 1] == h.taken;
    }
  }

  lemma FlushedMore(h: History, b: Bridge, e: Event, chat: Chat)
    ensures FlushedFor(Noted(h, b, e).flushed, chat) == FlushedFor(h.flushed, chat) +
      if Fires(b, e) && b.timers[e.timer].chat == chat then Pending(b, chat) else []
  {
    hide Takes, Marks;
    var flushed := Noted(h, b, e).flushed;
    if Fires(b, e) && b.timers[e.timer].chat in b.buffers {
      assert flushed[..|flushed| - 1] == h.flushed;
    }
  }

  lemma StepConserved(b: Bridge, h: History, e: Event, chat: Chat)
    requires Conserved(b, h, chat)
    ensures Conserved(Step(b, e), Noted(h, b, e), chat)
  {
    hide Step, Takes, Noted, Fires;
    var mid := StepKinds(b, e);
    TakenMore(h, b, e, chat);
    FlushedMore(h, b, e, chat);
  }

  /** Nothing is lost, doubled or moved: at every moment, the batches a chat has sent out and its buffer together are the
      entries taken for it, in the order in which they were taken. */
  lemma {:induction false} RunConserved(events: seq<Event>, chat: Chat)
    ensures Conserved(Run(events).0, Run(events).1, chat)
  {
    if events != [] {
      RunConserved(events[..|events| - 1], chat);
      StepConserved(Run(events[..|events| - 1]).0, Run(events[..|events| - 1]).1, events[|events| - 1], chat);
    }
  }

  lemma StepDue(b: Bridge, h: History, e: Event)
    requires Timed(b) && Due(b, h)
    ensures Due(Step(b, e), Noted(h, b, e))
  {
    hide Step, Takes, Noted, Fires, Enabled;
    var mid := StepKinds(b, e);
    var b', h' := Step(b, e), Noted(h, b, e);
    forall t | t in b'.timers
      ensures LastTaken(h'.taken, b'.timers[t].chat).Some?
      ensures b'.timers[t].due == LastTaken(h'.taken, b'.timers[t].chat).value + DEBOUNCE_MS
    {
      TakenMore(h, b, e, b'.timers[t].chat);
    }
  }

  lemma {:induction false} RunDue(events: seq<Event>)
    ensures Due(Run(events).0, Run(events).1)
  {
    if events != [] {
      RunDue(events[..|events| - 1]);
      RunTimed(events[..|events| - 1]);
      StepDue(Run(events[..|events| - 1]).0, Run(events[..|events| - 1]).1, events[|events| - 1]);
    }
  }

  /** A batch goes out only when nothing has been taken for its chat for the time of quiet, and it is never empty. */
  lemma FlushedAfterQuiet(events: seq<Event>, t: nat)
    requires Enabled(Run(events).0, Fire(t))
    ensures var (b, h), (b', h') := Run(events), Run(events + [Fire(t)]);
      var chat := b.timers[t].chat;
      && LastTaken(h.taken, chat).Some? && b.now >= LastTaken(h.taken, chat).value + DEBOUNCE_MS
      && chat in b.buffers && h'.flushed == h.flushed + [(chat, b.buffers[chat].msgs, b.now)] && chat !in b'.buffers
  {
    RunDue(events);
    RunTimed(events);
    assert (events + [Fire(t)])[..|events|] == events;
  }

  // ----- Taking each message once

  /** What is seen is the most recently marked ids, without repetition; the oldest give way only above the limit. */
  ghost predicate Recent(b: Bridge, marks: seq<MsgId>) {
    && IsEnd(b.seen, marks) && Distinct(b.seen)
    && (|b.seen| == |marks| || |b.seen| >= SEEN_LIMIT)
  }

  lemma MarkedRecent(b: Bridge, marks: seq<MsgId>, id: MsgId, evicting: bool)
    requires Recent(b, marks) && id !in b.seen
    ensures Recent(Marked(b, id, evicting), marks + [id])
  {
    hide IsEnd;
    EndGrows(b.seen, marks, id);
    EndDrops(b.seen + [id], marks + [id]);
    assert Distinct(b.seen + [id]);
  }

  /** How an event changes what is seen. */
  lemma StepSeen(b: Bridge, e: Event)
    ensures Step(b, e).seen == if Marks(b, e).Some? then Marked(b, Marks(b, e).value, !(e.Update? || e.Own?)).seen else b.seen
    ensures Marks(b, e).Some? ==> Marks(b, e).value !in b.seen
  {
  }

  lemma {:induction false} RunRecent(events: seq<Event>)
    ensures Recent(Run(events).0, Run(events).1.marks)
  {
    if events != [] {
      var e := events[|events| - 1];
      var (b, h) := Run(events[..|events| - 1]);
      RunRecent(events[..|events| - 1]);
      StepSeen(b, e);
      if Marks(b, e).Some? {
        MarkedRecent(b, h.marks, Marks(b, e).value, !(e.Update? || e.Own?));
      }
      hide Step, Marks, Takes;
    }
  }

  /** How many ids have been marked without making room. */
  function Unevicted(events: seq<Event>): nat {
    if events == [] then 0 else
      var n := |events| - 1;
      Unevicted(events[..n]) +
      if (events[n].Update? || events[n].Own?) && Marks(Run(events[..n]).0, events[n]).Some? then 1 else 0
  }

  lemma MarkedSize(b: Bridge, id: MsgId, evicting: bool, n: nat)
    requires |b.seen| <= 500 + n
    ensures |Marked(b, id, evicting).seen| <= 500 + n + if evicting then 0 else 1
  {
  }

  /** Apart from ids that were marked without making room, no more than the limit are ever seen. */
  lemma {:induction false} SeenIsBounded(events: seq<Event>)
    ensures |Run(events).0.seen| <= 500 + Unevicted(events)
  {
    if events != [] {
      var e := events[|events| - 1];
      var (b, h) := Run(events[..|events| - 1]);
      SeenIsBounded(events[..|events| - 1]);
      StepSeen(b, e);
      if Marks(b, e).Some? {
        MarkedSize(b, Marks(b, e).value, !(e.Update? || e.Own?), Unevicted(events[..|events| - 1]));
      }
      hide Step, Marks, Takes, Marked;
    }
  }

  lemma RecentSeen(b: Bridge, marks: seq<MsgId>, p: nat)
    requires Recent(b, marks) && |marks| - |b.seen| <= p < |marks|
    ensures marks[p] in b.seen
  {
    assert b.seen[p - (|marks| - |b.seen|)] == marks[p];
  }

  ghost predicate MarkedSince(marks: seq<MsgId>, p: nat, id: MsgId) {
    exists q :: p < q < |marks| && marks[q] == id
  }

  /** An id that has been marked is let in again only after at least as many different ids as the limit have been
      marked since: those now seen. */
  lemma LetInAgain(events: seq<Event>, p: nat, id: MsgId)
    requires var (b, h) := Run(events); p < |h.marks| && h.marks[p] == id && id !in b.seen
    ensures var (b, h) := Run(events);
      && |b.seen| >= SEEN_LIMIT && Distinct(b.seen)
      && forall i :: 0 <= i < |b.seen| ==> MarkedSince(h.marks, p, b.seen[i])
  {
    RunRecent(events);
    var (b, h) := Run(events);
    var n := |h.marks| - |b.seen|;
    if p >= n {
      RecentSeen(b, h.marks, p);
    }
    forall i | 0 <= i < |b.seen| ensures MarkedSince(h.marks, p, b.seen[i]) {
      assert h.marks[n + i] == b.seen[i];
    }
  }

  predicate Transcribing(b: Bridge, id: MsgId) {
    exists k :: 0 <= k < |b.transcribing| && b.transcribing[k].0 == id
  }

  /** How many entries with an id have been taken. */
  function TakenTimes(taken: seq<(Chat, Entry, nat)>, id: MsgId): nat {
    if taken == [] then 0 else
      var n := |taken| - 1;
      TakenTimes(taken[..n], id) + if taken[n].1.id == id then 1 else 0
  }

  /** While an id is seen and not being transcribed, no event takes it. */
  lemma NotTaken(b: Bridge, e: Event, id: MsgId)
    requires id in b.seen && !Transcribing(b, id)
    ensures Takes(b, e).Some? ==> Takes(b, e).value.1.id != id
    ensures !Transcribing(Step(b, e), id)
  {
    var b' := Step(b, e);
    forall k | 0 <= k < |b'.transcribing| ensures b'.transcribing[k].0 != id {
      if e.Transcribed? && Enabled(b, e) {
        assert b'.transcribing[k] == b.transcribing[if k < e.note then k else k + 1];
      }
    }
  }

  lemma TimesMore(h: History, b: Bridge, e: Event, id: MsgId)
    ensures TakenTimes(Noted(h, b, e).taken, id) ==
      TakenTimes(h.taken, id) + if Takes(b, e).Some? && Takes(b, e).value.1.id == id then 1 else 0
  {
    hide Takes, Marks, Enabled;
    var taken := Noted(h, b, e).taken;
    if Takes(b, e).Some? {
      assert taken[..|taken| - 1] == h.taken;
    }
  }

  /** Between two marks of an id at least as many others are marked as the limit. */
  ghost predicate MarksApart(marks: seq<MsgId>) {
    forall p, q :: 0 <= p < q < |marks| && marks[p] == marks[q] ==> q - p > SEEN_LIMIT
  }

  lemma NextApart(b: Bridge, marks: seq<MsgId>, id: MsgId)
    requires Recent(b, marks) && MarksApart(marks) && id !in b.seen
    ensures MarksApart(marks + [id])
  {
    forall p | 0 <= p < |marks| && marks[p] == id ensures |marks| - p > SEEN_LIMIT {
      FarBack(b, marks, p);
    }
  }

  lemma FarBack(b: Bridge, marks: seq<MsgId>, p: nat)
    requires Recent(b, marks) && p < |marks| && marks[p] !in b.seen
    ensures |marks| - p > SEEN_LIMIT
  {
    if p >= |marks| - |b.seen| {
      RecentSeen(b, marks, p);
    }
  }

  lemma {:induction false} RunMarksApart(events: seq<Event>)
    ensures MarksApart(Run(events).1.marks)
  {
    if events != [] {
      var n := |events| - 1;
      RunMarksApart(events[..n]);
      RunRecent(events[..n]);
      StepSeen(Run(events[..n]).0, events[n]);
      var (b, h) := Run(events[..n]);
      hide Step, Marks, Takes, MarksApart, Recent;
      if Marks(b, events[n]).Some? {
        NextApart(b, h.marks, Marks(b, events[n]).value);
      }
    }
  }

  /** How many voice notes with an id are being transcribed. */
  function NoteTimes(notes: seq<(MsgId, Chat)>, id: MsgId): nat {
    if notes == [] then 0 else NoteTimes(notes[..|notes| - 1], id) + if notes[|notes| - 1].0 == id then 1 else 0
  }

  lemma {:induction false} NoteTimesWithout(notes: seq<(MsgId, Chat)>, k: nat, id: MsgId)
    requires k < |notes|
    ensures NoteTimes(notes, id) == NoteTimes(Without(notes, k), id) + if notes[k].0 == id then 1 else 0
  {
    var n := |notes| - 1;
    if k == n {
      assert Without(notes, k) == notes[..n];
    } else {
      NoteTimesWithout(notes[..n], k, id);
      assert Without(notes, k) == Without(notes[..n], k) + [notes[n]];
      assert Without(notes, k)[..n - 1] == Without(notes[..n], k);
    }
  }

  lemma NoteTimesMore(notes: seq<(MsgId, Chat)>, note: (MsgId, Chat), id: MsgId)
    ensures NoteTimes(notes + [note], id) == NoteTimes(notes, id) + if note.0 == id then 1 else 0
  {
    assert (notes + [note])[..|notes|] == notes;
  }

  function AsNat(b: bool): nat {
    if b then 1 else 0
  }

  /** A turn takes or sets about transcribing a message only against a mark, or against an earlier transcription. */
  lemma StepBalance(b: Bridge, e: Event, id: MsgId)
    ensures NoteTimes(Step(b, e).transcribing, id) + AsNat(Takes(b, e).Some? && Takes(b, e).value.1.id == id) <=
            NoteTimes(b.transcribing, id) + AsNat(Marks(b, e) == Some(id))
  {
    match e
    case Voice(v, chat) => NoteTimesMore(b.transcribing, (v, chat), id);
    case Transcribed(k, _) => if Enabled(b, e) { NoteTimesWithout(b.transcribing, k, id); }
    case _ =>
  }

  /** Over any stretch of a run an id is taken, or sent to be transcribed, no more often than it is marked. */
  lemma {:induction false} RunBalance(events: seq<Event>, more: seq<Event>, id: MsgId)
    ensures var (b, h), (b', h') := Run(events), Run(events + more);
      && TakenTimes(h'.taken, id) + NoteTimes(b'.transcribing, id) + multiset(h.marks)[id] <=
         TakenTimes(h.taken, id) + NoteTimes(b.transcribing, id) + multiset(h'.marks)[id]
      && TakenTimes(h.taken, id) <= TakenTimes(h'.taken, id)
  {
    if more == [] {
      assert events + more == events;
    } else {
      hide *;
      var n := |more| - 1;
      var before := events + more[..n];
      assert before + [more[n]] == events + more;
      RunBalance(events, more[..n], id);
      OneMore(before, more[n]);
      StepBalance(Run(before).0, more[n], id);
      TimesMore(Run(before).1, Run(before).0, more[n], id);
      MarksMore(Run(before).1, Run(before).0, more[n], id);
    }
  }

  lemma MarksMore(h: History, b: Bridge, e: Event, id: MsgId)
    ensures multiset(Noted(h, b, e).marks)[id] == multiset(h.marks)[id] + AsNat(Marks(b, e) == Some(id))
  {
    hide Marks, Takes;
  }

  /** No message is taken more often than its id has been marked. */
  lemma RunTakenMarked(events: seq<Event>, id: MsgId)
    ensures var (b, h) := Run(events);
      TakenTimes(h.taken, id) + NoteTimes(b.transcribing, id) <= multiset(h.marks)[id]
  {
    RunBalance([], events, id);
    assert [] + events == events;
  }

  /** An id marked in the last SEEN_LIMIT marks is seen. */
  lemma StillSeen(events: seq<Event>, p: nat, id: MsgId)
    requires var (b, h) := Run(events); p < |h.marks| && h.marks[p] == id && |h.marks| - p <= SEEN_LIMIT
    ensures id in Run(events).0.seen
  {
    RunRecent(events);
    RecentSeen(Run(events).0, Run(events).1.marks, p);
  }

  lemma {:induction false} MarksGrow(events: seq<Event>, more: seq<Event>)
    ensures |Run(events).1.marks| <= |Run(events + more).1.marks|
    ensures Run(events + more).1.marks[..|Run(events).1.marks|] == Run(events).1.marks
  {
    if more == [] {
      assert events + more == events;
    } else {
      var n := |more| - 1;
      assert (events + more)[..|events| + n] == events + more[..n];
      MarksGrow(events, more[..n]);
      hide Step, Takes, Marks;
    }
  }

  lemma OneMore(events: seq<Event>, e: Event)
    ensures Run(events + [e]).0 == Step(Run(events).0, e)
    ensures Run(events + [e]).1 == Noted(Run(events).1, Run(events).0, e)
  {
    assert (events + [e])[..|events|] == events;
  }

  /** As long as fewer than SEEN_LIMIT further ids are marked, a marked message is not taken again. */
  lemma {:induction false} TakenOnce(events: seq<Event>, more: seq<Event>, id: MsgId)
    requires Run(events).1.marks != []
    requires Run(events).1.marks[|Run(events).1.marks| - 1] == id && !Transcribing(Run(events).0, id)
    requires |Run(events + more).1.marks| - |Run(events).1.marks| < SEEN_LIMIT
    ensures TakenTimes(Run(events + more).1.taken, id) == TakenTimes(Run(events).1.taken, id)
    ensures !Transcribing(Run(events + more).0, id)
  {
    hide *;
    if more == [] {
      assert events + more == events;
    } else {
      var n := |more| - 1;
      var before := events + more[..n];
      assert before + [more[n]] == events + more;
      OneMore(before, more[n]);
      MarksGrow(before, [more[n]]);
      MarksGrow(events, more[..n]);
      TakenOnce(events, more[..n], id);
      var p := |Run(events).1.marks| - 1;
      assert Run(before).1.marks[p] == Run(before).1.marks[..p + 1][p];
      StillSeen(before, p, id);
      NotTaken(Run(before).0, more[n], id);
      TimesMore(Run(before).1, Run(before).0, more[n], id);
    }
  }

  /** Fewer ids than the limit are marked from one moment of a run to a later one. */
  ghost predicate Window(events: seq<Event>, later: seq<Event>) {
    |Run(later).1.marks| - |Run(events).1.marks| < SEEN_LIMIT
  }

  /** If a readable update comes now, its message is taken, and not again before SEEN_LIMIT further ids are marked. */
  ghost predicate UpdateTakenOnce(events: seq<Event>, id: MsgId, chat: Chat, text: Text) {
    var shown := events + [Update(id, chat, Some(text))];
    forall more :: Window(shown, shown + more) ==>
      TakenTimes(Run(shown + more).1.taken, id) == TakenTimes(Run(events).1.taken, id) + 1
  }

  lemma UpdateTakes(events: seq<Event>, id: MsgId, chat: Chat, text: Text, more: seq<Event>)
    requires id !in Run(events).0.seen && !Transcribing(Run(events).0, id)
    requires var shown := events + [Update(id, chat, Some(text))]; Window(shown, shown + more)
    ensures var shown := events + [Update(id, chat, Some(text))];
      TakenTimes(Run(shown + more).1.taken, id) == TakenTimes(Run(events).1.taken, id) + 1
  {
    var e := Update(id, chat, Some(text));
    OneMore(events, e);
    TimesMore(Run(events).1, Run(events).0, e, id);
    TakenOnce(events + [e], more, id);
  }

  /** That is so exactly if the id is not marked as seen and no voice note with it is being transcribed. */
  lemma UpdateTakenOnceIff(events: seq<Event>, id: MsgId, chat: Chat, text: Text)
    ensures UpdateTakenOnce(events, id, chat, text) <==> id !in Run(events).0.seen && !Transcribing(Run(events).0, id)
  {
    if id !in Run(events).0.seen && !Transcribing(Run(events).0, id) {
      hide Transcribing, TakenTimes, Window, Run;
      forall more | Window(events + [Update(id, chat, Some(text))], events + [Update(id, chat, Some(text))] + more)
        ensures TakenTimes(Run(events + [Update(id, chat, Some(text))] + more).1.taken, id) == TakenTimes(Run(events).1.taken, id) + 1
      {
        UpdateTakes(events, id, chat, text, more);
      }
    } else {
      var more := UpdateNotTakenOnce(events, id, chat, text);
    }
  }

  /** A continuation in which it is not so. */
  lemma UpdateNotTakenOnce(events: seq<Event>, id: MsgId, chat: Chat, text: Text) returns (more: seq<Event>)
    requires id in Run(events).0.seen || Transcribing(Run(events).0, id)
    ensures var shown := events + [Update(id, chat, Some(text))];
      && Window(shown, shown + more)
      && TakenTimes(Run(shown + more).1.taken, id) != TakenTimes(Run(events).1.taken, id) + 1
  {
    var e := Update(id, chat, Some(text));
    var b := Run(events).0;
    OneMore(events, e);
    TimesMore(Run(events).1, b, e, id);
    if id in b.seen {
      more := [];
      assert events + [e] + more == events + [e];
    } else {
      var k :| 0 <= k < |b.transcribing| && b.transcribing[k].0 == id;
      var last := Transcribed(k, Some(text));
      more := [last];
      OneMore(events + [e], last);
      TimesMore(Run(events + [e]).1, Run(events + [e]).0, last, id);
      assert id in Run(events + [e]).0.seen;
    }
  }

  lemma NoNotes(b: Bridge, id: MsgId)
    requires !Transcribing(b, id)
    ensures NoteTimes(b.transcribing, id) == 0
  {
    NoNotesIn(b.transcribing, id);
  }

  lemma {:induction false} NoNotesIn(notes: seq<(MsgId, Chat)>, id: MsgId)
    requires forall k :: 0 <= k < |notes| ==> notes[k].0 != id
    ensures NoteTimes(notes, id) == 0
  {
    if notes != [] {
      NoNotesIn(notes[..|notes| - 1], id);
    }
  }

  /** A mark of the latest SEEN_LIMIT is still seen; so an unseen id has not been marked in the window. */
  lemma NotMarkedBetween(events: seq<Event>, mid: seq<Event>, id: MsgId)
    requires id !in Run(events + mid).0.seen && Window(events, events + mid)
    requires Run(events).1.marks <= Run(events + mid).1.marks
    ensures id !in Run(events + mid).1.marks[|Run(events).1.marks|..]
  {
    var was, now := Run(events).1.marks, Run(events + mid).1.marks;
    hide Run;
    forall i | |was| <= i < |now| ensures now[i] != id {
      if now[i] == id {
        StillSeen(events + mid, i, id);
      }
    }
  }

  lemma CountsOfEnd(was: seq<MsgId>, now: seq<MsgId>, id: MsgId)
    requires was <= now && id !in now[|was|..]
    ensures multiset(now)[id] == multiset(was)[id]
  {
    assert now == was + now[|was|..];
  }

  /** An id that is unseen at both ends of a window has not been taken within it. */
  lemma NotTakenBetween(events: seq<Event>, mid: seq<Event>, id: MsgId)
    requires !Transcribing(Run(events).0, id) && id !in Run(events + mid).0.seen && Window(events, events + mid)
    ensures TakenTimes(Run(events + mid).1.taken, id) == TakenTimes(Run(events).1.taken, id)
  {
    hide Run, TakenTimes, NoteTimes, Transcribing, Window;
    MarksGrow(events, mid);
    RunBalance(events, mid, id);
    NoNotes(Run(events).0, id);
    NotMarkedBetween(events, mid, id);
    CountsOfEnd(Run(events).1.marks, Run(events + mid).1.marks, id);
  }

  /** A message that arrives unreadable, and whose id is neither marked nor being transcribed when it is decrypted, is
      taken exactly once from its arrival on, whatever happens in between and however often it comes again, as long as
      fewer than SEEN_LIMIT ids are marked before and fewer than SEEN_LIMIT after the decryption. */
  lemma DecryptedIsTakenOnce(events: seq<Event>, id: MsgId, chat: Chat, mid: seq<Event>, text: Text, more: seq<Event>)
    requires !Transcribing(Run(events).0, id)
    requires var before := events + [Message(id, chat, None)] + mid;
      id !in Run(before).0.seen && !Transcribing(Run(before).0, id) && Window(events, before)
    requires var shown := events + [Message(id, chat, None)] + mid + [Update(id, chat, Some(text))];
      Window(shown, shown + more)
    ensures var shown := events + [Message(id, chat, None)] + mid + [Update(id, chat, Some(text))];
      TakenTimes(Run(shown + more).1.taken, id) == TakenTimes(Run(events).1.taken, id) + 1
  {
    hide *;
    var arrived := events + [Message(id, chat, None)];
    BlankArrival(events, id, chat);
    WindowAfter(events, arrived, arrived + mid);
    NotTakenBetween(arrived, mid, id);
    UpdateTakes(arrived + mid, id, chat, text, more);
  }

  lemma BlankArrival(events: seq<Event>, id: MsgId, chat: Chat)
    ensures Run(events + [Message(id, chat, None)]) == Run(events)
  {
    OneMore(events, Message(id, chat, None));
  }

  lemma WindowAfter(events: seq<Event>, same: seq<Event>, later: seq<Event>)
    requires Run(same) == Run(events) && Window(events, later)
    ensures Window(same, later)
  {
  }

  /** But an update that is itself unreadable marks the id, and the message is then lost: no later decryption is taken
      before SEEN_LIMIT further ids have been marked. */
  lemma UnreadableUpdateLoses(events: seq<Event>, id: MsgId, chat: Chat, more: seq<Event>)
    requires id !in Run(events).0.seen && !Transcribing(Run(events).0, id)
    requires var blank := events + [Message(id, chat, None)] + [Update(id, chat, None)]; Window(blank, blank + more)
    ensures var blank := events + [Message(id, chat, None)] + [Update(id, chat, None)];
      TakenTimes(Run(blank + more).1.taken, id) == TakenTimes(Run(events).1.taken, id)
  {
    var arrived := events + [Message(id, chat, None)];
    var e := Update(id, chat, None);
    BlankArrival(events, id, chat);
    OneMore(arrived, e);
    TimesMore(Run(arrived).1, Run(arrived).0, e, id);
    hide TakenTimes;
    TakenOnce(arrived + [e], more, id);
  }
}
