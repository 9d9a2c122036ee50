/** Turning a conversation into the strictly alternating turns that a provider accepts. */
module TurnBuilders {
  import opened Wrappers

  // A piece of content or a tool's answer, already in the provider's form; only its identity matters.
  type Raw(==, !new)

  datatype Role = User | Assistant | Tool | Other

  // A missing id or name is "".
  datatype Call = Call(id: string, name: string, args: Raw)

  /** parts is what the content comes to: one piece for a text, none for an empty one. */
  datatype Message = Message(role: Role, parts: seq<Raw>, response: Raw, calls: seq<Call>, toolCallId: string)

  // The first two are common to the providers; tools are used and answered by id with one, by name with the other.
  datatype Block =
    | Plain(raw: Raw)
    | EmptyText
    | ToolUse(id: string, name: string, args: Raw)
    | ToolResult(id: string, response: Raw)
    | FunctionCall(name: string, args: Raw)
    | FunctionResponse(name: string, response: Raw)

  datatype Turn = Turn(user: bool, blocks: seq<Block>)

  // ----- Merging turns

  /** Another message: it joins the last turn if that is of the same side. */
  function Joined(turns: seq<Turn>, t: Turn): seq<Turn> {
    if turns != [] && turns[|turns| - 1].user == t.user
    then turns[..|turns| - 1] + [Turn(t.user, turns[|turns| - 1].blocks + t.blocks)]
    else turns + [t]
  }

  function JoinAll(messages: seq<Turn>): seq<Turn> {
    if messages == [] then [] else Joined(JoinAll(messages[..|messages| - 1]), messages[|messages| - 1])
  }

  /** The end of the first conversation and the start of the second may become one turn. */
  function Glued(a: seq<Turn>, b: seq<Turn>): seq<Turn> {
    if b == [] then a else Joined(a, b[0]) + b[1..]
  }

  ghost predicate Alternating(turns: seq<Turn>) {
    forall i, j :: 0 <= i && j == i + 1 && j < |turns| ==> turns[i].user != turns[j].user
  }

  /** Every block with the side it is on, in order. */
  function Spoken(turns: seq<Turn>): seq<(bool, Block)> {
    if turns == [] then [] else Spoken(turns[..|turns| - 1]) + Said(turns[|turns| - 1])
  }

  function Said(t: Turn): (said: seq<(bool, Block)>)
    ensures |said| == |t.blocks| && forall i :: 0 <= i < |said| ==> said[i] == (t.user, t.blocks[i])
  {
    SaidBy(t.user, t.blocks)
  }

  function SaidBy(user: bool, blocks: seq<Block>): (said: seq<(bool, Block)>)
    ensures |said| == |blocks| && forall i :: 0 <= i < |said| ==> said[i] == (user, blocks[i])
  {
    if blocks == [] then [] else SaidBy(user, blocks[..|blocks| - 1]) + [(user, blocks[|blocks| - 1])]
  }

  lemma SaidAdd(user: bool, a: seq<Block>, b: seq<Block>)
    ensures Said(Turn(user, a + b)) == Said(Turn(user, a)) + Said(Turn(user, b))
  {
  }

  lemma SpokenNext(turns: seq<Turn>, t: Turn)
    ensures Spoken(turns + [t]) == Spoken(turns) + Said(t)
  {
    assert (turns + [t])[..|turns|] == turns;
  }

  lemma JoinedKeeps(turns: seq<Turn>, t: Turn)
    requires Alternating(turns)
    ensures Alternating(Joined(turns, t)) && Spoken(Joined(turns, t)) == Spoken(turns) + Said(t)
  {
    JoinedSaid(turns, t);
    hide Spoken, Said;
  }

  lemma JoinedSaid(turns: seq<Turn>, t: Turn)
    ensures Spoken(Joined(turns, t)) == Spoken(turns) + Said(t)
  {
    hide Spoken, Said;
    if turns != [] && turns[|turns| - 1].user == t.user {
      var n := |turns| - 1;
      assert turns == turns[..n] + [turns[n]];
      SpokenNext(turns[..n], turns[n]);
      SpokenNext(turns[..n], Turn(t.user, turns[n].blocks + t.blocks));
      SaidAdd(t.user, turns[n].blocks, t.blocks);
    } else {
      SpokenNext(turns, t);
    }
  }

  /** The sides alternate strictly, and what is said is what all messages say, in order and on the same side. */
  lemma {:induction false} JoinAllKeeps(messages: seq<Turn>)
    ensures Alternating(JoinAll(messages)) && Spoken(JoinAll(messages)) == Spoken(messages)
  {
    if messages != [] {
      var n := |messages| - 1;
      JoinAllKeeps(messages[..n]);
      JoinedKeeps(JoinAll(messages[..n]), messages[n]);
    }
  }

  lemma GluedJoined(a: seq<Turn>, b: seq<Turn>, t: Turn)
    ensures Glued(a, Joined(b, t)) == Joined(Glued(a, b), t)
  {
    if b == [] {
      assert Joined(a, t) + [] == Joined(a, t);
    } else if |b| == 1 {
      GluedOne(a, b[0], t);
      assert b == [b[0]];
    } else {
      GluedMany(a, b, t);
    }
  }

  lemma GluedMany(a: seq<Turn>, b: seq<Turn>, t: Turn)
    requires |b| > 1
    ensures Glued(a, Joined(b, t)) == Joined(Glued(a, b), t)
  {
    var n := |b| - 1;
    var front := Joined(a, b[0]);
    var g := front + b[1..];
    assert g[|g| - 1] == b[n] && g[..|g| - 1] == front + b[1..n];
    hide Joined;
    if b[n].user == t.user {
      var last := Turn(t.user, b[n].blocks + t.blocks);
      JoinedSame(b, t);
      JoinedSame(g, t);
      assert (b[..n] + [last])[1..] == b[1..n] + [last];
    } else {
      JoinedOther(b, t);
      JoinedOther(g, t);
      assert (b + [t])[1..] == b[1..] + [t];
    }
  }

  lemma JoinedSame(turns: seq<Turn>, t: Turn)
    requires turns != [] && turns[|turns| - 1].user == t.user
    ensures Joined(turns, t) == turns[..|turns| - 1] + [Turn(t.user, turns[|turns| - 1].blocks + t.blocks)]
  {
  }

  lemma JoinedOther(turns: seq<Turn>, t: Turn)
    requires turns != [] ==> turns[|turns| - 1].user != t.user
    ensures Joined(turns, t) == turns + [t]
  {
  }

  lemma GluedOne(a: seq<Turn>, b: Turn, t: Turn)
    ensures Glued(a, Joined([b], t)) == Joined(Glued(a, [b]), t)
  {
    hide Joined;
    assert [b][1..] == [] && [b][..0] == [] && Joined(a, b) + [] == Joined(a, b);
    if b.user == t.user {
      var both := Turn(t.user, b.blocks + t.blocks);
      JoinedSame([b], t);
      assert [] + [both] == [both] && [both][1..] == [] && Joined(a, both) + [] == Joined(a, both);
      JoinedTwice(a, b, t);
    } else {
      JoinedOther([b], t);
      assert [b] + [t] == [b, t] && [b, t][1..] == [t];
      JoinedLast(a, b);
      JoinedOther(Joined(a, b), t);
    }
  }

  lemma JoinedLast(a: seq<Turn>, b: Turn)
    ensures Joined(a, b) != [] && Joined(a, b)[|Joined(a, b)| - 1].user == b.user
  {
  }

  lemma JoinedTwice(a: seq<Turn>, b: Turn, t: Turn)
    requires b.user == t.user
    ensures Joined(a, Turn(t.user, b.blocks + t.blocks)) == Joined(Joined(a, b), t)
  {
    if a != [] && a[|a| - 1].user == t.user {
      var n := |a| - 1;
      var j := a[..n] + [Turn(b.user, a[n].blocks + b.blocks)];
      assert j[..|j| - 1] == a[..n];
      assert a[n].blocks + (b.blocks + t.blocks) == a[n].blocks + b.blocks + t.blocks;
    } else {
      assert (a + [b])[..|a|] == a;
    }
  }

  lemma JoinAllNext(a: seq<Turn>, t: Turn)
    ensures JoinAll(a + [t]) == Joined(JoinAll(a), t)
  {
    assert (a + [t])[..|a|] == a;
  }

  lemma JoinNothing(a: seq<Turn>)
    ensures JoinAll([]) == [] && Glued(a, []) == a
  {
  }

  lemma LastApart<T>(a: seq<T>, b: seq<T>)
    requires b != []
    ensures a + b == (a + b[..|b| - 1]) + [b[|b| - 1]] && b == b[..|b| - 1] + [b[|b| - 1]]
  {
  }

  /** Building a conversation is gluing together what its parts build. */
  lemma {:induction false} JoinAllAppend(a: seq<Turn>, b: seq<Turn>)
    ensures JoinAll(a + b) == Glued(JoinAll(a), JoinAll(b))
  {
    hide *;
    if b == [] {
      assert a + b == a;
      JoinNothing(JoinAll(a));
    } else {
      var n := |b| - 1;
      LastApart(a, b);
      JoinAllAppend(a, b[..n]);
      JoinAllNext(a + b[..n], b[n]);
      JoinAllNext(b[..n], b[n]);
      GluedJoined(JoinAll(a), JoinAll(b[..n]), b[n]);
    }
  }

  // ----- Anthropic

  function PlainBlocks(parts: seq<Raw>): (blocks: seq<Block>)
    ensures |blocks| == |parts| && forall i :: 0 <= i < |parts| ==> blocks[i] == Plain(parts[i])
  {
    if parts == [] then [] else PlainBlocks(parts[..|parts| - 1]) + [Plain(parts[|parts| - 1])]
  }

  /** placeId is the id a call gets that has none, from its place among the calls. */
  function UseBlocks(calls: seq<Call>, placeId: nat -> string): (blocks: seq<Block>)
    ensures |blocks| == |calls| && forall i :: 0 <= i < |calls| ==>
      blocks[i] == ToolUse(if calls[i].id != "" then calls[i].id else placeId(i), calls[i].name, calls[i].args)
  {
    if calls == [] then [] else
      var n := |calls| - 1;
      UseBlocks(calls[..n], placeId) + [ToolUse(if calls[n].id != "" then calls[n].id else placeId(n), calls[n].name, calls[n].args)]
  }

  /** One message as content blocks. */
  function Blocks(m: Message, placeId: nat -> string): seq<Block> {
    if m.role.Tool? then [ToolResult(if m.toolCallId != "" then m.toolCallId else "call_unknown", m.response)]
    else PlainBlocks(m.parts) + if m.role.Assistant? then UseBlocks(m.calls, placeId) else []
  }

  /** The turn a message makes: an empty one of the user's is left out, an empty one of the other side is kept. */
  function TurnOf(m: Message, placeId: nat -> string): Option<Turn> {
    var user := m.role.User? || m.role.Tool?;
    var blocks := Blocks(m, placeId);
    if blocks != [] then Some(Turn(user, blocks)) else if user then None else Some(Turn(false, [EmptyText]))
  }

  /** blocks are the pieces of content, one by one. */
  ghost predicate SaysParts(blocks: seq<Block>, parts: seq<Raw>) {
    |blocks| >= |parts| && forall i :: 0 <= i < |parts| ==> blocks[i] == Plain(parts[i])
  }

  /** From place n on, blocks are uses of the tools called, each under its id, or under one made up from its place. */
  ghost predicate SaysUses(blocks: seq<Block>, n: nat, calls: seq<Call>, placeId: nat -> string) {
    |blocks| == n + |calls| && forall k :: 0 <= k < |calls| ==> IsUse(blocks[n + k], calls[k], placeId(k))
  }

  ghost predicate IsUse(b: Block, c: Call, madeUp: string) {
    b.ToolUse? && b.name == c.name && b.args == c.args && b.id == if c.id == "" then madeUp else c.id
  }

  /** What a message says: a tool's answer goes back under the id of its call; a user's message is its pieces of content,
      and nothing if there are none; an assistant's is its pieces, then every call; and any other but the user's that
      says nothing says an empty text. */
  lemma TurnSays(m: Message, placeId: nat -> string)
    ensures var t := TurnOf(m, placeId);
      && (m.role.Tool? && m.toolCallId != "" ==> t == Some(Turn(true, [ToolResult(m.toolCallId, m.response)])))
      && (m.role.Tool? && m.toolCallId == "" ==> t == Some(Turn(true, [ToolResult("call_unknown", m.response)])))
      && (m.role.User? ==> (t.None? <==> m.parts == []) && (t.Some? ==> t.value.user))
      && (m.role.Assistant? || m.role.Other? ==> t.Some? && !t.value.user)
      && ((m.role.User? || m.role.Other?) && m.parts != [] ==>
            |t.value.blocks| == |m.parts| && SaysParts(t.value.blocks, m.parts))
      && (m.role.Assistant? && (m.parts != [] || m.calls != []) ==>
            SaysParts(t.value.blocks, m.parts) && SaysUses(t.value.blocks, |m.parts|, m.calls, placeId))
      && ((m.role.Other? || (m.role.Assistant? && m.calls == [])) && m.parts == [] ==> t.value.blocks == [EmptyText])
  {
    match m.role
    case Tool =>
    case Assistant =>
      UsesSaid(m.parts, m.calls, placeId);
      hide SaysParts, SaysUses, IsUse;
    case _ => hide SaysUses, IsUse;
  }

  lemma UseIs(calls: seq<Call>, placeId: nat -> string, k: nat)
    requires k < |calls|
    ensures |UseBlocks(calls, placeId)| == |calls| && IsUse(UseBlocks(calls, placeId)[k], calls[k], placeId(k))
  {
  }

  lemma SecondPart<T>(a: seq<T>, b: seq<T>, k: nat)
    requires k < |b|
    ensures (a + b)[|a| + k] == b[k]
  {
  }

  lemma PartsSaid(parts: seq<Raw>, uses: seq<Block>)
    ensures SaysParts(PlainBlocks(parts) + uses, parts)
  {
    var plain := PlainBlocks(parts);
    forall i | 0 <= i < |parts| ensures (plain + uses)[i] == Plain(parts[i]) {
      assert (plain + uses)[i] == plain[i];
    }
  }

  lemma MakeUses(plain: seq<Block>, uses: seq<Block>, calls: seq<Call>, placeId: nat -> string)
    requires |uses| == |calls| && forall k :: 0 <= k < |calls| ==> IsUse(uses[k], calls[k], placeId(k))
    ensures SaysUses(plain + uses, |plain|, calls, placeId)
  {
    hide IsUse;
    forall k | 0 <= k < |calls| ensures IsUse((plain + uses)[|plain| + k], calls[k], placeId(k)) {
      SecondPart(plain, uses, k);
    }
  }

  lemma UsesLength(calls: seq<Call>, placeId: nat -> string)
    ensures |UseBlocks(calls, placeId)| == |calls|
  {
  }

  lemma UsesSaid(parts: seq<Raw>, calls: seq<Call>, placeId: nat -> string)
    ensures SaysParts(PlainBlocks(parts) + UseBlocks(calls, placeId), parts)
    ensures SaysUses(PlainBlocks(parts) + UseBlocks(calls, placeId), |parts|, calls, placeId)
  {
    hide *;
    PartsSaid(parts, UseBlocks(calls, placeId));
    UsesLength(calls, placeId);
    forall k | 0 <= k < |calls| ensures IsUse(UseBlocks(calls, placeId)[k], calls[k], placeId(k)) {
      UseIs(calls, placeId, k);
    }
    MakeUses(PlainBlocks(parts), UseBlocks(calls, placeId), calls, placeId);
  }

  function TurnsOf(messages: seq<Message>, placeId: nat -> string): seq<Turn> {
    if messages == [] then [] else
      var n := |messages| - 1;
      var before := TurnsOf(messages[..n], placeId);
      if TurnOf(messages[n], placeId).Some? then before + [TurnOf(messages[n], placeId).value] else before
  }

  method BuildMessages(messages: seq<Message>, placeId: nat -> string) returns (result: seq<Turn>)
    ensures result == JoinAll(TurnsOf(messages, placeId))
  {
    result := [];
    hide Blocks, JoinAll, TurnsOf;
    NoTurns(placeId);
    assert messages[..0] == [];
    var i := 0;
    while i < |messages|
      invariant 0 <= i <= |messages| && result == JoinAll(TurnsOf(messages[..i], placeId))
    {
      TurnsNext(messages, i, placeId);
      var m := messages[i];
      var user := m.role.User? || m.role.Tool?;
      var blocks := Blocks(m, placeId);
      if blocks != [] || !user {
        result := Append(result, user, if blocks == [] then [EmptyText] else blocks);
      }
      i := i + 1;
    }
    assert messages[..i] == messages;
  }

  lemma NoTurns(placeId: nat -> string)
    ensures JoinAll(TurnsOf([], placeId)) == []
  {
  }

  /** Extends the last turn, or starts a new one. */
  method Append(turns: seq<Turn>, user: bool, blocks: seq<Block>) returns (result: seq<Turn>)
    ensures result == Joined(turns, Turn(user, blocks))
  {
    if turns != [] && turns[|turns| - 1].user == user {
      result := turns[|turns| - 1 := Turn(user, turns[|turns| - 1].blocks + blocks)];
    } else {
      result := turns + [Turn(user, blocks)];
    }
  }

  /** What one message adds to a conversation. */
  function Added(turns: seq<Turn>, t: Option<Turn>): seq<Turn> {
    if t.Some? then turns + [t.value] else turns
  }

  lemma TurnsMore(a: seq<Message>, m: Message, placeId: nat -> string)
    ensures TurnsOf(a + [m], placeId) == Added(TurnsOf(a, placeId), TurnOf(m, placeId))
  {
    assert (a + [m])[..|a|] == a;
    hide TurnOf;
  }

  lemma TurnsNext(messages: seq<Message>, i: nat, placeId: nat -> string)
    requires i < |messages|
    ensures var t := TurnOf(messages[i], placeId);
      JoinAll(TurnsOf(messages[..i + 1], placeId)) ==
        if t.Some? then Joined(JoinAll(TurnsOf(messages[..i], placeId)), t.value) else JoinAll(TurnsOf(messages[..i], placeId))
  {
    hide TurnOf, TurnsOf, JoinAll, Joined;
    assert messages[..i + 1] == messages[..i] + [messages[i]];
    TurnsMore(messages[..i], messages[i], placeId);
    if TurnOf(messages[i], placeId).Some? {
      JoinAllNext(TurnsOf(messages[..i], placeId), TurnOf(messages[i], placeId).value);
    }
  }

  lemma {:induction false} TurnsAppend(a: seq<Message>, b: seq<Message>, placeId: nat -> string)
    ensures TurnsOf(a + b, placeId) == TurnsOf(a, placeId) + TurnsOf(b, placeId)
  {
    hide TurnOf, TurnsOf;
    if b == [] {
      assert a + b == a;
      NoTurnsYet(placeId);
    } else {
      var n := |b| - 1;
      LastApart(a, b);
      TurnsAppend(a, b[..n], placeId);
      TurnsMore(a + b[..n], b[n], placeId);
      TurnsMore(b[..n], b[n], placeId);
    }
  }

  lemma NoTurnsYet(placeId: nat -> string)
    ensures TurnsOf([], placeId) == []
  {
  }

  /** The built messages alternate, say what the messages say, and can be built piecewise. */
  lemma BuildMessagesKeeps(a: seq<Message>, b: seq<Message>, placeId: nat -> string)
    ensures Alternating(JoinAll(TurnsOf(a, placeId))) && Spoken(JoinAll(TurnsOf(a, placeId))) == Spoken(TurnsOf(a, placeId))
    ensures JoinAll(TurnsOf(a + b, placeId)) == Glued(JoinAll(TurnsOf(a, placeId)), JoinAll(TurnsOf(b, placeId)))
  {
    JoinAllKeeps(TurnsOf(a, placeId));
    TurnsAppend(a, b, placeId);
    JoinAllAppend(TurnsOf(a, placeId), TurnsOf(b, placeId));
  }

  // ----- Gemini

  function Digits(n: nat): (s: string)
    ensures s != "" && forall i :: 0 <= i < |s| ==> '0' <= s[i] <= '9'
  {
    var digit := [('0' as int + n % 10) as char];
    if n < 10 then digit else Digits(n / 10) + digit
  }

  const CALL := "call_"

  /** The id made up for the call of a tool, from its name and its place. */
  function MadeUpId(name: string, place: nat): string {
    CALL + name + "_" + Digits(place)
  }

  /** The last underscore of a text that ends in an underscore and digits. */
  lemma LastUnderscore(front: string, n: nat)
    ensures var s := front + "_" + Digits(n);
      s[|front|] == '_' && s[..|front|] == front && forall i :: |front| < i < |s| ==> s[i] != '_'
  {
  }

  /** A made-up id tells the name, whatever underscores and digits the name itself holds. */
  lemma MadeUpIdTellsName(a: string, m: nat, b: string, n: nat)
    requires MadeUpId(a, m) == MadeUpId(b, n)
    ensures a == b
  {
    LastUnderscore(CALL + a, m);
    LastUnderscore(CALL + b, n);
    hide Digits;
    assert |a| == |b|;
    assert a == (CALL + a)[|CALL|..] && b == (CALL + b)[|CALL|..];
  }

  /** The calls of all messages, in order. */
  function CallsOf(messages: seq<Message>): (calls: seq<Call>)
    ensures forall c :: c in calls <==> exists m :: m in messages && c in m.calls
  {
    if messages == [] then [] else
      var n := |messages| - 1;
      assert messages == messages[..n] + [messages[n]];
      CallsOf(messages[..n]) + messages[n].calls
  }

  /** Which name each id stands for: that of the last call with the id. */
  function NamesOf(calls: seq<Call>): map<string, string> {
    if calls == [] then map[] else
      var n := |calls| - 1;
      if calls[n].id != "" && calls[n].name != "" then NamesOf(calls[..n])[calls[n].id := calls[n].name] else NamesOf(calls[..n])
  }

  lemma NamesNext(calls: seq<Call>, c: Call)
    ensures NamesOf(calls + [c]) == if c.id != "" && c.name != "" then NamesOf(calls)[c.id := c.name] else NamesOf(calls)
  {
    assert (calls + [c])[..|calls|] == calls;
  }

  method CollectNames(messages: seq<Message>) returns (names: map<string, string>)
    ensures names == NamesOf(CallsOf(messages))
  {
    names := map[];
    var i := 0;
    while i < |messages|
      invariant 0 <= i <= |messages| && names == NamesOf(CallsOf(messages[..i]))
    {
      names := CollectCalls(names, messages[i].calls, CallsOf(messages[..i]));
      assert messages[..i + 1][..i] == messages[..i];
      i := i + 1;
    }
    assert messages[..i] == messages;
  }

  method CollectCalls(names0: map<string, string>, calls: seq<Call>,
                      ghost before: seq<Call>) returns (names: map<string, string>)
    requires names0 == NamesOf(before)
    ensures names == NamesOf(before + calls)
  {
    hide NamesOf;
    names := names0;
    assert before + calls[..0] == before;
    var k := 0;
    while k < |calls|
      invariant 0 <= k <= |calls| && names == NamesOf(before + calls[..k])
    {
      assert before + calls[..k + 1] == (before + calls[..k]) + [calls[k]];
      NamesNext(before + calls[..k], calls[k]);
      if calls[k].id != "" && calls[k].name != "" {
        names := names[calls[k].id := calls[k].name];
      }
      k := k + 1;
    }
    assert calls[..k] == calls;
  }

  /** The name under which a tool's answer is given back. */
  function ResponseName(names: map<string, string>, id: string): string {
    if id in names && names[id] != "" then names[id]
    else if |id| > |CALL| && id[..|CALL|] == CALL then id[|CALL|..]
    else if id != "" then id
    else "function"
  }

  /** A call that can be answered by name: those without an id or a name are passed over. */
  predicate Proper(c: Call) {
    c.id != "" && c.name != ""
  }

  /** Calls with the same id are calls of the same tool. */
  ghost predicate IdsTellNames(calls: seq<Call>) {
    forall c, d :: c in calls && d in calls && Proper(c) && Proper(d) && c.id == d.id ==> c.name == d.name
  }

  lemma {:induction false} NamesHold(calls: seq<Call>, id: string)
    ensures id in NamesOf(calls) <==> exists c :: c in calls && Proper(c) && c.id == id
    ensures id in NamesOf(calls) ==> exists c :: c in calls && Proper(c) && c.id == id && c.name == NamesOf(calls)[id]
  {
    if calls != [] {
      var n := |calls| - 1;
      assert calls == calls[..n] + [calls[n]];
      NamesHold(calls[..n], id);
      assert calls[n] in calls;
    }
  }

  lemma AnswerIs(calls: seq<Call>, c: Call)
    requires c in calls && Proper(c)
    ensures exists d :: d in calls && Proper(d) && d.id == c.id && d.name == ResponseName(NamesOf(calls), c.id)
  {
    NamesHold(calls, c.id);
  }

  /** Every answer to a call is given back under the name of the tool called exactly if ids tell names. */
  lemma {:induction false} AnswersNamedIff(calls: seq<Call>)
    ensures (forall c :: c in calls && Proper(c) ==> ResponseName(NamesOf(calls), c.id) == c.name) <==> IdsTellNames(calls)
  {
    hide NamesOf, ResponseName, Proper;
    if IdsTellNames(calls) {
      forall c | c in calls && Proper(c) ensures ResponseName(NamesOf(calls), c.id) == c.name {
        AnswerIs(calls, c);
      }
    }
  }

  /** So with made-up ids every answer has the right name, even when the same ids are made up again in later rounds. */
  lemma MadeUpAnswersNamed(messages: seq<Message>)
    requires forall c :: c in CallsOf(messages) && Proper(c) ==> exists place: nat :: c.id == MadeUpId(c.name, place)
    ensures forall c :: c in CallsOf(messages) && Proper(c) ==> ResponseName(NamesOf(CallsOf(messages)), c.id) == c.name
  {
    var calls := CallsOf(messages);
    forall c, d | c in calls && d in calls && Proper(c) && Proper(d) && c.id == d.id ensures c.name == d.name {
      var m: nat :| c.id == MadeUpId(c.name, m);
      var n: nat :| d.id == MadeUpId(d.name, n);
      MadeUpIdTellsName(c.name, m, d.name, n);
    }
    AnswersNamedIff(calls);
  }

  function CallBlocks(calls: seq<Call>): (blocks: seq<Block>)
    ensures |blocks| == |calls| && forall i :: 0 <= i < |calls| ==> blocks[i] == FunctionCall(calls[i].name, calls[i].args)
  {
    if calls == [] then [] else CallBlocks(calls[..|calls| - 1]) + [FunctionCall(calls[|calls| - 1].name, calls[|calls| - 1].args)]
  }

  /** One message as a turn: none is left out, and an empty one says an empty text. */
  function ContentOf(m: Message, names: map<string, string>): Turn {
    if m.role.Tool? then Turn(true, [FunctionResponse(ResponseName(names, m.toolCallId), m.response)])
    else
      var blocks := PlainBlocks(m.parts) + if m.role.User? then [] else CallBlocks(m.calls);
      Turn(m.role.User?, if blocks == [] then [EmptyText] else blocks)
  }

  /** From place n on, blocks are the calls. */
  ghost predicate SaysCalls(blocks: seq<Block>, n: nat, calls: seq<Call>) {
    |blocks| == n + |calls| && forall k :: 0 <= k < |calls| ==> blocks[n + k] == FunctionCall(calls[k].name, calls[k].args)
  }

  /** What a message says here: a tool's answer goes back under a name; any other is its pieces of content, then, unless
      it is the user's, every call under its name; and one that says nothing says an empty text. */
  lemma ContentSays(m: Message, names: map<string, string>)
    ensures var t := ContentOf(m, names);
      && (m.role.Tool? ==> exists name :: t == Turn(true, [FunctionResponse(name, m.response)]))
      && (!m.role.Tool? ==> t.user == m.role.User?)
      && (m.role.User? && m.parts != [] ==> |t.blocks| == |m.parts| && SaysParts(t.blocks, m.parts))
      && ((m.role.Assistant? || m.role.Other?) && (m.parts != [] || m.calls != []) ==>
            SaysParts(t.blocks, m.parts) && SaysCalls(t.blocks, |m.parts|, m.calls))
      && (!m.role.Tool? && m.parts == [] && (m.role.User? || m.calls == []) ==> t.blocks == [EmptyText])
  {
    hide ResponseName;
  }

  /** A tool's answer goes back under the name of the tool that was called, if ids tell names. */
  lemma AnswerCarriesName(messages: seq<Message>, m: Message, c: Call)
    requires IdsTellNames(CallsOf(messages)) && c in CallsOf(messages) && Proper(c)
    requires m.role.Tool? && m.toolCallId == c.id
    ensures ContentOf(m, NamesOf(CallsOf(messages))) == Turn(true, [FunctionResponse(c.name, m.response)])
  {
    AnswersNamedIff(CallsOf(messages));
    hide ResponseName, NamesOf, CallsOf;
  }

  /** An answer to no known call goes back under what its id says after the mark of a made-up one, else under the id. */
  lemma UnknownAnswer(m: Message, names: map<string, string>, rest: string)
    requires m.role.Tool? && m.toolCallId !in names
    ensures m.toolCallId == "call_" + rest && rest != "" ==> ContentOf(m, names) == Turn(true, [FunctionResponse(rest, m.response)])
    ensures m.toolCallId == "" ==> ContentOf(m, names) == Turn(true, [FunctionResponse("function", m.response)])
    ensures m.toolCallId != "" && !("call_" <= m.toolCallId) ==>
      ContentOf(m, names) == Turn(true, [FunctionResponse(m.toolCallId, m.response)])
  {
    if m.toolCallId == "call_" + rest && rest != "" {
      assert m.toolCallId[..|CALL|] == CALL && m.toolCallId[|CALL|..] == rest;
    }
  }

  /** Made-up ids have that mark. */
  lemma MadeUpIdIs(name: string, place: nat)
    ensures MadeUpId(name, place) == "call_" + name + "_" + Digits(place)
  {
  }

  function ContentsOf(messages: seq<Message>, names: map<string, string>): (turns: seq<Turn>)
    ensures |turns| == |messages| && forall i :: 0 <= i < |messages| ==> turns[i] == ContentOf(messages[i], names)
  {
    if messages == [] then [] else
      ContentsOf(messages[..|messages| - 1], names) + [ContentOf(messages[|messages| - 1], names)]
  }

  method BuildContents(messages: seq<Message>) returns (contents: seq<Turn>)
    ensures contents == JoinAll(ContentsOf(messages, NamesOf(CallsOf(messages))))
  {
    var names := CollectNames(messages);
    contents := [];
    var i := 0;
    while i < |messages|
      invariant 0 <= i <= |messages| && contents == JoinAll(ContentsOf(messages[..i], names))
    {
      hide ContentOf, Joined;
      ContentsNext(messages, i, names);
      var turn := ContentOf(messages[i], names);
      contents := Append(contents, turn.user, turn.blocks);
      i := i + 1;
    }
    assert messages[..i] == messages;
  }

  lemma ContentsNext(messages: seq<Message>, i: nat, names: map<string, string>)
    requires i < |messages|
    ensures JoinAll(ContentsOf(messages[..i + 1], names)) ==
      Joined(JoinAll(ContentsOf(messages[..i], names)), ContentOf(messages[i], names))
  {
    hide ContentOf, Joined, JoinAll;
    assert ContentsOf(messages[..i + 1], names) == ContentsOf(messages[..i], names) + [ContentOf(messages[i], names)];
    JoinAllNext(ContentsOf(messages[..i], names), ContentOf(messages[i], names));
  }

  /** The built contents alternate and say, message by message, what each message comes to. */
  lemma BuildContentsKeeps(messages: seq<Message>)
    ensures var names := NamesOf(CallsOf(messages));
      && Alternating(JoinAll(ContentsOf(messages, names)))
      && Spoken(JoinAll(ContentsOf(messages, names))) == Spoken(ContentsOf(messages, names))
  {
    JoinAllKeeps(ContentsOf(messages, NamesOf(CallsOf(messages))));
  }
}
