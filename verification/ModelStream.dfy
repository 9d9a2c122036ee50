/** Reading a model's answer from an event stream: content, reasoning and tool calls. */
module ModelStream {
  import opened Wrappers
  import opened TextSearch
  import opened ThinkSplitter
  import T = ToolCalls

  // One line of the stream. A delta carries reasoning the model declares as such, text, and pieces of tool calls,
  // each of them possibly empty. Other is a line without any.
  datatype Line = Delta(declared: string, text: string, calls: seq<T.Fragment>) | Done | Other

  /** The text of all deltas. */
  function TextOf(lines: seq<Line>): string {
    if lines == [] then "" else
      var n := |lines| - 1;
      TextOf(lines[..n]) + if lines[n].Delta? then lines[n].text else ""
  }

  function FragmentsOf(lines: seq<Line>): seq<T.Fragment> {
    if lines == [] then [] else
      var n := |lines| - 1;
      FragmentsOf(lines[..n]) + if lines[n].Delta? then lines[n].calls else []
  }

  function Declared(line: Line): string {
    if line.Delta? then line.declared else ""
  }

  ghost predicate NoneDeclared(lines: seq<Line>) {
    forall l :: l in lines ==> Declared(l) == ""
  }

  // ----- What is shown line by line

  function Flat(logs: seq<seq<Mark>>): seq<Mark> {
    if logs == [] then [] else Flat(logs[..|logs| - 1]) + logs[|logs| - 1]
  }

  /** Nothing that text settles is kept back, and no more than a tag's length is. */
  ghost predicate Settled(text: string, log: seq<Mark>) {
    exists inThink, buffer :: Resumes(false, text, log, inThink, buffer) && Held(inThink, buffer)
  }

  /** logs holds, for each line, the marks that become settled with it. */
  ghost predicate Paced(lines: seq<Line>, logs: seq<seq<Mark>>) {
    if lines == [] then logs == [] else
      |logs| == |lines| && Paced(lines[..|lines| - 1], logs[..|lines| - 1]) && Settled(TextOf(lines), Flat(logs))
  }

  /** Line by line: the reasoning it declares, then what becomes settled with it. */
  function Woven(lines: seq<Line>, logs: seq<seq<Mark>>): seq<Mark>
    requires |logs| == |lines|
  {
    if lines == [] then [] else
      var n := |lines| - 1;
      Woven(lines[..n], logs[..n]) + Thought(Declared(lines[n])) + Visible(logs[n])
  }

  /** Line by line: the reasoning it declares, then the reasoning that becomes settled with it. */
  function ReasoningOf(lines: seq<Line>, logs: seq<seq<Mark>>): string
    requires |logs| == |lines|
  {
    if lines == [] then "" else
      var n := |lines| - 1;
      ReasoningOf(lines[..n], logs[..n]) + Declared(lines[n]) + ReasoningText(logs[n])
  }

  /** Where the stream has got to after some lines. */
  ghost predicate Reading(lines: seq<Line>, pieces: seq<Piece>, logs: seq<seq<Mark>>, inThink: bool, buffer: string) {
    && Paced(lines, logs) && |logs| == |lines| && Shown(pieces) == Woven(lines, logs)
    && Resumes(false, TextOf(lines), Flat(logs), inThink, buffer) && Held(inThink, buffer)
  }

  /** All that the stream has to say is shown: what is kept back to the end comes last, as content. */
  ghost predicate Told(lines: seq<Line>, pieces: seq<Piece>) {
    exists logs, rest :: ToldAs(lines, pieces, logs, rest)
  }

  ghost predicate ToldAs(lines: seq<Line>, pieces: seq<Piece>, logs: seq<seq<Mark>>, rest: string) {
    && Paced(lines, logs) && |logs| == |lines| && |rest| <= |CLOSE|
    && Marks(false, TextOf(lines)) == Flat(logs) + Plain(rest)
    && Shown(pieces) == Woven(lines, logs) + Plain(rest)
  }

  // ----- What follows from that

  lemma {:induction false} ContentVisible(m: seq<Mark>)
    ensures ContentText(Visible(m)) == ContentText(m) && ReasoningText(Visible(m)) == ReasoningText(m)
  {
    if m != [] {
      var n := |m| - 1;
      ContentVisible(m[..n]);
      var front := Visible(m[..n]);
      assert front + [] == front && (front + [m[n]])[..|front|] == front;
      assert ContentText(m[..n]) + "" == ContentText(m[..n]) && ReasoningText(m[..n]) + "" == ReasoningText(m[..n]);
    }
  }

  lemma {:induction false} ReasoningAdd(a: seq<Mark>, b: seq<Mark>)
    ensures ReasoningText(a + b) == ReasoningText(a) + ReasoningText(b)
  {
    if b == [] {
      assert a + b == a;
    } else {
      var n := |b| - 1;
      assert (a + b)[..|a| + n] == a + b[..n];
      ReasoningAdd(a, b[..n]);
    }
  }

  lemma {:induction false} ReasoningLetters(s: string)
    ensures ReasoningText(Plain(s)) == "" && ReasoningText(Thought(s)) == s
  {
    if s != "" {
      var n := |s| - 1;
      ReasoningLetters(s[..n]);
      assert Plain(s)[..n] == Plain(s[..n]) && Thought(s)[..n] == Thought(s[..n]);
    }
  }

  lemma FlatNext(logs: seq<seq<Mark>>)
    requires logs != []
    ensures Flat(logs) == Flat(logs[..|logs| - 1]) + logs[|logs| - 1]
  {
  }

  lemma WovenNext(lines: seq<Line>, logs: seq<seq<Mark>>)
    requires |logs| == |lines| && lines != []
    ensures var n := |lines| - 1;
      && Woven(lines, logs) == Woven(lines[..n], logs[..n]) + Thought(Declared(lines[n])) + Visible(logs[n])
      && ReasoningOf(lines, logs) == ReasoningOf(lines[..n], logs[..n]) + Declared(lines[n]) + ReasoningText(logs[n])
  {
  }

  lemma ThreeTexts(front: seq<Mark>, declared: string, log: seq<Mark>)
    ensures ContentText(front + Thought(declared) + Visible(log)) == ContentText(front) + ContentText(log)
    ensures ReasoningText(front + Thought(declared) + Visible(log)) == ReasoningText(front) + declared + ReasoningText(log)
  {
    hide *;
    ContentAdd(front + Thought(declared), Visible(log));
    ContentAdd(front, Thought(declared));
    ReasoningAdd(front + Thought(declared), Visible(log));
    ReasoningAdd(front, Thought(declared));
    ContentLetters(declared);
    ReasoningLetters(declared);
    ContentVisible(log);
    assert ContentText(front) + "" == ContentText(front);
  }

  lemma WovenNothing()
    ensures Woven([], []) == [] && ReasoningOf([], []) == "" && Flat([]) == []
    ensures ContentText([]) == "" && ReasoningText([]) == "" && Visible([]) == []
  {
  }

  /** Declared reasoning adds nothing to the content, and is itself all there is besides. */
  lemma {:induction false} WovenTexts(lines: seq<Line>, logs: seq<seq<Mark>>)
    requires |logs| == |lines|
    ensures ContentText(Woven(lines, logs)) == ContentText(Flat(logs))
    ensures ReasoningText(Woven(lines, logs)) == ReasoningOf(lines, logs)
  {
    hide *;
    if lines == [] {
      assert logs == [];
      WovenNothing();
    } else {
      var n := |lines| - 1;
      WovenTexts(lines[..n], logs[..n]);
      WovenNext(lines, logs);
      FlatNext(logs);
      ThreeTexts(Woven(lines[..n], logs[..n]), Declared(lines[n]), logs[n]);
      ContentAdd(Flat(logs[..n]), logs[n]);
    }
  }

  lemma {:induction false} WovenVisible(lines: seq<Line>, logs: seq<seq<Mark>>)
    requires |logs| == |lines| && NoneDeclared(lines)
    ensures Woven(lines, logs) == Visible(Flat(logs))
  {
    hide *;
    if lines == [] {
      assert logs == [];
      WovenNothing();
    } else {
      var n := |lines| - 1;
      NoneBefore(lines);
      WovenVisible(lines[..n], logs[..n]);
      WovenNext(lines, logs);
      FlatNext(logs);
      VisibleAdd(Flat(logs[..n]), logs[n]);
      NoThought();
      assert Woven(lines[..n], logs[..n]) + [] == Woven(lines[..n], logs[..n]);
    }
  }

  lemma NoneBefore(lines: seq<Line>)
    requires NoneDeclared(lines) && lines != []
    ensures NoneDeclared(lines[..|lines| - 1]) && Declared(lines[|lines| - 1]) == ""
  {
  }

  lemma NoThought()
    ensures Thought("") == [] && Plain("") == []
  {
  }

  /** The content shown depends only on the whole text. The reasoning shown is, line by line, what is declared and what
      becomes settled. Without any declared, all that is shown, in its order, depends only on the whole text. */
  lemma ToldTexts(lines: seq<Line>, pieces: seq<Piece>)
    requires Told(lines, pieces)
    ensures ContentText(Shown(pieces)) == ContentText(Marks(false, TextOf(lines)))
    ensures exists logs, rest :: ToldAs(lines, pieces, logs, rest) && ReasoningText(Shown(pieces)) == ReasoningOf(lines, logs)
    ensures NoneDeclared(lines) ==> Shown(pieces) == Visible(Marks(false, TextOf(lines)))
  {
    var logs, rest :| ToldAs(lines, pieces, logs, rest);
    assert |logs| == |lines| && Marks(false, TextOf(lines)) == Flat(logs) + Plain(rest);
    assert Shown(pieces) == Woven(lines, logs) + Plain(rest);
    hide *;
    WovenTexts(lines, logs);
    if NoneDeclared(lines) { WovenVisible(lines, logs); }
    ContentAdd(Woven(lines, logs), Plain(rest));
    ContentAdd(Flat(logs), Plain(rest));
    ReasoningAdd(Woven(lines, logs), Plain(rest));
    ReasoningLetters(rest);
    VisibleAdd(Flat(logs), Plain(rest));
    VisibleLetters(rest);
    assert ReasoningText(Shown(pieces)) == ReasoningOf(lines, logs);
  }

  /** Two ways of cutting the same text show the same content, whatever reasoning is declared besides; and if none is,
      they show the same in the same order, and all of it. */
  lemma CutsDoNotMatter(a: seq<Line>, b: seq<Line>, shownA: seq<Piece>, shownB: seq<Piece>)
    requires TextOf(a) == TextOf(b) && Told(a, shownA) && Told(b, shownB)
    ensures ContentText(Shown(shownA)) == ContentText(Shown(shownB)) == ContentText(Marks(false, TextOf(a)))
    ensures NoneDeclared(a) && NoneDeclared(b) ==>
      Shown(shownA) == Shown(shownB) && ReasoningText(Shown(shownA)) == ReasoningText(Marks(false, TextOf(a)))
  {
    ToldTexts(a, shownA);
    ToldTexts(b, shownB);
    ContentVisible(Marks(false, TextOf(a)));
    hide *;
  }

  // ----- Reading on

  lemma ShownNext(a: seq<Piece>, p: Piece)
    ensures Shown(a + [p]) == Shown(a) + LettersOf(p)
  {
    assert (a + [p])[..|a|] == a;
    hide LettersOf;
  }

  lemma ShownNothing()
    ensures Shown([]) == []
  {
  }

  lemma {:induction false} ShownAdd(a: seq<Piece>, b: seq<Piece>)
    ensures Shown(a + b) == Shown(a) + Shown(b)
  {
    hide *;
    if b == [] {
      ShownNothing();
      assert a + b == a;
    } else {
      var n := |b| - 1;
      ShownAdd(a, b[..n]);
      assert a + b == (a + b[..n]) + [b[n]] && b == b[..n] + [b[n]];
      ShownNext(a + b[..n], b[n]);
      ShownNext(b[..n], b[n]);
    }
  }

  /** Declared reasoning as a piece, unless there is none. */
  lemma SaidShows(pieces: seq<Piece>, text: string)
    ensures Shown(pieces + Say(true, text)) == Shown(pieces) + Thought(text)
  {
    ShownSay(pieces, true, text);
  }

  lemma LinesNext(lines: seq<Line>, i: nat)
    requires i < |lines|
    ensures lines[..i + 1] == lines[..i] + [lines[i]]
    ensures TextOf(lines[..i + 1]) == TextOf(lines[..i]) + if lines[i].Delta? then lines[i].text else ""
    ensures FragmentsOf(lines[..i + 1]) == FragmentsOf(lines[..i]) + if lines[i].Delta? then lines[i].calls else []
  {
    assert lines[..i + 1][..i] == lines[..i];
  }

  /** One more line with what becomes settled with it. */
  lemma ReadingNext(lines: seq<Line>, i: nat, pieces: seq<Piece>, logs: seq<seq<Mark>>, more: seq<Mark>,
                    shown: seq<Piece>, inThink: bool, buffer: string)
    requires i < |lines| && Paced(lines[..i], logs) && |logs| == i && Shown(pieces) == Woven(lines[..i], logs)
    requires Shown(shown) == Shown(pieces) + Thought(Declared(lines[i])) + Visible(more)
    requires Resumes(false, TextOf(lines[..i + 1]), Flat(logs) + more, inThink, buffer) && Held(inThink, buffer)
    ensures Reading(lines[..i + 1], shown, logs + [more], inThink, buffer)
  {
    var now, all := lines[..i + 1], logs + [more];
    assert now[..i] == lines[..i] && all[..i] == logs && now != [] && |now| == |all|;
    hide Resumes, Held, Shown, Visible, Thought, TextOf;
    WovenNext(now, all);
    FlatNext(all);
  }

  lemma ReadingParts(lines: seq<Line>, pieces: seq<Piece>, logs: seq<seq<Mark>>, inThink: bool, buffer: string)
    requires Reading(lines, pieces, logs, inThink, buffer)
    ensures Paced(lines, logs) && |logs| == |lines| && Shown(pieces) == Woven(lines, logs)
    ensures Resumes(false, TextOf(lines), Flat(logs), inThink, buffer) && Held(inThink, buffer)
  {
  }

  /** What is held back at the end comes out as content. */
  lemma HeldIsContent(inThink: bool, buffer: string)
    requires Held(inThink, buffer)
    ensures Marks(inThink, buffer) == Plain(buffer) && |buffer| <= |CLOSE|
  {
    MarksNone(inThink, buffer);
    if inThink {
      assert buffer[..Safe(buffer)] == "" && buffer[Safe(buffer)..] == buffer;
      assert Thought("") + Plain(buffer) == Plain(buffer);
    }
  }

  lemma Flushed(lines: seq<Line>, pieces: seq<Piece>, logs: seq<seq<Mark>>, inThink: bool, buffer: string)
    requires Reading(lines, pieces, logs, inThink, buffer)
    ensures Told(lines, pieces + Say(false, buffer))
  {
    ReadingParts(lines, pieces, logs, inThink, buffer);
    hide Marks, Find, Shown, Held, Plain, Thought, Paced, Woven, Flat, Say, Letters;
    HeldIsContent(inThink, buffer);
    assert TextOf(lines) + "" == TextOf(lines) && buffer + "" == buffer;
    assert Marks(false, TextOf(lines) + "") == Flat(logs) + Marks(inThink, buffer + "");
    ShownSay(pieces, false, buffer);
    PlainLetters(buffer);
    assert ToldAs(lines, pieces + Say(false, buffer), logs, buffer);
  }

  lemma PlainLetters(s: string)
    ensures Letters(false, s) == Plain(s)
  {
  }

  lemma StartReading()
    ensures Reading([], [], [], false, "")
  {
    ResumesStart(false, "");
    EmptyHeld(false);
  }

  /** One delta: its reasoning, then what its text settles. */
  method ReadDelta(lines: seq<Line>, ghost i: nat, line: Line, pieces0: seq<Piece>, inThink0: bool, buffer0: string,
                   ghost logs: seq<seq<Mark>>)
    returns (pieces: seq<Piece>, inThink: bool, buffer: string, ghost more: seq<Mark>)
    requires i < |lines| && lines[i] == line && line.Delta?
    requires Reading(lines[..i], pieces0, logs, inThink0, buffer0)
    ensures Reading(lines[..i + 1], pieces, logs + [more], inThink, buffer)
  {
    ReadingParts(lines[..i], pieces0, logs, inThink0, buffer0);
    hide Resumes, Held, TextOf, Shown, Visible, Reading, Paced, Woven, Flat, Thought;
    LinesNext(lines, i);
    SaidShows(pieces0, line.declared);
    pieces := pieces0 + Say(true, line.declared);
    inThink, buffer, more := inThink0, buffer0, [];
    ResumesMore(false, TextOf(lines[..i]), Flat(logs), inThink0, buffer0, line.text);
    NothingShown();
    ShownNothing();
    if line.text != "" {
      var out;
      inThink, buffer, out, more := Drain(inThink0, buffer0 + line.text);
      ResumesThen(false, TextOf(lines[..i + 1]), Flat(logs), inThink0, buffer0 + line.text, more, inThink, buffer);
      ShownAdd(pieces, out);
      pieces := pieces + out;
    } else {
      assert buffer0 + "" == buffer0 && Flat(logs) + [] == Flat(logs);
      assert Shown(pieces) + [] == Shown(pieces);
    }
    ReadingNext(lines, i, pieces0, logs, more, pieces, inThink, buffer);
  }

  /** The lines before the end mark. */
  function BeforeDone(lines: seq<Line>): (head: seq<Line>)
    ensures Done !in head
    ensures if Done in lines then head + [Done] <= lines else head == lines
  {
    if lines == [] then [] else if lines[0].Done? then [] else
      assert lines == [lines[0]] + lines[1..];
      [lines[0]] + BeforeDone(lines[1..])
  }

  lemma {:induction false} BeforeDoneIs(lines: seq<Line>, n: nat)
    requires n <= |lines| && Done !in lines[..n] && (n < |lines| ==> lines[n] == Done)
    ensures BeforeDone(lines) == lines[..n] && (Done in lines <==> n < |lines|)
  {
    if n > 0 {
      assert lines[0] == lines[..n][0] && lines == [lines[0]] + lines[1..];
      assert lines[..n] == [lines[0]] + lines[1..][..n - 1];
      BeforeDoneIs(lines[1..], n - 1);
    }
  }

  /** What a stream without an end mark has let out: all but what is held back. */
  ghost predicate LetOut(lines: seq<Line>, pieces: seq<Piece>) {
    exists logs, inThink, buffer :: Reading(lines, pieces, logs, inThink, buffer)
  }

  /** Reads a stream up to its end mark. Then all it has to say is told, and the calls are those the fragments make up.
      Without an end mark a tag's length may be missing. */
  method ParseStream(lines: seq<Line>, names: map<string, string>, madeUp: int -> string)
    returns (pieces: seq<Piece>, calls: seq<T.Call>, finished: bool)
    ensures finished <==> Done in lines
    ensures finished ==> Told(BeforeDone(lines), pieces)
    ensures finished ==> T.Said(FragmentsOf(BeforeDone(lines)), calls, names, madeUp)
    ensures !finished ==> LetOut(lines, pieces) && calls == []
  {
    hide Reading, Told, TextOf, T.Gathered, FragmentsOf, T.Said, BeforeDone;
    pieces, calls, finished := [], [], false;
    ghost var logs: seq<seq<Mark>> := [];
    var acc: T.Partials, buffer, inThink := map[], "", false;
    StartReading();
    NoLines(lines);
    var i := 0;
    while i < |lines|
      invariant 0 <= i <= |lines| && Done !in lines[..i]
      invariant Reading(lines[..i], pieces, logs, inThink, buffer)
      invariant acc == T.Gathered(FragmentsOf(lines[..i])) && calls == [] && !finished
    {
      LinesNext(lines, i);
      match lines[i] {
        case Done =>
          Flushed(lines[..i], pieces, logs, inThink, buffer);
          pieces := pieces + Say(false, buffer);
          calls := T.PassOn(acc, names, madeUp, FragmentsOf(lines[..i]));
          finished := true;
          BeforeDoneIs(lines, i);
          return;
        case Delta(declared, text, fragments) =>
          ghost var more;
          pieces, inThink, buffer, more := ReadDelta(lines, i, lines[i], pieces, inThink, buffer, logs);
          logs := logs + [more];
          acc := T.AbsorbAll(acc, fragments, FragmentsOf(lines[..i]));
        case Other =>
          OtherReading(lines, i, pieces, logs, inThink, buffer);
          logs := logs + [[]];
          assert FragmentsOf(lines[..i]) + [] == FragmentsOf(lines[..i]);
      }
      i := i + 1;
    }
    assert lines[..i] == lines;
    BeforeDoneIs(lines, i);
  }

  lemma NoLines(lines: seq<Line>)
    ensures lines[..0] == [] && T.Gathered(FragmentsOf([])) == map[]
  {
  }

  lemma OtherReading(lines: seq<Line>, i: nat, pieces: seq<Piece>, logs: seq<seq<Mark>>, inThink: bool, buffer: string)
    requires i < |lines| && !lines[i].Delta? && Reading(lines[..i], pieces, logs, inThink, buffer)
    ensures Reading(lines[..i + 1], pieces, logs + [[]], inThink, buffer)
  {
    ReadingParts(lines[..i], pieces, logs, inThink, buffer);
    NothingShown();
    ShownNothing();
    NoThought();
    hide Resumes, Held, TextOf, Shown, Visible, Reading, Paced, Woven, Flat, Thought;
    LinesNext(lines, i);
    assert TextOf(lines[..i]) + "" == TextOf(lines[..i]) && Flat(logs) + [] == Flat(logs);
    assert Shown(pieces) + [] + [] == Shown(pieces);
    ReadingNext(lines, i, pieces, logs, [], pieces, inThink, buffer);
  }
}
