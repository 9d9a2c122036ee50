/** Separating the reasoning a model writes between think tags from the content around it, fragment by fragment. */
module ThinkSplitter {
  import opened Wrappers
  import opened TextSearch

  const OPEN := "<think>"
  const CLOSE := "</think>"

  // One character of content or reasoning, or a place where a tag has been taken out.
  datatype Mark = C(c: char) | R(r: char) | Opened | Closed

  function Plain(s: string): (m: seq<Mark>)
    ensures |m| == |s| && forall i :: 0 <= i < |s| ==> m[i] == C(s[i])
  {
    if s == "" then [] else Plain(s[..|s| - 1]) + [C(s[|s| - 1])]
  }

  function Thought(s: string): (m: seq<Mark>)
    ensures |m| == |s| && forall i :: 0 <= i < |s| ==> m[i] == R(s[i])
  {
    if s == "" then [] else Thought(s[..|s| - 1]) + [R(s[|s| - 1])]
  }

  /** How much of a thought is certainly not the start of a closing tag: all but its last eight characters. */
  function Safe(t: string): (n: nat)
    ensures n <= |t| && |t| - n == (if |t| < 8 then |t| else 8)
  {
    if |t| > |CLOSE| then |t| - |CLOSE| else 0
  }

  /** What becomes of a whole text. The last characters of a thought that is never closed come out as content. */
  function Marks(inThink: bool, t: string): seq<Mark>
    decreases |t|
  {
    if inThink then
      match Find(CLOSE, t)
      case Some(k) => Thought(t[..k]) + [Closed] + Marks(false, t[k + |CLOSE|..])
      case None => Thought(t[..Safe(t)]) + Plain(t[Safe(t)..])
    else
      match Find(OPEN, t)
      case Some(k) => Plain(t[..k]) + [Opened] + Marks(true, t[k + |OPEN|..])
      case None => Plain(t)
  }

  /** Putting the tags back. */
  function Rebuild(marks: seq<Mark>): string {
    if marks == [] then "" else
      var n := |marks| - 1;
      Rebuild(marks[..n]) + match marks[n] { case C(c) => [c] case R(c) => [c] case Opened => OPEN case Closed => CLOSE }
  }

  /** The characters, without the places of the tags. */
  function Visible(marks: seq<Mark>): seq<Mark> {
    if marks == [] then [] else
      var n := |marks| - 1;
      Visible(marks[..n]) + if marks[n].C? || marks[n].R? then [marks[n]] else []
  }

  function ContentText(marks: seq<Mark>): string {
    if marks == [] then "" else
      var n := |marks| - 1;
      ContentText(marks[..n]) + if marks[n].C? then [marks[n].c] else ""
  }

  function ReasoningText(marks: seq<Mark>): string {
    if marks == [] then "" else
      var n := |marks| - 1;
      ReasoningText(marks[..n]) + if marks[n].R? then [marks[n].r] else ""
  }

  // ----- The tags

  /** The opening tag has no border: no proper part of its front is also its back. */
  lemma OpenBorderFree(j: nat)
    requires 0 < j < |OPEN|
    ensures OPEN[j] != OPEN[0]
  {
  }

  // ----- Texts that go on

  lemma PlainAdd(a: string, b: string)
    ensures Plain(a + b) == Plain(a) + Plain(b)
  {
  }

  lemma ThoughtAdd(a: string, b: string)
    ensures Thought(a + b) == Thought(a) + Thought(b)
  {
  }

  function Tag(inThink: bool): string {
    if inThink then CLOSE else OPEN
  }

  function Letters(inThink: bool, s: string): seq<Mark> {
    if inThink then Thought(s) else Plain(s)
  }

  function Change(inThink: bool): Mark {
    if inThink then Closed else Opened
  }

  lemma LettersAdd(inThink: bool, a: string, b: string)
    ensures Letters(inThink, a + b) == Letters(inThink, a) + Letters(inThink, b)
  {
    PlainAdd(a, b);
    ThoughtAdd(a, b);
  }

  lemma MarksFound(inThink: bool, t: string, k: nat)
    requires Find(Tag(inThink), t) == Some(k)
    ensures Marks(inThink, t) == Letters(inThink, t[..k]) + [Change(inThink)] + Marks(!inThink, t[k + |Tag(inThink)|..])
  {
  }

  lemma MarksNone(inThink: bool, t: string)
    requires Find(Tag(inThink), t) == None
    ensures Marks(inThink, t) == if inThink then Thought(t[..Safe(t)]) + Plain(t[Safe(t)..]) else Plain(t)
  {
  }

  /** A tag that has been found is taken out, whatever follows. */
  lemma TagFound(inThink: bool, t: string, rest: string, k: nat)
    requires Find(Tag(inThink), t) == Some(k)
    ensures Marks(inThink, t + rest) ==
      Letters(inThink, t[..k]) + [Change(inThink)] + Marks(!inThink, t[k + |Tag(inThink)|..] + rest)
  {
    hide Marks, Letters, Tag, Find;
    FindExtends(Tag(inThink), t, rest, k);
    MarksFound(inThink, t + rest, k);
    assert (t + rest)[..k] == t[..k];
    assert (t + rest)[k + |Tag(inThink)|..] == t[k + |Tag(inThink)|..] + rest;
  }

  lemma SkipFound(inThink: bool, a: string, b: string, k: nat)
    requires Find(Tag(inThink), b) == Some(k) && Find(Tag(inThink), a + b) == Some(|a| + k)
    ensures Marks(inThink, a + b) == Letters(inThink, a) + Marks(inThink, b)
  {
    hide Marks, Letters, Tag, Change, Find;
    MarksFound(inThink, a + b, |a| + k);
    MarksFound(inThink, b, k);
    assert (a + b)[..|a| + k] == a + b[..k];
    assert (a + b)[|a| + k + |Tag(inThink)|..] == b[k + |Tag(inThink)|..];
    LettersAdd(inThink, a, b[..k]);
    Regroup(Letters(inThink, a), Letters(inThink, b[..k]), [Change(inThink)], Marks(!inThink, b[k + |Tag(inThink)|..]));
  }

  lemma Regroup<T>(a: seq<T>, b: seq<T>, c: seq<T>, d: seq<T>)
    ensures a + b + c + d == a + (b + c + d)
  {
  }

  lemma SafeSkip(a: string, b: string)
    requires |b| >= |CLOSE|
    ensures Safe(a + b) == |a| + Safe(b)
    ensures (a + b)[..Safe(a + b)] == a + b[..Safe(b)] && (a + b)[Safe(a + b)..] == b[Safe(b)..]
  {
  }

  /** The end of a text, when its front stays clear of what is held back there. */
  lemma SkipNone(inThink: bool, a: string, b: string)
    requires Find(Tag(inThink), b) == None && Find(Tag(inThink), a + b) == None
    requires inThink ==> |b| >= |CLOSE|
    ensures Marks(inThink, a + b) == Letters(inThink, a) + Marks(inThink, b)
  {
    hide Marks, Find, Tag, Safe, Thought, Plain;
    MarksNone(inThink, a + b);
    MarksNone(inThink, b);
    if inThink {
      SafeSkip(a, b);
      ThoughtAdd(a, b[..Safe(b)]);
    } else {
      PlainAdd(a, b);
    }
  }

  lemma MarksSkip(inThink: bool, a: string, b: string)
    requires Find(Tag(inThink), a + b) == if Find(Tag(inThink), b).Some? then Some(|a| + Find(Tag(inThink), b).value) else None
    requires inThink ==> |b| >= |CLOSE|
    ensures Marks(inThink, a + b) == Letters(inThink, a) + Marks(inThink, b)
  {
    hide Marks, Find, Tag, Letters;
    if Find(Tag(inThink), b).Some? {
      SkipFound(inThink, a, b, Find(Tag(inThink), b).value);
    } else {
      SkipNone(inThink, a, b);
    }
  }

  /** Of a thought without a closing tag all but the last characters can be let out. */
  lemma ThoughtSafe(t: string, rest: string)
    requires Find(CLOSE, t) == None
    ensures Marks(true, t + rest) == Thought(t[..Safe(t)]) + Marks(true, t[Safe(t)..] + rest)
  {
    hide Marks, Find, Thought;
    var n := Safe(t);
    var a, b := t[..n], t[n..] + rest;
    assert a + b == t + rest;
    if n == 0 {
      assert a == "" && b == t + rest;
    } else {
      forall j | 0 <= j < |a| ensures !At(CLOSE, a + b, j) {
        AtPrefix(CLOSE, t, rest, j);
      }
      FindSkips(CLOSE, a, b);
      MarksSkip(true, a, b);
    }
  }

  predicate EndsWith(t: string, p: string) {
    |p| <= |t| && t[|t| - |p|..] == p
  }

  /** The one length at which a text without an opening tag may end in the start of one. */
  lemma OnePartial(t: string, i: nat, j: nat)
    requires 0 < i < |OPEN| && 0 < j < |OPEN|
    requires EndsWith(t, OPEN[..i]) && EndsWith(t, OPEN[..j])
    ensures i == j
  {
    if i < j {
      Border(t, i, j);
    } else if j < i {
      Border(t, j, i);
    }
  }

  lemma Border(t: string, i: nat, j: nat)
    requires 0 < i < j < |OPEN| && EndsWith(t, OPEN[..i])
    ensures !EndsWith(t, OPEN[..j])
  {
    if EndsWith(t, OPEN[..j]) {
      assert t[|t| - i] == t[|t| - i..][0] == OPEN[..i][0] == OPEN[0];
      assert t[|t| - i] == t[|t| - j..][j - i] == OPEN[..j][j - i] == OPEN[j - i];
      OpenBorderFree(j - i);
    }
  }

  /** Content without an opening tag can be let out up to the start of a tag it may end in. */
  lemma ContentSafe(t: string, rest: string, i: nat)
    requires Find(OPEN, t) == None && i < |OPEN| && i <= |t|
    requires i > 0 ==> EndsWith(t, OPEN[..i])
    requires i == 0 ==> forall j :: 0 < j < |OPEN| ==> !EndsWith(t, OPEN[..j])
    ensures Marks(false, t + rest) == Plain(t[..|t| - i]) + Marks(false, t[|t| - i..] + rest)
  {
    var a, b := t[..|t| - i], t[|t| - i..] + rest;
    assert a + b == t + rest;
    forall j | 0 <= j < |a| ensures !At(OPEN, a + b, j) {
      if j + |OPEN| <= |t| {
        AtPrefix(OPEN, t, rest, j);
      } else if At(OPEN, t + rest, j) {
        Straddle(t, rest, j);
        if i > 0 {
          OnePartial(t, i, |t| - j);
        }
      }
    }
    FindSkips(OPEN, a, b);
    MarksSkip(false, a, b);
  }

  /** A tag that starts in t and ends beyond shows its front at the end of t. */
  lemma Straddle(t: string, rest: string, j: nat)
    requires j < |t| < j + |OPEN| && At(OPEN, t + rest, j)
    ensures EndsWith(t, OPEN[..|t| - j])
  {
    var n := |t| - j;
    assert OPEN == (t + rest)[j..j + |OPEN|];
    assert forall k :: 0 <= k < n ==> OPEN[..n][k] == (t + rest)[j + k] == t[j + k];
    assert t[j..] == OPEN[..n];
  }

  // ----- The text is all there

  lemma {:induction false} RebuildAdd(a: seq<Mark>, b: seq<Mark>)
    ensures Rebuild(a + b) == Rebuild(a) + Rebuild(b)
  {
    if b == [] {
      assert a + b == a;
    } else {
      var n := |b| - 1;
      assert (a + b)[..|a| + n] == a + b[..n];
      RebuildAdd(a, b[..n]);
    }
  }

  lemma {:induction false} RebuildLetters(s: string)
    ensures Rebuild(Plain(s)) == s && Rebuild(Thought(s)) == s
  {
    if s != "" {
      var n := |s| - 1;
      RebuildLetters(s[..n]);
      assert Plain(s)[..n] == Plain(s[..n]) && Thought(s)[..n] == Thought(s[..n]);
    }
  }

  lemma RebuildChange(inThink: bool)
    ensures Rebuild([Change(inThink)]) == Tag(inThink)
  {
    assert [Change(inThink)][..0] == [];
  }

  lemma ThreeParts(inThink: bool, t: string, k: nat)
    requires At(Tag(inThink), t, k)
    ensures t == t[..k] + Tag(inThink) + t[k + |Tag(inThink)|..]
  {
    assert t[k..k + |Tag(inThink)|] == Tag(inThink);
  }

  lemma RebuildEnd(inThink: bool, t: string)
    requires Find(Tag(inThink), t) == None
    ensures Rebuild(Marks(inThink, t)) == t
  {
    hide Find, Rebuild, Plain, Thought, Safe;
    MarksNone(inThink, t);
    RebuildLetters(t);
    RebuildLetters(t[..Safe(t)]);
    RebuildLetters(t[Safe(t)..]);
    RebuildAdd(Thought(t[..Safe(t)]), Plain(t[Safe(t)..]));
    assert t == t[..Safe(t)] + t[Safe(t)..];
  }

  /** No character is lost, repeated or moved: putting the tags back where they were taken out gives the text. */
  lemma {:induction false} MarksRebuild(inThink: bool, t: string)
    ensures Rebuild(Marks(inThink, t)) == t
    decreases |t|
  {
    hide Rebuild, Plain, Thought, Marks, Change;
    var found := Find(Tag(inThink), t);
    if found.Some? {
      var k := found.value;
      var rest := t[k + |Tag(inThink)|..];
      MarksFound(inThink, t, k);
      MarksRebuild(!inThink, rest);
      RebuildLetters(t[..k]);
      RebuildChange(inThink);
      RebuildAdd(Letters(inThink, t[..k]), [Change(inThink)]);
      RebuildAdd(Letters(inThink, t[..k]) + [Change(inThink)], Marks(!inThink, rest));
      ThreeParts(inThink, t, k);
    } else {
      RebuildEnd(inThink, t);
    }
  }

  // ----- Fragment by fragment

  // A piece of text as it is passed on.
  datatype Piece = Content(text: string) | Reasoning(text: string)

  function LettersOf(p: Piece): seq<Mark> {
    if p.Content? then Plain(p.text) else Thought(p.text)
  }

  /** What the pieces show, character by character. */
  function Shown(pieces: seq<Piece>): seq<Mark> {
    if pieces == [] then [] else
      Shown(pieces[..|pieces| - 1]) + LettersOf(pieces[|pieces| - 1])
  }

  /** Whatever follows, having logged log and kept buffer is as good as starting over. */
  ghost predicate Resumes(inThink0: bool, t: string, log: seq<Mark>, inThink: bool, buffer: string) {
    forall rest :: Marks(inThink0, t + rest) == log + Marks(inThink, buffer + rest)
  }

  /** What may be kept back: nothing that holds a tag, and no more than a tag's length. */
  ghost predicate Held(inThink: bool, buffer: string) {
    Find(Tag(inThink), buffer) == None && |buffer| <= if inThink then |CLOSE| else |OPEN| - 1
  }

  lemma ResumesStart(inThink: bool, t: string)
    ensures Resumes(inThink, t, [], inThink, t)
  {
  }

  lemma ResumesFound(inThink0: bool, t: string, log: seq<Mark>, inThink: bool, buffer: string, k: nat)
    requires Resumes(inThink0, t, log, inThink, buffer) && Find(Tag(inThink), buffer) == Some(k)
    ensures Resumes(inThink0, t, log + (Letters(inThink, buffer[..k]) + [Change(inThink)]), !inThink, buffer[k + |Tag(inThink)|..])
  {
    hide Marks, Letters, Tag, Change, Find;
    forall rest ensures Marks(inThink0, t + rest) ==
      log + (Letters(inThink, buffer[..k]) + [Change(inThink)]) + Marks(!inThink, buffer[k + |Tag(inThink)|..] + rest)
    {
      TagFound(inThink, buffer, rest, k);
    }
  }

  lemma ResumesSafe(inThink0: bool, t: string, log: seq<Mark>, inThink: bool, buffer: string, n: nat)
    requires Resumes(inThink0, t, log, inThink, buffer) && n <= |buffer|
    requires forall rest :: Marks(inThink, buffer + rest) == Letters(inThink, buffer[..n]) + Marks(inThink, buffer[n..] + rest)
    ensures Resumes(inThink0, t, log + Letters(inThink, buffer[..n]), inThink, buffer[n..])
  {
    hide Marks, Letters;
    forall rest ensures Marks(inThink0, t + rest) == log + Letters(inThink, buffer[..n]) + Marks(inThink, buffer[n..] + rest) {
      assert Marks(inThink, buffer + rest) == Letters(inThink, buffer[..n]) + Marks(inThink, buffer[n..] + rest);
    }
  }

  lemma ResumesMore(inThink0: bool, t: string, log: seq<Mark>, inThink: bool, buffer: string, more: string)
    requires Resumes(inThink0, t, log, inThink, buffer)
    ensures Resumes(inThink0, t + more, log, inThink, buffer + more)
  {
    hide Marks;
    forall rest ensures Marks(inThink0, t + more + rest) == log + Marks(inThink, buffer + more + rest) {
      assert t + more + rest == t + (more + rest) && buffer + more + rest == buffer + (more + rest);
    }
  }

  lemma ResumesThen(inThink0: bool, t: string, log: seq<Mark>, mid: bool, between: string, more: seq<Mark>,
                    inThink: bool, buffer: string)
    requires Resumes(inThink0, t, log, mid, between) && Resumes(mid, between, more, inThink, buffer)
    ensures Resumes(inThink0, t, log + more, inThink, buffer)
  {
    hide Marks;
    forall rest ensures Marks(inThink0, t + rest) == log + more + Marks(inThink, buffer + rest) {
      assert Marks(mid, between + rest) == more + Marks(inThink, buffer + rest);
    }
  }

  lemma {:induction false} VisibleAdd(a: seq<Mark>, b: seq<Mark>)
    ensures Visible(a + b) == Visible(a) + Visible(b)
  {
    if b == [] {
      assert a + b == a;
    } else {
      var n := |b| - 1;
      assert (a + b)[..|a| + n] == a + b[..n];
      VisibleAdd(a, b[..n]);
    }
  }

  lemma {:induction false} VisibleLetters(s: string)
    ensures Visible(Plain(s)) == Plain(s) && Visible(Thought(s)) == Thought(s)
  {
    if s != "" {
      var n := |s| - 1;
      VisibleLetters(s[..n]);
      assert Plain(s)[..n] == Plain(s[..n]) && Thought(s)[..n] == Thought(s[..n]);
    }
  }

  lemma {:induction false} ContentAdd(a: seq<Mark>, b: seq<Mark>)
    ensures ContentText(a + b) == ContentText(a) + ContentText(b)
  {
    if b == [] {
      assert a + b == a;
    } else {
      var n := |b| - 1;
      assert (a + b)[..|a| + n] == a + b[..n];
      ContentAdd(a, b[..n]);
    }
  }

  lemma {:induction false} ContentLetters(s: string)
    ensures ContentText(Plain(s)) == s && ContentText(Thought(s)) == ""
  {
    if s != "" {
      var n := |s| - 1;
      ContentLetters(s[..n]);
      assert Plain(s)[..n] == Plain(s[..n]) && Thought(s)[..n] == Thought(s[..n]);
    }
  }

  lemma ContentChange(inThink: bool)
    ensures ContentText([Change(inThink)]) == ""
  {
    assert [Change(inThink)][..0] == [];
  }

  function Say(inThink: bool, s: string): seq<Piece> {
    if s == "" then [] else [if inThink then Reasoning(s) else Content(s)]
  }

  lemma ShownSay(pieces: seq<Piece>, inThink: bool, s: string)
    ensures Shown(pieces + Say(inThink, s)) == Shown(pieces) + Letters(inThink, s)
  {
    if s == "" {
      assert pieces + Say(inThink, s) == pieces;
    } else {
      assert (pieces + Say(inThink, s))[..|pieces|] == pieces;
    }
  }

  lemma ChangeUnseen(log: seq<Mark>, inThink: bool)
    ensures Visible(log + [Change(inThink)]) == Visible(log)
  {
    assert (log + [Change(inThink)])[..|log|] == log;
  }

  /** Letting out letters, and then perhaps passing a tag, shows just these letters. */
  lemma SayShows(pieces: seq<Piece>, log: seq<Mark>, inThink: bool, s: string)
    requires Shown(pieces) == Visible(log)
    ensures Shown(pieces + Say(inThink, s)) == Visible(log + Letters(inThink, s))
    ensures Visible(log + (Letters(inThink, s) + [Change(inThink)])) == Visible(log + Letters(inThink, s))
  {
    VisibleLetters(s);
    hide Shown, Visible, Say, Plain, Thought, Change;
    VisibleAdd(log, Letters(inThink, s));
    ShownSay(pieces, inThink, s);
    assert log + (Letters(inThink, s) + [Change(inThink)]) == log + Letters(inThink, s) + [Change(inThink)];
    ChangeUnseen(log + Letters(inThink, s), inThink);
  }

  /** The length of the start of an opening tag that t ends in, or 0. */
  method PartialOpen(t: string) returns (i: nat)
    ensures i < |OPEN| && i <= |t|
    ensures i > 0 ==> EndsWith(t, OPEN[..i])
    ensures i == 0 ==> forall j :: 0 < j < |OPEN| ==> !EndsWith(t, OPEN[..j])
  {
    i := 1;
    var end := if |t| + 1 < |OPEN| then |t| + 1 else |OPEN|;
    while i < end
      invariant 1 <= i <= end
      invariant forall j :: 0 < j < i ==> !EndsWith(t, OPEN[..j])
    {
      if EndsWith(t, OPEN[..i]) { return; }
      i := i + 1;
    }
    i := 0;
  }

  /** Lets out all that the buffer settles, and keeps back what a tag may still start in. */
  method Drain(inThink0: bool, buffer0: string) returns (inThink: bool, buffer: string, pieces: seq<Piece>,
               ghost log: seq<Mark>)
    ensures Resumes(inThink0, buffer0, log, inThink, buffer)
    ensures Shown(pieces) == Visible(log)
    ensures Held(inThink, buffer)
    ensures forall p :: p in pieces ==> p.text != ""
  {
    hide Marks, Find, Resumes, Letters, Shown, Visible, EndsWith;
    inThink, buffer, pieces, log := inThink0, buffer0, [], [];
    ResumesStart(inThink, buffer);
    NothingShown();
    while buffer != ""
      invariant Resumes(inThink0, buffer0, log, inThink, buffer)
      invariant Shown(pieces) == Visible(log)
      invariant forall p :: p in pieces ==> p.text != ""
      decreases |buffer|
    {
      var found := Find(Tag(inThink), buffer);
      if found.Some? {
        var k := found.value;
        ResumesFound(inThink0, buffer0, log, inThink, buffer, k);
        SayShows(pieces, log, inThink, buffer[..k]);
        log := log + (Letters(inThink, buffer[..k]) + [Change(inThink)]);
        pieces := pieces + Say(inThink, buffer[..k]);
        buffer := buffer[k + |Tag(inThink)|..];
        inThink := !inThink;
      } else {
        var n;
        if inThink {
          n := Safe(buffer);
          forall rest ensures Marks(inThink, buffer + rest) == Letters(inThink, buffer[..n]) + Marks(inThink, buffer[n..] + rest) {
            ThoughtOut(buffer, rest);
          }
        } else {
          var i := PartialOpen(buffer);
          n := |buffer| - i;
          forall rest ensures Marks(inThink, buffer + rest) == Letters(inThink, buffer[..n]) + Marks(inThink, buffer[n..] + rest) {
            ContentOut(buffer, rest, i);
          }
        }
        ResumesSafe(inThink0, buffer0, log, inThink, buffer, n);
        SayShows(pieces, log, inThink, buffer[..n]);
        log := log + Letters(inThink, buffer[..n]);
        pieces := pieces + Say(inThink, buffer[..n]);
        KeptHolds(inThink, buffer, n);
        buffer := buffer[n..];
        return;
      }
    }
    EmptyHeld(inThink);
  }

  lemma NothingShown()
    ensures Shown([]) == Visible([])
  {
  }

  lemma EmptyHeld(inThink: bool)
    ensures Held(inThink, "")
  {
  }

  lemma ThoughtOut(t: string, rest: string)
    requires Find(CLOSE, t) == None
    ensures Marks(true, t + rest) == Letters(true, t[..Safe(t)]) + Marks(true, t[Safe(t)..] + rest)
  {
    ThoughtSafe(t, rest);
  }

  lemma ContentOut(t: string, rest: string, i: nat)
    requires Find(OPEN, t) == None && i < |OPEN| && i <= |t|
    requires i > 0 ==> EndsWith(t, OPEN[..i])
    requires i == 0 ==> forall j :: 0 < j < |OPEN| ==> !EndsWith(t, OPEN[..j])
    ensures Marks(false, t + rest) == Letters(false, t[..|t| - i]) + Marks(false, t[|t| - i..] + rest)
  {
    ContentSafe(t, rest, i);
  }

  lemma KeptHolds(inThink: bool, buffer: string, n: nat)
    requires Find(Tag(inThink), buffer) == None && n <= |buffer|
    requires |buffer| - n <= if inThink then |CLOSE| else |OPEN| - 1
    ensures Held(inThink, buffer[n..])
  {
    var kept := buffer[n..];
    assert buffer[..n] + kept == buffer;
    forall j: nat ensures !At(Tag(inThink), kept, j) {
      AtShift(Tag(inThink), buffer[..n], kept, j);
    }
    FindNone(Tag(inThink), kept);
  }
}
