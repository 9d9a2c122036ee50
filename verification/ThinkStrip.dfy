/** Removing the think blocks from a text that is there at once, and when that agrees with the streaming splitter. */
module ThinkStrip {
  import opened Wrappers
  import opened TextSearch
  import opened ThinkSplitter

  // ----- Texts

  predicate IsSpace(c: char) {
    var i := c as int;
    || 9 <= i <= 13 || 28 <= i <= 32 || i == 0x85 || i == 0xA0 || i == 0x1680 || 0x2000 <= i <= 0x200A
    || i == 0x2028 || i == 0x2029 || i == 0x202F || i == 0x205F || i == 0x3000
  }

  function StripRight(s: string): string {
    if s != "" && IsSpace(s[|s| - 1]) then StripRight(s[..|s| - 1]) else s
  }

  function StripLeft(s: string): string {
    if s != "" && IsSpace(s[0]) then StripLeft(s[1..]) else s
  }

  function Strip(s: string): string {
    StripLeft(StripRight(s))
  }

  ghost predicate AllSpace(s: string) {
    forall i :: 0 <= i < |s| ==> IsSpace(s[i])
  }

  lemma {:induction false} StripRightIs(s: string) returns (right: string)
    ensures s == StripRight(s) + right && AllSpace(right)
    ensures StripRight(s) != "" ==> !IsSpace(StripRight(s)[|StripRight(s)| - 1])
    decreases |s|
  {
    hide IsSpace;
    right := "";
    if s != "" && IsSpace(s[|s| - 1]) {
      right := StripRightIs(s[..|s| - 1]);
      right := right + [s[|s| - 1]];
    }
  }

  lemma {:induction false} StripLeftIs(s: string) returns (left: string)
    ensures s == left + StripLeft(s) && AllSpace(left)
    ensures StripLeft(s) != "" ==> !IsSpace(StripLeft(s)[0])
    decreases |s|
  {
    hide IsSpace;
    left := "";
    if s != "" && IsSpace(s[0]) {
      left := StripLeftIs(s[1..]);
      left := [s[0]] + left;
    }
  }

  /** Stripping takes off space at both ends, all of it and nothing else. */
  lemma StripIs(s: string) returns (left: string, right: string)
    ensures s == left + Strip(s) + right && AllSpace(left) && AllSpace(right)
    ensures Strip(s) != "" ==> !IsSpace(Strip(s)[0]) && !IsSpace(Strip(s)[|Strip(s)| - 1])
  {
    right := StripRightIs(s);
    left := StripLeftIs(StripRight(s));
    hide IsSpace, StripRight, StripLeft, AllSpace;
    if Strip(s) != "" {
      assert StripRight(s)[|StripRight(s)| - 1] == Strip(s)[|Strip(s)| - 1];
    }
  }

  /** The lines joined by newlines. */
  function Join(lines: seq<string>): string {
    if lines == [] then "" else if |lines| == 1 then lines[0] else
      Join(lines[..|lines| - 1]) + "\n" + lines[|lines| - 1]
  }

  /** Without a newline at the very end. */
  function Chomp(s: string): string {
    if s != "" && s[|s| - 1] == '\n' then s[..|s| - 1] else s
  }

  /** Lines are joined by newlines, and one newline at the end of an unclosed thought is not part of it. */
  lemma LinesAre(lines: seq<string>, x: string)
    ensures Join([x]) == x && (lines != [] ==> Join(lines + [x]) == Join(lines) + "\n" + x)
    ensures Chomp(x + "\n") == x && (x == "" || x[|x| - 1] != '\n' ==> Chomp(x) == x)
  {
    assert (lines + [x])[..|lines|] == lines && (x + "\n")[..|x|] == x;
  }

  // ----- Blocks: an opening tag up to the next closing tag

  /** Where the first block starts, and how long the thought in it is. */
  function FirstBlock(t: string): (r: Option<(nat, nat)>)
    ensures r.Some? ==> r.value.0 + |OPEN| + r.value.1 + |CLOSE| <= |t|
  {
    match Find(OPEN, t)
    case None => None
    case Some(k) =>
      match Find(CLOSE, t[k + |OPEN|..])
      case None => None
      case Some(j) => Some((k, j))
  }

  function After(t: string, block: (nat, nat)): string
    requires block.0 + |OPEN| + block.1 + |CLOSE| <= |t|
  {
    t[block.0 + |OPEN| + block.1 + |CLOSE|..]
  }

  function ThoughtIn(t: string, block: (nat, nat)): string
    requires block.0 + |OPEN| + block.1 <= |t|
  {
    t[block.0 + |OPEN|..][..block.1]
  }

  /** The text without its blocks. */
  function CleanOf(t: string): string
    decreases |t|
  {
    match FirstBlock(t)
    case None => t
    case Some(b) => t[..b.0] + CleanOf(After(t, b))
  }

  /** The thoughts in its blocks. */
  function GroupsOf(t: string): seq<string>
    decreases |t|
  {
    match FirstBlock(t)
    case None => []
    case Some(b) => [ThoughtIn(t, b)] + GroupsOf(After(t, b))
  }

  /** What is returned once the blocks are out: the rest is searched for an opening tag again. */
  function Outcome(clean: string, groups: seq<string>): (string, string) {
    match Find(OPEN, clean)
    case None => (Strip(clean), Join(groups))
    case Some(p) => (Strip(clean[..p]), Join(groups + [Chomp(clean[p + |OPEN|..])]))
  }

  lemma BlockOut(t: string, b: (nat, nat))
    requires FirstBlock(t) == Some(b)
    ensures CleanOf(t) == t[..b.0] + CleanOf(After(t, b)) && GroupsOf(t) == [ThoughtIn(t, b)] + GroupsOf(After(t, b))
  {
  }

  lemma NoBlock(t: string)
    requires FirstBlock(t) == None
    ensures CleanOf(t) == t && GroupsOf(t) == []
  {
  }

  lemma AppendAssoc<T>(a: seq<T>, b: seq<T>, c: seq<T>)
    ensures a + b + c == a + (b + c)
  {
  }

  method StripThinkTags(content: string) returns (clean: string, reasoning: string)
    ensures (clean, reasoning) == Outcome(CleanOf(content), GroupsOf(content))
  {
    hide FirstBlock, Find, CleanOf, GroupsOf;
    var parts, rest := [], content;
    clean := "";
    AppendAssoc("", "", CleanOf(content));
    var block := FirstBlock(rest);
    while block.Some?
      invariant block == FirstBlock(rest)
      invariant CleanOf(content) == clean + CleanOf(rest) && GroupsOf(content) == parts + GroupsOf(rest)
      decreases |rest|
    {
      BlockOut(rest, block.value);
      AppendAssoc(clean, rest[..block.value.0], CleanOf(After(rest, block.value)));
      AppendAssoc(parts, [ThoughtIn(rest, block.value)], GroupsOf(After(rest, block.value)));
      parts := parts + [ThoughtIn(rest, block.value)];
      clean := clean + rest[..block.value.0];
      rest := After(rest, block.value);
      block := FirstBlock(rest);
    }
    NoBlock(rest);
    clean := clean + rest;
    assert parts + [] == parts;
    var unclosed := Find(OPEN, clean);
    if unclosed.Some? {
      parts := parts + [Chomp(clean[unclosed.value + |OPEN|..])];
      clean := clean[..unclosed.value];
    }
    clean, reasoning := Strip(clean), Join(parts);
  }

  // ----- The same text through the splitter

  /** The reasoning at the front. */
  function Lead(marks: seq<Mark>): string {
    if marks != [] && marks[0].R? then [marks[0].r] + Lead(marks[1..]) else ""
  }

  /** The reasoning of each block, the last one perhaps unclosed. */
  function Blocks(marks: seq<Mark>): seq<string> {
    if marks == [] then [] else
      (if marks[0].Opened? then [Lead(marks[1..])] else []) + Blocks(marks[1..])
  }

  /** What follows an opening tag that is never closed. */
  function Unclosed(t: string): Option<string>
    decreases |t|
  {
    match FirstBlock(t)
    case Some(b) => Unclosed(After(t, b))
    case None => if Find(OPEN, t).Some? then Some(t[Find(OPEN, t).value + |OPEN|..]) else None
  }

  /** What stands outside all blocks and before an opening tag that is never closed. */
  function Outside(t: string): string
    decreases |t|
  {
    match FirstBlock(t)
    case Some(b) => t[..b.0] + Outside(After(t, b))
    case None => if Find(OPEN, t).Some? then t[..Find(OPEN, t).value] else t
  }

  lemma OutsideOut(t: string, b: (nat, nat))
    requires FirstBlock(t) == Some(b)
    ensures Outside(t) == t[..b.0] + Outside(After(t, b)) && Unclosed(t) == Unclosed(After(t, b))
  {
  }

  lemma OutsideEnd(t: string)
    requires FirstBlock(t) == None
    ensures var k := Find(OPEN, t);
      && Outside(t) == (if k.Some? then t[..k.value] else t)
      && Unclosed(t) == (if k.Some? then Some(t[k.value + |OPEN|..]) else None)
  {
  }

  lemma {:induction false} CleanIs(t: string)
    ensures CleanOf(t) == Outside(t) + if Unclosed(t).Some? then OPEN + Unclosed(t).value else ""
    decreases |t|
  {
    hide FirstBlock, CleanOf, Outside, Unclosed, Find;
    if FirstBlock(t).Some? {
      var b := FirstBlock(t).value;
      CleanIs(After(t, b));
      BlockOut(t, b);
      OutsideOut(t, b);
    } else {
      NoBlock(t);
      OutsideEnd(t);
      if Find(OPEN, t).Some? {
        ThreeParts(false, t, Find(OPEN, t).value);
      }
    }
  }

  lemma {:induction false} LeadOf(x: string, m: seq<Mark>)
    requires m != [] ==> !m[0].R?
    ensures Lead(Thought(x) + m) == x
  {
    if x == "" {
      assert Thought(x) + m == m;
    } else {
      ThoughtTail(x);
      assert (Thought(x) + m)[1..] == Thought(x[1..]) + m;
      LeadOf(x[1..], m);
    }
  }

  lemma ThoughtTail(x: string)
    requires x != ""
    ensures Thought(x)[1..] == Thought(x[1..]) && Plain(x)[1..] == Plain(x[1..])
  {
  }

  lemma BlocksTail(first: Mark, m: seq<Mark>)
    requires !first.Opened?
    ensures Blocks([first] + m) == Blocks(m)
  {
    assert ([first] + m)[1..] == m;
  }

  lemma LettersFirst(inThink: bool, x: string) returns (first: Mark)
    requires x != ""
    ensures Letters(inThink, x) == [first] + Letters(inThink, x[1..]) && !first.Opened?
  {
    ThoughtTail(x);
    var all := Letters(inThink, x);
    first := all[0];
    assert all == [first] + all[1..];
    hide Plain, Thought;
  }

  lemma {:induction false} BlocksSkip(inThink: bool, x: string, m: seq<Mark>)
    ensures Blocks(Letters(inThink, x) + m) == Blocks(m)
  {
    if x == "" {
      assert Letters(inThink, x) + m == m;
    } else {
      hide Letters, Blocks;
      BlocksSkip(inThink, x[1..], m);
      var first := LettersFirst(inThink, x);
      AppendAssoc([first], Letters(inThink, x[1..]), m);
      BlocksTail(first, Letters(inThink, x[1..]) + m);
    }
  }

  lemma BlocksOpen(x: string, m: seq<Mark>)
    requires m != [] ==> !m[0].R?
    ensures Blocks([Opened] + (Thought(x) + m)) == [x] + Blocks(m)
  {
    assert ([Opened] + (Thought(x) + m))[1..] == Thought(x) + m;
    LeadOf(x, m);
    BlocksSkip(true, x, m);
  }

  /** A block on its way through the splitter. */
  lemma MarksBlock(t: string, b: (nat, nat))
    requires FirstBlock(t) == Some(b)
    ensures Marks(false, t) == Plain(t[..b.0]) + ([Opened] + (Thought(ThoughtIn(t, b)) + ([Closed] + Marks(false, After(t, b)))))
  {
    hide Marks, Find, Plain, Thought, FirstBlock;
    FirstBlockIs(t, b);
    var x := t[b.0 + |OPEN|..];
    MarksFound(false, t, b.0);
    MarksFound(true, x, b.1);
    AfterIs(t, b);
    hide Letters, Change, Tag;
    AppendAssoc(Plain(t[..b.0]), [Opened], Marks(true, x));
    AppendAssoc(Thought(ThoughtIn(t, b)), [Closed], Marks(false, After(t, b)));
  }

  lemma AfterIs(t: string, b: (nat, nat))
    requires b.0 + |OPEN| + b.1 + |CLOSE| <= |t|
    ensures t[b.0 + |OPEN|..][b.1 + |CLOSE|..] == After(t, b)
  {
  }

  lemma FirstBlockIs(t: string, b: (nat, nat))
    requires FirstBlock(t) == Some(b)
    ensures Find(OPEN, t) == Some(b.0) && Find(CLOSE, t[b.0 + |OPEN|..]) == Some(b.1)
  {
  }

  /** A text that ends in an unclosed block. */
  lemma MarksUnclosed(t: string, k: nat)
    requires FirstBlock(t) == None && Find(OPEN, t) == Some(k)
    ensures var x := t[k + |OPEN|..];
      Marks(false, t) == Plain(t[..k]) + ([Opened] + (Thought(x[..Safe(x)]) + Plain(x[Safe(x)..])))
  {
    hide Marks, Plain, Thought, Safe;
    MarksFound(false, t, k);
    MarksNone(true, t[k + |OPEN|..]);
  }

  /** What the splitter makes of a whole text: all the content, then the end of an unclosed thought. */
  lemma {:induction false} SplitterIs(t: string)
    ensures var x := Unclosed(t);
      && ContentText(Marks(false, t)) == Outside(t) + (if x.Some? then x.value[Safe(x.value)..] else "")
      && Blocks(Marks(false, t)) == GroupsOf(t) + (if x.Some? then [x.value[..Safe(x.value)]] else [])
    decreases |t|
  {
    hide Marks, Plain, Thought, Find, ContentText, Blocks, Safe;
    if FirstBlock(t).Some? {
      var b := FirstBlock(t).value;
      SplitterIs(After(t, b));
      SplitterBlock(t, b);
    } else if Find(OPEN, t).Some? {
      SplitterTail(t, Find(OPEN, t).value);
    } else {
      MarksNone(false, t);
      ContentLetters(t);
      BlocksSkip(false, t, []);
      BlocksNone(t);
    }
  }

  lemma BlocksNone(t: string)
    ensures Plain(t) + [] == Plain(t) && Blocks([]) == []
  {
  }

  lemma SplitterBlock(t: string, b: (nat, nat))
    requires FirstBlock(t) == Some(b)
    ensures ContentText(Marks(false, t)) == t[..b.0] + ContentText(Marks(false, After(t, b)))
    ensures Blocks(Marks(false, t)) == [ThoughtIn(t, b)] + Blocks(Marks(false, After(t, b)))
  {
    hide Marks, Plain, Thought, Find, ContentText, Lead, FirstBlock;
    var pre, x, m := t[..b.0], ThoughtIn(t, b), Marks(false, After(t, b));
    MarksBlock(t, b);
    BlocksSkip(false, pre, [Opened] + (Thought(x) + ([Closed] + m)));
    BlocksOpen(x, [Closed] + m);
    assert ([Closed] + m)[1..] == m;
    ContentLetters(pre);
    ContentLetters(x);
    ContentChange(true);
    ContentChange(false);
    ContentAdd([Closed], m);
    ContentAdd(Thought(x), [Closed] + m);
    ContentAdd([Opened], Thought(x) + ([Closed] + m));
    ContentAdd(Plain(pre), [Opened] + (Thought(x) + ([Closed] + m)));
  }

  lemma SplitterTail(t: string, k: nat)
    requires FirstBlock(t) == None && Find(OPEN, t) == Some(k)
    ensures var x := t[k + |OPEN|..];
      && ContentText(Marks(false, t)) == t[..k] + x[Safe(x)..]
      && Blocks(Marks(false, t)) == [x[..Safe(x)]]
  {
    hide Marks, Thought, Find, ContentText, Lead, FirstBlock, Safe, Blocks;
    var pre, x := t[..k], t[k + |OPEN|..];
    var a, b := x[..Safe(x)], x[Safe(x)..];
    MarksUnclosed(t, k);
    BlocksSkip(false, pre, [Opened] + (Thought(a) + Plain(b)));
    BlocksOpen(a, Plain(b));
    BlocksSkip(false, b, []);
    BlocksNone(b);
    ContentLetters(pre);
    ContentLetters(a);
    ContentLetters(b);
    ContentChange(false);
    ContentAdd(Thought(a), Plain(b));
    ContentAdd([Opened], Thought(a) + Plain(b));
    ContentAdd(Plain(pre), [Opened] + (Thought(a) + Plain(b)));
  }

  // ----- When the two agree

  lemma {:induction false} JoinLast(a: seq<string>, x: string, y: string)
    ensures Join(a + [x]) == Join(a + [y]) <==> x == y
  {
    assert (a + [x])[..|a|] == a && (a + [y])[..|a|] == a;
    if a != [] && Join(a + [x]) == Join(a + [y]) {
      var front := Join(a) + "\n";
      assert front + x == Join(a + [x]) && front + y == Join(a + [y]);
      assert x == (front + x)[|front|..] && y == (front + y)[|front|..];
    }
  }

  lemma JoinMore(a: seq<string>, x: string)
    requires a != []
    ensures Join(a + [x]) != Join(a)
  {
    assert (a + [x])[..|a|] == a;
    assert |Join(a + [x])| > |Join(a)|;
  }

  /** What the splitter and the one-shot version come to for a whole text. */
  function Streamed(t: string): (string, string) {
    (Strip(ContentText(Marks(false, t))), Join(Blocks(Marks(false, t))))
  }

  function Stripped(t: string): (string, string) {
    Outcome(CleanOf(t), GroupsOf(t))
  }

  /** Taking the blocks out leaves no opening tag, or leaves one with nothing but a newline after it that the text had
      left unclosed. */
  predicate LeavesNoTag(t: string) {
    match Find(OPEN, CleanOf(t))
    case None => true
    case Some(p) => Unclosed(t).Some? && Chomp(CleanOf(t)[p + |OPEN|..]) == ""
  }

  lemma NothingRemoved(t: string)
    requires GroupsOf(t) == [] && Unclosed(t).None?
    ensures Find(OPEN, CleanOf(t)) == None
  {
  }

  lemma {:induction false} ClosedAgrees(t: string)
    requires Unclosed(t).None?
    ensures Streamed(t) == Stripped(t) <==> Find(OPEN, CleanOf(t)) == None
    ensures Find(OPEN, CleanOf(t)) == None <==> LeavesNoTag(t)
  {
    SplitterIs(t);
    CleanIs(t);
    assert GroupsOf(t) + [] == GroupsOf(t);
    hide Marks, Blocks, ContentText, Strip, Join, CleanOf, GroupsOf, Outside, Find;
    if Find(OPEN, CleanOf(t)).Some? {
      if GroupsOf(t) == [] {
        NothingRemoved(t);
      } else {
        JoinMore(GroupsOf(t), Chomp(CleanOf(t)[Find(OPEN, CleanOf(t)).value + |OPEN|..]));
      }
    }
  }

  lemma FindBefore(a: string, x: string)
    ensures Find(OPEN, a + (OPEN + x)).Some? && Find(OPEN, a + (OPEN + x)).value <= |a|
  {
    assert (a + (OPEN + x))[|a|..|a| + |OPEN|] == OPEN;
    assert At(OPEN, a + (OPEN + x), |a|);
  }

  /** The two last thoughts are the same only if both are empty. */
  lemma LastThoughts(a: string, x: string, p: nat)
    requires p <= |a|
    ensures Chomp((a + (OPEN + x))[p + |OPEN|..]) == x[..Safe(x)] <==> Chomp((a + (OPEN + x))[p + |OPEN|..]) == ""
  {
  }

  /** If nothing but a newline follows the tag, that tag is the unclosed one. */
  lemma NothingAfter(a: string, x: string, p: nat)
    requires p <= |a| && Chomp((a + (OPEN + x))[p + |OPEN|..]) == ""
    ensures p == |a| && (x == "" || x == "\n")
  {
    var all := a + (OPEN + x);
    if x == "" {
      assert all[|all| - 1] == OPEN[|OPEN| - 1];
    } else {
      assert all[|all| - 1] == x[|x| - 1];
    }
  }

  lemma StripNewline(s: string)
    ensures Strip(s + "\n") == Strip(s)
  {
    assert (s + "\n")[..|s|] == s;
  }

  lemma StripSame(a: string, x: string)
    requires x == "" || x == "\n"
    ensures Strip(a + x) == Strip(a) && x[Safe(x)..] == x
  {
    if x == "" {
      assert a + x == a;
    } else {
      StripNewline(a);
    }
  }

  lemma OutcomesMeet(a: string, x: string, groups: seq<string>, p: nat)
    requires Find(OPEN, a + (OPEN + x)) == Some(p)
    ensures p <= |a|
    ensures var g := Chomp((a + (OPEN + x))[p + |OPEN|..]);
      (Strip(a + x[Safe(x)..]), Join(groups + [x[..Safe(x)]])) == (Strip((a + (OPEN + x))[..p]), Join(groups + [g])) <==> g == ""
  {
    hide Strip, Join, Find, Chomp, Safe;
    FindBefore(a, x);
    var clean := a + (OPEN + x);
    var g := Chomp(clean[p + |OPEN|..]);
    JoinLast(groups, g, x[..Safe(x)]);
    LastThoughts(a, x, p);
    if g == "" {
      NothingAfter(a, x, p);
      StripSame(a, x);
      assert clean[..p] == a;
    }
  }

  lemma UnclosedAgrees(t: string)
    requires Unclosed(t).Some?
    ensures Streamed(t) == Stripped(t) <==> LeavesNoTag(t)
  {
    hide Marks, Blocks, ContentText, Strip, Join, CleanOf, GroupsOf, Outside, Find, Chomp, Safe, Unclosed;
    SplitterIs(t);
    CleanIs(t);
    var a, x := Outside(t), Unclosed(t).value;
    FindBefore(a, x);
    OutcomesMeet(a, x, GroupsOf(t), Find(OPEN, a + (OPEN + x)).value);
  }

  /** Streaming a text and stripping it at once give the same content and reasoning exactly if removing the blocks
      leaves no opening tag to be found. */
  lemma StreamedIsStrippedIff(t: string)
    ensures Streamed(t) == Stripped(t) <==> LeavesNoTag(t)
  {
    if Unclosed(t).None? {
      ClosedAgrees(t);
    } else {
      UnclosedAgrees(t);
    }
  }

  // ----- Two texts on which they differ

  lemma TooShort(p: string, t: string)
    requires |t| < |p|
    ensures Find(p, t) == None
  {
  }

  /** The end of a thought that is never closed is streamed as content, but stripped as reasoning. */
  lemma UnclosedTailDiffers()
    ensures Streamed(OPEN + "a") != Stripped(OPEN + "a")
  {
    var t := OPEN + "a";
    assert t[0..0 + |OPEN|] == OPEN;
    FindIs(OPEN, t, 0);
    assert t[|OPEN|..] == "a";
    TooShort(CLOSE, "a");
    assert FirstBlock(t) == None;
    assert Unclosed(t) == Some("a") && CleanOf(t) == t;
    assert !LeavesNoTag(t);
    StreamedIsStrippedIff(t);
  }

  /** Taking a block out can join its surroundings to a tag, which only the one-shot version then sees. */
  lemma JoinedTagDiffers()
    ensures var t := "<thi" + OPEN + CLOSE + "nk>";
      Unclosed(t).None? && Streamed(t) != Stripped(t)
  {
    var t := "<thi" + OPEN + CLOSE + "nk>";
    assert t[4..4 + |OPEN|] == OPEN;
    forall j | 0 <= j < 4 ensures !At(OPEN, t, j) {
      assert t[j..j + |OPEN|][if j == 0 then 4 else 0] == t[if j == 0 then 4 else j];
    }
    FindIs(OPEN, t, 4);
    var x := t[4 + |OPEN|..];
    assert x == CLOSE + "nk>" && x[0..0 + |CLOSE|] == CLOSE;
    FindIs(CLOSE, x, 0);
    JoinedClean(t);
    StreamedIsStrippedIff(t);
  }

  lemma JoinedClean(t: string)
    requires t == "<thi" + OPEN + CLOSE + "nk>" && FirstBlock(t) == Some((4, 0))
    ensures Unclosed(t).None? && !LeavesNoTag(t)
  {
    assert After(t, (4, 0)) == "nk>" && t[..4] == "<thi";
    BlockOut(t, (4, 0));
    OutsideOut(t, (4, 0));
    TooShort(OPEN, "nk>");
    NoBlock("nk>");
    OutsideEnd("nk>");
    assert CleanOf(t) == OPEN && OPEN[0..0 + |OPEN|] == OPEN;
    FindIs(OPEN, OPEN, 0);
  }
}
