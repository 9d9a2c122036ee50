/** Tool calls that arrive in fragments, and the names under which tools are announced. */
module ToolCalls {
  import opened Wrappers

  // A missing id, name or piece of arguments is "".
  datatype Fragment = Fragment(index: int, id: string, name: string, arguments: string)

  datatype Partial = Partial(id: string, name: string, arguments: string)

  type Partials = map<int, Partial>

  datatype Call = Call(id: string, name: string, arguments: string)

  // ----- Putting fragments together

  function Absorb(acc: Partials, f: Fragment): Partials {
    var p := if f.index in acc then acc[f.index] else Partial("", "", "");
    acc[f.index := Partial(if f.id != "" then f.id else p.id, if f.name != "" then f.name else p.name, p.arguments + f.arguments)]
  }

  function Gathered(fragments: seq<Fragment>): Partials {
    if fragments == [] then map[] else Absorb(Gathered(fragments[..|fragments| - 1]), fragments[|fragments| - 1])
  }

  method AbsorbOne(acc0: Partials, f: Fragment) returns (acc: Partials)
    ensures acc == Absorb(acc0, f)
  {
    acc := acc0;
    if f.index !in acc { acc := acc[f.index := Partial("", "", "")]; }
    if f.id != "" { acc := acc[f.index := acc[f.index].(id := f.id)]; }
    if f.name != "" { acc := acc[f.index := acc[f.index].(name := f.name)]; }
    if f.arguments != "" { acc := acc[f.index := acc[f.index].(arguments := acc[f.index].arguments + f.arguments)]; }
    assert f.arguments == "" ==> acc[f.index].arguments + f.arguments == acc[f.index].arguments;
  }

  method AbsorbAll(acc0: Partials, fragments: seq<Fragment>, ghost before: seq<Fragment>) returns (acc: Partials)
    requires acc0 == Gathered(before)
    ensures acc == Gathered(before + fragments)
  {
    hide Absorb, Gathered;
    acc := acc0;
    assert before + fragments[..0] == before;
    var i := 0;
    while i < |fragments|
      invariant 0 <= i <= |fragments| && acc == Gathered(before + fragments[..i])
    {
      acc := AbsorbOne(acc, fragments[i]);
      GatheredNext(before, fragments, i);
      i := i + 1;
    }
    assert fragments[..i] == fragments;
  }

  lemma GatheredNext(before: seq<Fragment>, fragments: seq<Fragment>, i: nat)
    requires i < |fragments|
    ensures Gathered(before + fragments[..i + 1]) == Absorb(Gathered(before + fragments[..i]), fragments[i])
  {
    var longer := before + fragments[..i + 1];
    assert longer[..|longer| - 1] == before + fragments[..i];
  }

  /** The fragments of one call, in the order of their arrival. */
  function Own(fragments: seq<Fragment>, index: int): (own: seq<Fragment>)
    ensures forall f :: f in own <==> f in fragments && f.index == index
  {
    if fragments == [] then [] else
      var n := |fragments| - 1;
      assert fragments == fragments[..n] + [fragments[n]];
      Own(fragments[..n], index) + if fragments[n].index == index then [fragments[n]] else []
  }

  function Arguments(own: seq<Fragment>): string {
    if own == [] then "" else Arguments(own[..|own| - 1]) + own[|own| - 1].arguments
  }

  /** Whether text is the last one given, or "" and none is. */
  ghost predicate LastGiven(texts: seq<string>, text: string) {
    if text == "" then forall t :: t in texts ==> t == ""
    else exists i :: 0 <= i < |texts| && texts[i] == text && forall j :: i < j < |texts| ==> texts[j] == ""
  }

  function Names(own: seq<Fragment>): seq<string> {
    seq(|own|, i requires 0 <= i < |own| => own[i].name)
  }

  function Ids(own: seq<Fragment>): seq<string> {
    seq(|own|, i requires 0 <= i < |own| => own[i].id)
  }

  lemma LastGivenMore(texts: seq<string>, text: string, t: string)
    requires LastGiven(texts, text)
    ensures LastGiven(texts + [t], if t != "" then t else text)
  {
    var longer := texts + [t];
    if t != "" {
      assert longer[|texts|] == t;
    } else if text != "" {
      var i :| 0 <= i < |texts| && texts[i] == text && forall j :: i < j < |texts| ==> texts[j] == "";
      assert longer[i] == text;
    }
  }

  /** p is what the fragments of one call, put together in order, come to. */
  ghost predicate Assembled(own: seq<Fragment>, p: Partial) {
    p.arguments == Arguments(own) && LastGiven(Names(own), p.name) && LastGiven(Ids(own), p.id)
  }

  lemma AssembledMore(own: seq<Fragment>, p: Partial, f: Fragment)
    requires Assembled(own, p)
    ensures Assembled(own + [f], Partial(if f.id != "" then f.id else p.id, if f.name != "" then f.name else p.name, p.arguments + f.arguments))
  {
    assert (own + [f])[..|own|] == own;
    assert Names(own + [f]) == Names(own) + [f.name] && Ids(own + [f]) == Ids(own) + [f.id];
    LastGivenMore(Names(own), p.name, f.name);
    LastGivenMore(Ids(own), p.id, f.id);
  }

  /** However the fragments of several calls are interleaved, each call is made of its own. */
  lemma {:induction false} GatheredIs(fragments: seq<Fragment>, index: int)
    ensures index in Gathered(fragments) <==> Own(fragments, index) != []
    ensures index in Gathered(fragments) ==> Assembled(Own(fragments, index), Gathered(fragments)[index])
  {
    if fragments != [] {
      var n := |fragments| - 1;
      var f := fragments[n];
      GatheredIs(fragments[..n], index);
      if f.index == index {
        var own := Own(fragments[..n], index);
        if own == [] {
          assert Assembled([], Partial("", "", ""));
        }
        AssembledMore(own, if own == [] then Partial("", "", "") else Gathered(fragments[..n])[index], f);
      } else {
        assert Own(fragments, index) == Own(fragments[..n], index);
      }
    }
  }

  // ----- Passing them on

  /** The indices in increasing order. */
  ghost predicate Ascending(indices: seq<int>) {
    forall i, j :: 0 <= i < j < |indices| ==> indices[i] < indices[j]
  }

  /** The call that a partial one has become. One without an id gets a made-up one. */
  function Finished(index: int, p: Partial, names: map<string, string>, madeUp: int -> string): Call {
    Call(if p.id != "" then p.id else madeUp(index), Restore(names, p.name), p.arguments)
  }

  method Pick<T(==)>(s: set<T>) returns (x: T)
    requires s != {}
    ensures x in s
  {
    x :| x in s;
  }

  method Least(keys: set<int>) returns (least: int)
    requires keys != {}
    ensures least in keys && forall k :: k in keys ==> least <= k
  {
    least := Pick(keys);
    var rest := keys - {least};
    while rest != {}
      invariant rest <= keys && least in keys
      invariant forall k :: k in keys && k !in rest ==> least <= k
      decreases rest
    {
      var k := Pick(rest);
      if k < least { least := k; }
      rest := rest - {k};
    }
  }

  /** The calls are those of acc at the given indices, which are all there are, in increasing order. */
  ghost predicate EmittedAt(acc: Partials, indices: seq<int>, calls: seq<Call>, names: map<string, string>,
                            madeUp: int -> string) {
    && Ascending(indices) && (forall i :: i in indices <==> i in acc) && |calls| == |indices|
    && forall k :: 0 <= k < |calls| ==> indices[k] in acc && calls[k] == Finished(indices[k], acc[indices[k]], names, madeUp)
  }

  ghost predicate Emitted(acc: Partials, calls: seq<Call>, names: map<string, string>, madeUp: int -> string) {
    exists indices :: EmittedAt(acc, indices, calls, names, madeUp)
  }

  /** The call with an index is what its own fragments say: their arguments joined in order of arrival, the last id
      given, or a made-up one if there is none, and the last name given, with an announced name read back. */
  ghost predicate SaidBy(own: seq<Fragment>, index: int, call: Call, names: map<string, string>, madeUp: int -> string) {
    && call.arguments == Arguments(own)
    && (exists id :: LastGiven(Ids(own), id) && call.id == if id != "" then id else madeUp(index))
    && (exists name :: LastGiven(Names(own), name) && call.name == if name in names then names[name] else name)
  }

  /** The calls are those that the fragments at the given indices say, by rising index, and each index there is once. */
  ghost predicate SaidAt(fragments: seq<Fragment>, indices: seq<int>, calls: seq<Call>, names: map<string, string>,
                         madeUp: int -> string) {
    && Ascending(indices) && |calls| == |indices|
    && (forall i :: i in indices <==> exists f :: f in fragments && f.index == i)
    && forall k :: 0 <= k < |calls| ==> SaidBy(Own(fragments, indices[k]), indices[k], calls[k], names, madeUp)
  }

  ghost predicate Said(fragments: seq<Fragment>, calls: seq<Call>, names: map<string, string>, madeUp: int -> string) {
    exists indices :: SaidAt(fragments, indices, calls, names, madeUp)
  }

  lemma FinishedIsSaid(fragments: seq<Fragment>, index: int, names: map<string, string>, madeUp: int -> string)
    requires index in Gathered(fragments)
    ensures SaidBy(Own(fragments, index), index, Finished(index, Gathered(fragments)[index], names, madeUp), names, madeUp)
  {
    GatheredIs(fragments, index);
    var p := Gathered(fragments)[index];
    hide Gathered, LastGiven, Own, Arguments;
    assert LastGiven(Ids(Own(fragments, index)), p.id) && LastGiven(Names(Own(fragments, index)), p.name);
  }

  lemma OwnIsSome(fragments: seq<Fragment>, i: int)
    ensures Own(fragments, i) != [] <==> exists f :: f in fragments && f.index == i
  {
    if f :| f in fragments && f.index == i {
      assert f in Own(fragments, i);
    }
    if Own(fragments, i) != [] {
      assert Own(fragments, i)[0] in Own(fragments, i);
    }
  }

  /** What is passed on from the accumulated fragments is what they say. */
  lemma EmittedIsSaid(fragments: seq<Fragment>, calls: seq<Call>, names: map<string, string>, madeUp: int -> string)
    requires Emitted(Gathered(fragments), calls, names, madeUp)
    ensures Said(fragments, calls, names, madeUp)
  {
    var indices :| EmittedAt(Gathered(fragments), indices, calls, names, madeUp);
    forall i ensures i in indices <==> exists f :: f in fragments && f.index == i {
      GatheredIs(fragments, i);
      OwnIsSome(fragments, i);
    }
    hide Gathered, Own, SaidBy, Finished;
    forall k | 0 <= k < |calls| ensures SaidBy(Own(fragments, indices[k]), indices[k], calls[k], names, madeUp) {
      FinishedIsSaid(fragments, indices[k], names, madeUp);
    }
    assert SaidAt(fragments, indices, calls, names, madeUp);
  }

  /** Every call once, in the order of their indices: what its fragments have said. */
  method PassOn(acc: Partials, names: map<string, string>, madeUp: int -> string, ghost fragments: seq<Fragment>)
    returns (calls: seq<Call>)
    requires acc == Gathered(fragments)
    ensures Said(fragments, calls, names, madeUp)
  {
    hide Gathered;
    calls := [];
    ghost var indices: seq<int> := [];
    var left := acc.Keys;
    while left != {}
      invariant left <= acc.Keys
      invariant Ascending(indices) && (forall i :: i in indices <==> i in acc && i !in left)
      invariant forall i, k :: i in indices && k in left ==> i < k
      invariant |calls| == |indices|
      invariant forall k :: 0 <= k < |calls| ==> indices[k] in acc && calls[k] == Finished(indices[k], acc[indices[k]], names, madeUp)
      decreases left
    {
      var index := Least(left);
      assert forall k :: 0 <= k < |indices| ==> indices[k] in indices;
      calls := calls + [Finished(index, acc[index], names, madeUp)];
      indices := indices + [index];
      left := left - {index};
    }
    assert EmittedAt(acc, indices, calls, names, madeUp);
    EmittedIsSaid(fragments, calls, names, madeUp);
  }

  // ----- Names of tools

  const NAME_LIMIT := 64

  predicate Allowed(c: char) {
    'a' <= c <= 'z' || 'A' <= c <= 'Z' || '0' <= c <= '9' || c == '_' || c == '-'
  }

  function Replaced(name: string): (r: string)
    ensures |r| == |name| && forall i :: 0 <= i < |name| ==> r[i] == if Allowed(name[i]) then name[i] else '_'
  {
    if name == "" then "" else
      Replaced(name[..|name| - 1]) + [if Allowed(name[|name| - 1]) then name[|name| - 1] else '_']
  }

  /** A name the interface accepts: letters, digits, underscores and hyphens, at most 64 of them. */
  function Sanitize(name: string): (s: string)
    ensures |s| <= NAME_LIMIT && (forall i :: 0 <= i < |s| ==> Allowed(s[i]))
    ensures |s| == if |name| < 64 then |name| else 64
    ensures forall i :: 0 <= i < |s| ==> s[i] == if Allowed(name[i]) then name[i] else '_'
    ensures s == name <==> |name| <= NAME_LIMIT && forall i :: 0 <= i < |name| ==> Allowed(name[i])
  {
    var r := Replaced(name);
    if |r| > NAME_LIMIT then r[..NAME_LIMIT] else r
  }

  function Restore(names: map<string, string>, name: string): string {
    if name in names then names[name] else name
  }

  /** What announcing the tools called originals leaves in the table: the last one wins. */
  function Announced(originals: seq<string>): map<string, string> {
    if originals == [] then map[] else
      var before, name := Announced(originals[..|originals| - 1]), originals[|originals| - 1];
      if Sanitize(name) != name then before[Sanitize(name) := name] else before
  }

  /** The table of a provider, emptied before every request. */
  class ToolNames {
    var table: map<string, string>

    constructor ()
      ensures table == map[]
    {
      table := map[];
    }

    /** The names under which the tools are announced. */
    method Prepare(originals: seq<string>) returns (prepared: seq<string>)
      modifies this
      ensures table == Announced(originals)
      ensures |prepared| == |originals| && forall i :: 0 <= i < |originals| ==> prepared[i] == Sanitize(originals[i])
    {
      hide Sanitize, Announced;
      table, prepared := map[], [];
      assert originals[..0] == [];
      NothingAnnounced();
      var i := 0;
      while i < |originals|
        invariant 0 <= i <= |originals| && table == Announced(originals[..i])
        invariant |prepared| == i && forall k :: 0 <= k < i ==> prepared[k] == Sanitize(originals[k])
      {
        var sanitized := Sanitize(originals[i]);
        AnnouncedNext(originals, i);
        if sanitized != originals[i] {
          table := table[sanitized := originals[i]];
        }
        prepared := prepared + [sanitized];
        i := i + 1;
      }
      assert originals[..i] == originals;
    }
  }

  lemma NothingAnnounced()
    ensures Announced([]) == map[]
  {
  }

  lemma AnnouncedNext(originals: seq<string>, i: nat)
    requires i < |originals|
    ensures var before, name := Announced(originals[..i]), originals[i];
      Announced(originals[..i + 1]) == if Sanitize(name) != name then before[Sanitize(name) := name] else before
  {
    assert originals[..i + 1][..i] == originals[..i];
  }

  /** An entry of the table is a tool whose name had to be changed. */
  ghost predicate TableOf(table: map<string, string>, originals: seq<string>, n: nat, s: string)
    requires n <= |originals|
  {
    && (s in table <==> exists i :: 0 <= i < n && Sanitize(originals[i]) == s && originals[i] != s)
    && (s in table ==> table[s] in originals && Sanitize(table[s]) == s)
  }

  lemma {:induction false} AnnouncedIs(originals: seq<string>, n: nat, s: string)
    requires n <= |originals|
    ensures TableOf(Announced(originals[..n]), originals, n, s)
  {
    hide Sanitize, Announced;
    if n == 0 {
      assert originals[..0] == [];
      NothingAnnounced();
    } else {
      AnnouncedIs(originals, n - 1, s);
      AnnouncedNext(originals, n - 1);
      assert originals[n - 1] in originals;
    }
  }

  ghost predicate Injective(originals: seq<string>) {
    forall a, b :: a in originals && b in originals && Sanitize(a) == Sanitize(b) ==> a == b
  }

  /** Every announced tool gets its own name back exactly if no two names look alike once sanitized. */
  lemma RestoredIffInjective(originals: seq<string>)
    ensures (forall name :: name in originals ==> Restore(Announced(originals), Sanitize(name)) == name) <==> Injective(originals)
  {
    if Injective(originals) {
      forall name | name in originals ensures Restore(Announced(originals), Sanitize(name)) == name {
        AnnouncedIs(originals, |originals|, Sanitize(name));
        assert originals[..|originals|] == originals;
        hide Sanitize, Announced;
        var i :| 0 <= i < |originals| && originals[i] == name;
      }
    }
  }

  lemma LastGivenIsOne(texts: seq<string>, a: string, b: string)
    requires LastGiven(texts, a) && LastGiven(texts, b)
    ensures a == b
  {
    if a != "" { LastGivenPlace(texts, a); }
    if b != "" { LastGivenPlace(texts, b); }
  }

  lemma LastGivenPlace(texts: seq<string>, text: string)
    requires LastGiven(texts, text) && text != ""
    ensures text in texts
    ensures exists i :: 0 <= i < |texts| && texts[i] == text && forall j :: i < j < |texts| ==> texts[j] == ""
  {
    var i :| 0 <= i < |texts| && texts[i] == text && forall j :: i < j < |texts| ==> texts[j] == "";
    assert texts[i] in texts;
  }

  /** So if no two tools look alike once sanitized, a call that names an announced tool is emitted under the tool's own
      name. */
  lemma AnnouncedIsCalled(originals: seq<string>, tool: string, own: seq<Fragment>, index: int, call: Call,
                          madeUp: int -> string)
    requires Injective(originals) && tool in originals && LastGiven(Names(own), Sanitize(tool))
    requires SaidBy(own, index, call, Announced(originals), madeUp)
    ensures call.name == tool
  {
    hide Injective, Sanitize, Announced, LastGiven;
    RestoredIffInjective(originals);
    var name :| LastGiven(Names(own), name) &&
                call.name == if name in Announced(originals) then Announced(originals)[name] else name;
    LastGivenIsOne(Names(own), name, Sanitize(tool));
    assert Restore(Announced(originals), Sanitize(tool)) == tool;
  }
}
