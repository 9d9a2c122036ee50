/** What several modules need to say about sequences. */
module Sequences {
  ghost predicate Distinct<T>(s: seq<T>) {
    forall i, j :: 0 <= i < j < |s| ==> s[i] != s[j]
  }

  function Without<T>(s: seq<T>, k: nat): seq<T>
    requires k < |s|
  {
    s[..k] + s[k + 1..]
  }

  /** s is the end of all. */
  predicate IsEnd<T(==)>(s: seq<T>, all: seq<T>) {
    |s| <= |all| && s == all[|all| - |s|..]
  }

  lemma EndGrows<T>(s: seq<T>, all: seq<T>, x: T)
    requires IsEnd(s, all)
    ensures IsEnd(s + [x], all + [x])
  {
  }

  lemma EndDrops<T>(s: seq<T>, all: seq<T>)
    requires IsEnd(s, all) && s != []
    ensures IsEnd(s[1..], all)
  {
  }

  lemma EndOfEnd<T>(s: seq<T>, mid: seq<T>, all: seq<T>)
    requires IsEnd(s, mid) && IsEnd(mid, all)
    ensures IsEnd(s, all)
  {
  }

  lemma EndLast<T>(s: seq<T>, all: seq<T>)
    requires IsEnd(s, all) && s != []
    ensures s[|s| - 1] == all[|all| - 1]
  {
  }

  /** sub is made of elements of all, in the order of all. */
  ghost predicate TakenFrom<T>(sub: seq<T>, all: seq<T>)
    decreases |all|
  {
    || sub == []
    || (all != [] && (TakenFrom(sub, all[..|all| - 1]) ||
                      (sub[|sub| - 1] == all[|all| - 1] && TakenFrom(sub[..|sub| - 1], all[..|all| - 1]))))
  }

  lemma TakenSkips<T>(sub: seq<T>, all: seq<T>, x: T)
    requires TakenFrom(sub, all)
    ensures TakenFrom(sub, all + [x])
  {
    assert (all + [x])[..|all|] == all;
  }

  lemma TakenTakes<T>(sub: seq<T>, all: seq<T>, x: T)
    requires TakenFrom(sub, all)
    ensures TakenFrom(sub + [x], all + [x])
  {
    assert (all + [x])[..|all|] == all && (sub + [x])[..|sub|] == sub;
  }

  lemma NoElements<T>(s: seq<T>)
    requires forall x :: x !in s
    ensures s == []
  {
    if s != [] {
      ElementsExist(s);
    }
  }

  lemma ElementsExist<T>(s: seq<T>)
    requires s != []
    ensures exists x :: x in s
  {
    assert s[0] in s;
  }

  function Repeat<T>(x: T, n: nat): (s: seq<T>)
    ensures |s| == n && forall i :: 0 <= i < n ==> s[i] == x
  {
    if n == 0 then [] else Repeat(x, n - 1) + [x]
  }

  lemma RepeatAdd<T>(x: T, m: nat, n: nat)
    ensures Repeat(x, m) + Repeat(x, n) == Repeat(x, m + n)
  {
  }
}
