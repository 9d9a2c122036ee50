/** Finding a pattern in a text. */
module TextSearch {
  import opened Wrappers

  predicate At(p: string, t: string, k: int) {
    0 <= k && k + |p| <= |t| && t[k..k + |p|] == p
  }

  /** The place of the first occurrence, if any. */
  function Find(p: string, t: string): (r: Option<nat>)
    ensures r.Some? ==> At(p, t, r.value) && forall j :: 0 <= j < r.value ==> !At(p, t, j)
    ensures r.None? ==> forall j :: !At(p, t, j)
  {
    FindFrom(p, t, 0)
  }

  function FindFrom(p: string, t: string, i: nat): (r: Option<nat>)
    ensures r.Some? ==> i <= r.value && At(p, t, r.value) && forall j :: i <= j < r.value ==> !At(p, t, j)
    ensures r.None? ==> forall j :: i <= j ==> !At(p, t, j)
    decreases |t| - i
  {
    if At(p, t, i) then Some(i) else if i >= |t| then None else FindFrom(p, t, i + 1)
  }

  /** Nothing else is the first occurrence. */
  lemma FindIs(p: string, t: string, k: nat)
    requires At(p, t, k) && forall j :: 0 <= j < k ==> !At(p, t, j)
    ensures Find(p, t) == Some(k)
  {
  }

  lemma FindNone(p: string, t: string)
    requires forall j :: !At(p, t, j)
    ensures Find(p, t) == None
  {
  }

  /** Occurrences in the second part of a text. */
  lemma AtShift(p: string, a: string, b: string, k: nat)
    ensures At(p, b, k) <==> At(p, a + b, |a| + k)
  {
    if k + |p| <= |b| {
      assert (a + b)[|a| + k..|a| + k + |p|] == b[k..k + |p|];
    }
  }

  /** Occurrences in the first part of a text. */
  lemma AtPrefix(p: string, a: string, b: string, k: nat)
    requires k + |p| <= |a|
    ensures At(p, a, k) <==> At(p, a + b, k)
  {
    assert (a + b)[k..k + |p|] == a[k..k + |p|];
  }

  /** A pattern found is still found, at the same place, once the text goes on. */
  lemma FindExtends(p: string, t: string, rest: string, k: nat)
    requires Find(p, t) == Some(k)
    ensures Find(p, t + rest) == Some(k)
  {
    AtPrefix(p, t, rest, k);
    forall j | 0 <= j < k ensures !At(p, t + rest, j) {
      AtPrefix(p, t, rest, j);
    }
    FindIs(p, t + rest, k);
  }

  /** Cutting off a front in which the pattern does not start. */
  lemma FindSkips(p: string, a: string, b: string)
    requires forall j :: 0 <= j < |a| ==> !At(p, a + b, j)
    ensures Find(p, a + b) == if Find(p, b).Some? then Some(|a| + Find(p, b).value) else None
  {
    forall j: nat ensures At(p, a + b, |a| + j) <==> At(p, b, j) {
      AtShift(p, a, b, j);
    }
    if Find(p, b).Some? {
      var k := Find(p, b).value;
      forall j | 0 <= j < |a| + k ensures !At(p, a + b, j) {
        if j >= |a| {
          AtShift(p, a, b, j - |a|);
        }
      }
      FindIs(p, a + b, |a| + k);
    } else {
      forall j ensures !At(p, a + b, j) {
        if j >= |a| {
          AtShift(p, a, b, j - |a|);
        }
      }
      FindNone(p, a + b);
    }
  }
}
