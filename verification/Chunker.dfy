/** Cutting a text into overlapping chunks. */
module Chunker {
  import ThinkStrip

  /** Up to size characters from a place on. */
  function Slice(text: string, start: nat, size: nat): string
    requires start <= |text|
  {
    if start + size <= |text| then text[start..start + size] else text[start..]
  }

  /** The chunks from a place on, each step characters after the one before. */
  function ChunksFrom(text: string, start: nat, size: nat, step: nat): seq<string>
    requires step > 0
    decreases if start < |text| then |text| - start else 0
  {
    if start >= |text| then [] else [Slice(text, start, size)] + ChunksFrom(text, start + step, size, step)
  }

  /** A blank text has no chunks; for any other the loop ends only if a chunk is longer than the overlap. */
  method ChunkText(text: string, size: nat, overlap: nat) returns (chunks: seq<string>)
    requires ThinkStrip.Strip(text) != "" ==> overlap < size
    ensures chunks == if ThinkStrip.Strip(text) == "" then [] else ChunksFrom(text, 0, size, size - overlap)
  {
    if ThinkStrip.Strip(text) == "" { return []; }
    chunks := [];
    var start := 0;
    while start < |text|
      invariant chunks + ChunksFrom(text, start, size, size - overlap) == ChunksFrom(text, 0, size, size - overlap)
      decreases |text| - start
    {
      var end := start + size;
      chunks := chunks + [Slice(text, start, size)];
      start := end - overlap;
    }
  }

  // ----- How many

  function Ceiling(n: nat, step: nat): nat
    requires step > 0
  {
    (n + step - 1) / step
  }

  lemma CeilingStep(n: nat, step: nat)
    requires step > 0 && n > 0
    ensures Ceiling(n, step) == 1 + Ceiling(if n > step then n - step else 0, step)
  {
    if n > step {
      var m := n - 1;
      assert n + step - 1 == m + step;
      DivStep(m, step);
    } else {
      DivIs(n + step - 1, step, 1, n - 1);
      DivIs(step - 1, step, 0, step - 1);
    }
  }

  lemma DivStep(m: nat, step: nat)
    requires step > 0
    ensures (m + step) / step == 1 + m / step
  {
    var q, r := m / step, m % step;
    assert m + step == (q + 1) * step + r;
    DivIs(m + step, step, q + 1, r);
  }

  lemma DivIs(n: nat, step: nat, q: nat, r: nat)
    requires step > 0 && r < step && n == q * step + r
    ensures n / step == q
  {
    var d := n / step;
    if d < q {
      MulRises(d + 1, q, step);
    } else if d > q {
      MulRises(q + 1, d, step);
    }
  }

  lemma MulRises(a: nat, b: nat, step: nat)
    requires a <= b
    ensures a * step <= b * step
  {
  }

  lemma {:induction false} ChunkCount(text: string, start: nat, size: nat, step: nat)
    requires step > 0
    ensures |ChunksFrom(text, start, size, step)| == Ceiling(if start < |text| then |text| - start else 0, step)
    decreases if start < |text| then |text| - start else 0
  {
    if start < |text| {
      ChunkCount(text, start + step, size, step);
      CeilingStep(|text| - start, step);
    } else {
      DivIs(step - 1, step, 0, step - 1);
    }
  }

  // ----- Nothing is lost

  /** Without its first n characters. */
  function Drop(s: string, n: nat): string {
    if n <= |s| then s[n..] else ""
  }

  /** The chunks without what each shares with the one before. */
  function Rest(chunks: seq<string>, overlap: nat): string {
    if chunks == [] then "" else Drop(chunks[0], overlap) + Rest(chunks[1..], overlap)
  }

  function Rejoined(chunks: seq<string>, overlap: nat): string {
    if chunks == [] then "" else chunks[0] + Rest(chunks[1..], overlap)
  }

  function From(text: string, start: nat): string {
    if start <= |text| then text[start..] else ""
  }

  lemma {:induction false} RestIs(text: string, start: nat, size: nat, overlap: nat)
    requires overlap < size
    ensures Rest(ChunksFrom(text, start, size, size - overlap), overlap) == From(text, start + overlap)
    decreases if start < |text| then |text| - start else 0
  {
    if start < |text| {
      var rest := ChunksFrom(text, start + size - overlap, size, size - overlap);
      assert ([Slice(text, start, size)] + rest)[1..] == rest;
      RestIs(text, start + size - overlap, size, overlap);
      DropSlice(text, start, size, overlap);
    }
  }

  lemma DropSlice(text: string, start: nat, size: nat, overlap: nat)
    requires overlap < size && start < |text|
    ensures Drop(Slice(text, start, size), overlap) + From(text, start + size) == From(text, start + overlap)
    ensures Slice(text, start, size) + From(text, start + size) == text[start..]
  {
  }

  /** Leaving out what each later chunk shares with the one before gives the text again. */
  lemma ChunksRejoin(text: string, size: nat, overlap: nat)
    requires overlap < size
    ensures Rejoined(ChunksFrom(text, 0, size, size - overlap), overlap) == text
  {
    if text != "" {
      var rest := ChunksFrom(text, size - overlap, size, size - overlap);
      assert ([Slice(text, 0, size)] + rest)[1..] == rest;
      RestIs(text, size - overlap, size, overlap);
      DropSlice(text, 0, size, overlap);
    }
  }

  lemma PartOfSlice(text: string, start: nat, size: nat, offset: nat, n: nat)
    requires start + offset + n <= |text| && offset + n <= size
    ensures offset + n <= |Slice(text, start, size)|
    ensures Slice(text, start, size)[offset..offset + n] == text[start + offset..start + offset + n]
  {
  }

  /** Whatever is no longer than the overlap and one character more lies in one chunk. */
  lemma {:induction false} WithinOneChunk(text: string, start: nat, size: nat, overlap: nat, i: nat,
                                          n: nat) returns (k: nat, offset: nat)
    requires overlap < size && start <= i < |text| && i + n <= |text| && n <= overlap + 1
    ensures var chunks := ChunksFrom(text, start, size, size - overlap);
      k < |chunks| && offset + n <= |chunks[k]| && chunks[k][offset..offset + n] == text[i..i + n]
    decreases |text| - start
  {
    var step := size - overlap;
    if i < start + step {
      k, offset := 0, i - start;
      PartOfSlice(text, start, size, offset, n);
    } else {
      k, offset := WithinOneChunk(text, start + step, size, overlap, i, n);
      k := k + 1;
    }
  }

  // ----- When it ends

  /** Where chunk number n starts, if there is one. */
  function StartOf(size: int, overlap: int, n: nat): int {
    if n == 0 then 0 else StartOf(size, overlap, n - 1) + size - overlap
  }

  lemma {:induction false} StartIs(size: int, overlap: int, n: nat)
    ensures if size > overlap then StartOf(size, overlap, n) >= n else StartOf(size, overlap, n) <= 0
  {
    if n > 0 {
      StartIs(size, overlap, n - 1);
    }
  }

  /** The code returns: at once, or when some chunk would start beyond the text. */
  ghost predicate Ends(text: string, size: int, overlap: int) {
    ThinkStrip.Strip(text) == "" || exists n :: StartOf(size, overlap, n) >= |text|
  }

  /** The cutting of a text that is not blank comes to an end exactly if chunks are longer than their overlap. */
  lemma EndsIff(text: string, size: int, overlap: int)
    ensures Ends(text, size, overlap) <==> ThinkStrip.Strip(text) == "" || size > overlap
  {
    if ThinkStrip.Strip(text) != "" {
      hide ThinkStrip.Strip;
      NotBlank(text);
      if size > overlap {
        StartIs(size, overlap, |text|);
      }
      forall n ensures size <= overlap ==> StartOf(size, overlap, n) <= 0 {
        StartIs(size, overlap, n);
      }
    }
  }

  lemma NotBlank(text: string)
    requires ThinkStrip.Strip(text) != ""
    ensures text != ""
  {
  }
}
