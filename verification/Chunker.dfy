/** The overlapping text chunker of legacy ingest, on runes. */
module Chunker {
  import Tuning

  function StepOf(size: int, overlap: int): int {
    if size - overlap < 1 then size else size - overlap
  }

  /** The segments from position i on. */
  function SegmentsFrom(s: string, i: nat, size: nat, step: nat): seq<string>
    requires 1 <= step
    decreases |s| - i
  {
    if i >= |s| then []
    else if i + size >= |s| then [s[i..]]
    else [s[i..i + size]] + SegmentsFrom(s, i + step, size, step)
  }

  function Segments(s: string, size: nat, overlap: int): seq<string>
    requires size >= 1
  {
    if s == "" then [] else if |s| <= size then [s] else SegmentsFrom(s, 0, size, StepOf(size, overlap))
  }

  /** The caller's clamp: 2000 for a bad size, then 200 for an overlap that is not below the size. */
  function ClampSize(size: int): (r: nat) ensures r >= 1 { if size < 1 then 2000 else size }
  function ClampOverlap(size: nat, overlap: int): (r: nat) { if overlap < 0 || overlap >= size then 200 else overlap }

  method ChunkText(s: string, size: int, overlap: int) returns (out: seq<string>)
    requires size >= 1  // with size 0 and overlap 0 the loop would not end
    ensures out == Segments(s, size, overlap)
  {
    if s == "" { return []; }
    if |s| <= size { return [s]; }
    out := [];
    var step := size - overlap;
    if step < 1 { step := size; }
    var i := 0;
    ghost var all := SegmentsFrom(s, 0, size, step);
    assert Segments(s, size, overlap) == all;
    while i < |s|
      invariant 0 <= i
      invariant out + SegmentsFrom(s, i, size, step) == all
      decreases |s| - i
    {
      var end := i + size;
      if end > |s| { end := |s|; }
      SegmentsPeel(s, i, size, step, out);
      out := out + [s[i..end]];
      if end == |s| { return; }
      i := i + step;
    }
  }

  lemma SegmentsPeel(s: string, i: nat, size: nat, step: nat, out: seq<string>)
    requires i < |s| && 1 <= step
    ensures out + SegmentsFrom(s, i, size, step) ==
            if i + size >= |s| then out + [s[i..|s|]]
            else (out + [s[i..i + size]]) + SegmentsFrom(s, i + step, size, step)
  {
    if i + size < |s| {
      var rest := SegmentsFrom(s, i + step, size, step);
      assert out + ([s[i..i + size]] + rest) == (out + [s[i..i + size]]) + rest;
    } else {
      assert s[i..] == s[i..|s|];
    }
  }

  // ---- Exactness ----

  function CeilDiv(a: nat, b: nat): nat
    requires b >= 1
  {
    (a + b - 1) / b
  }

  lemma QuotientIs(n: int, b: int, q: int, r: int)
    requires n == q * b + r && 0 <= r < b
    ensures n / b == q
  {
    var q', r' := n / b, n % b;
    assert (q - q') * b == r' - r;
    if q > q' {
      assert (q - q') * b >= b by { MulAtLeast(q - q', b); }
    } else if q < q' {
      assert (q' - q) * b >= b by { MulAtLeast(q' - q, b); }
    }
  }

  lemma MulAtLeast(k: int, b: int)
    requires k >= 1 && b >= 0
    ensures k * b >= b
  {
  }

  lemma CeilDivStep(a: nat, b: nat)
    requires b >= 1 && a > b
    ensures CeilDiv(a, b) == 1 + CeilDiv(a - b, b)
  {
    var q, r := (a - 1) / b, (a - 1) % b;
    assert a + b - 1 == (q + 1) * b + r;
    QuotientIs(a + b - 1, b, q + 1, r);
  }

  lemma CeilDivOne(a: nat, b: nat)
    requires 1 <= a <= b
    ensures CeilDiv(a, b) == 1
  {
  }

  /** The first segment, then each later one without its first overlap runes. */
  function Rebuild(segs: seq<string>, overlap: nat): string {
    if segs == [] then "" else segs[0] + RebuildRest(segs[1..], overlap)
  }

  function RebuildRest(segs: seq<string>, overlap: nat): string {
    if segs == [] then ""
    else (if |segs[0]| >= overlap then segs[0][overlap..] else "") + RebuildRest(segs[1..], overlap)
  }

  predicate FullButLast(segs: seq<string>, size: nat) {
    forall k :: 0 <= k < |segs| - 1 ==> |segs[k]| == size
  }

  /** From any start that leaves more than the overlap to cover. */
  lemma {:induction false} SegmentsShape(s: string, i: nat, size: nat, step: nat)
    requires 1 <= step <= size && i + (size - step) < |s|
    ensures var segs := SegmentsFrom(s, i, size, step);
      && segs != []
      && FullButLast(segs, size)
      && size - step < |segs[|segs| - 1]| <= size
      && |segs| == CeilDiv(|s| - i - (size - step), step)
    decreases |s| - i
  {
    var n := |s| - i - (size - step);
    if i + size >= |s| {
      CeilDivOne(n, step);
    } else {
      SegmentsShape(s, i + step, size, step);
      CeilDivStep(n, step);
    }
  }

  lemma {:induction false} RestRebuilds(s: string, i: nat, size: nat, step: nat)
    requires 1 <= step <= size && i + (size - step) < |s|
    ensures RebuildRest(SegmentsFrom(s, i, size, step), size - step) == s[i + (size - step)..]
    decreases |s| - i
  {
    var o := size - step;
    var segs := SegmentsFrom(s, i, size, step);
    if i + size >= |s| {
      assert segs[0] == s[i..] && segs[1..] == [];
      assert s[i..][o..] == s[i + o..];
    } else {
      var rest := SegmentsFrom(s, i + step, size, step);
      RestRebuilds(s, i + step, size, step);
      assert segs[0] == s[i..i + size] && segs[1..] == rest;
      assert i + step + o == i + size;
      assert s[i..i + size][o..] + s[i + size..] == s[i + o..];
    }
  }

  lemma AllRebuilds(s: string, size: nat, step: nat)
    requires 1 <= step <= size < |s|
    ensures Rebuild(SegmentsFrom(s, 0, size, step), size - step) == s
  {
    var segs, rest := SegmentsFrom(s, 0, size, step), SegmentsFrom(s, step, size, step);
    RestRebuilds(s, step, size, step);
    assert segs[0] == s[..size] && segs[1..] == rest;
    assert step + (size - step) == size;
    assert s[..size] + s[size..] == s;
  }

  /** Chunking a text longer than one segment: the number of segments, their lengths and the text they
      rebuild. The overlap that counts is size minus the step the loop takes. */
  lemma ChunksAreExact(s: string, size: nat, overlap: nat)
    requires size >= 1 && |s| > size
    ensures var segs := Segments(s, size, overlap);
      var o := size - StepOf(size, overlap);
      && |segs| == CeilDiv(|s| - o, size - o)
      && FullButLast(segs, size)
      && o < |segs[|segs| - 1]| <= size
      && Rebuild(segs, o) == s
  {
    var step := StepOf(size, overlap);
    SegmentsShape(s, 0, size, step);
    AllRebuilds(s, size, step);
  }

  /** For 0 <= overlap < size the effective overlap is the configured one. */
  lemma ChunksAreExactForOverlap(s: string, size: nat, overlap: nat)
    requires overlap < size && |s| > size
    ensures var segs := Segments(s, size, overlap);
      && |segs| == CeilDiv(|s| - overlap, size - overlap)
      && FullButLast(segs, size)
      && overlap < |segs[|segs| - 1]| <= size
      && Rebuild(segs, overlap) == s
  {
    ChunksAreExact(s, size, overlap);
  }

  /** Valid tuning passes the caller's clamp unchanged, so the clamp never acts: what is in force is always
      valid (Tuning.MergeFullIsOverlay, TuningState.PublishedIsAlwaysConsistent). */
  lemma ClampIsUnreachable(tn: Tuning.RuntimeTuning)
    requires Tuning.Valid(tn)
    ensures ClampSize(tn.chunkRuneSize) == tn.chunkRuneSize
    ensures ClampOverlap(tn.chunkRuneSize, tn.chunkOverlap) == tn.chunkOverlap < tn.chunkRuneSize
  {
  }

  /** So under any valid tuning the exact law holds of what a legacy ingest stores. */
  lemma TunedChunksAreExact(s: string, tn: Tuning.RuntimeTuning)
    requires Tuning.Valid(tn) && |s| > tn.chunkRuneSize
    ensures var size := ClampSize(tn.chunkRuneSize);
      var segs := Segments(s, size, ClampOverlap(size, tn.chunkOverlap));
      && |segs| == CeilDiv(|s| - tn.chunkOverlap, tn.chunkRuneSize - tn.chunkOverlap)
      && FullButLast(segs, tn.chunkRuneSize)
      && tn.chunkOverlap < |segs[|segs| - 1]| <= tn.chunkRuneSize
      && Rebuild(segs, tn.chunkOverlap) == s
  {
    ClampIsUnreachable(tn);
    ChunksAreExactForOverlap(s, tn.chunkRuneSize, tn.chunkOverlap);
  }

  /** Under the caller's clamp every configuration covers every rune. A size of at most 200 with a bad
      overlap is clamped to an overlap of 200, not below the size; the loop then steps by whole segments
      and the segments do not overlap at all. */
  lemma ClampedChunksCover(s: string, size: int, overlap: int)
    ensures var sz := ClampSize(size);
      var o := ClampOverlap(sz, overlap);
      var e := if o >= sz then 0 else o;
      && Rebuild(Segments(s, sz, o), e) == s
      && (o >= sz <==> sz <= 200 && (overlap < 0 || overlap >= sz))
  {
    var sz := ClampSize(size);
    var o := ClampOverlap(sz, overlap);
    if |s| > sz {
      ChunksAreExact(s, sz, o);
    } else if s != "" {
      assert Rebuild([s], if o >= sz then 0 else o) == s + RebuildRest([], if o >= sz then 0 else o);
    }
  }
}
