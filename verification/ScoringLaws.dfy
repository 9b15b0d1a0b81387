/** What a ranking is in terms of the hits of the two searches: where each row comes from, and what decides
    between two chunks. */
module ScoringLaws {
  import opened Scoring

  /** n is what a raw rank counts for: nothing when it is not positive, else n : (1 - n) as raw : 1. */
  predicate CountsFor(raw: real, n: real) {
    if raw <= 0.0 then n == 0.0 else n * (raw + 1.0) == raw
  }

  lemma NormalizeCounts(raw: real)
    ensures CountsFor(raw, NormalizeLexical(raw))
  {
    if raw > 0.0 {
      var n := raw / (raw + 1.0);
      assert n * (raw + 1.0) == raw;
    }
  }

  /** A larger positive raw rank counts for strictly more. */
  lemma NormalizeIsStrict(a: real, b: real)
    requires a < b && b > 0.0
    ensures NormalizeLexical(a) < NormalizeLexical(b)
  {
    QuotientBelowOne(b);
    if a > 0.0 {
      var p, q := a / (a + 1.0), b / (b + 1.0);
      assert (1.0 - p) * (a + 1.0) == 1.0 && (1.0 - q) * (b + 1.0) == 1.0;
      // (1 - p)(a + 1) == (1 - q)(b + 1) > (1 - q)(a + 1)
      assert ((1.0 - p) - (1.0 - q)) * (a + 1.0) == (1.0 - q) * (b - a);
      PositiveProduct(1.0 - q, b - a);
      FactorSign((1.0 - p) - (1.0 - q), a + 1.0);
    }
  }

  lemma PositiveProduct(x: real, y: real)
    requires x > 0.0 && y > 0.0
    ensures x * y > 0.0
  {
  }

  lemma ScaleIsStrict(w: real, x: real, y: real)
    requires w > 0.0 && x > y
    ensures w * x > w * y
  {
    assert w * (x - y) > 0.0;
  }

  lemma Complement(w: real, x: real)
    ensures (1.0 - w) * x == x - w * x
  {
  }

  /** Stated on the products themselves, which keeps the arithmetic linear. */
  lemma SumsOrdered(gx: real, gy: real, wx: real, wy: real, x: real, y: real)
    requires gx > gy && gx == x - wx && gy == y - wy
    ensures wx - wy < x - y
  {
  }

  lemma ScaleShrinks(w: real, g: real, x: real, y: real)
    requires w < 1.0 && g == 1.0 - w && x > y
    ensures w * x - w * y < x - y
  {
    ScaleIsStrict(g, x, y);
    assert g * x == x - w * x by { Complement(w, x); }
    assert g * y == y - w * y by { Complement(w, y); }
    SumsOrdered(g * x, g * y, w * x, w * y, x, y);
  }

  lemma MoreLexicalIsMore(w: real, s: real, la: real, lb: real, fa: real, fb: real)
    requires w > 0.0 && la > lb && fa - s == w * (la - s) && fb - s == w * (lb - s)
    ensures fa > fb
  {
    ScaleIsStrict(w, la, lb);
  }

  lemma MoreSemanticIsMore(w: real, l: real, sa: real, sb: real, fa: real, fb: real)
    requires w < 1.0 && sa > sb && fa - sa == w * (l - sa) && fb - sb == w * (l - sb)
    ensures fa > fb
  {
    ScaleShrinks(w, 1.0 - w, sa, sb);
  }

  /** The fused score moves from the semantic to the lexical score in proportion to the weight. */
  predicate Proportional(r: FusionRow, weight: real) {
    && (weight <= 0.0 ==> r.fused == r.semantic)
    && (weight >= 1.0 ==> r.fused == r.lexNorm)
    && (0.0 <= weight <= 1.0 ==> r.fused - r.semantic == weight * (r.lexNorm - r.semantic))
  }

  lemma FusedIsProportional(lexical: seq<Candidate>, weight: real, id: Id, semantic: real)
    ensures var r := RowOf(lexical, weight, id, semantic);
      r.id == id && r.semantic == semantic && r.lexNorm == LexNormOf(lexical, id) && Proportional(r, weight)
  {
    var r := RowOf(lexical, weight, id, semantic);
    var lw := Clamp01(weight);
    assert r.fused == r.semantic + lw * (r.lexNorm - r.semantic);
  }

  /** It grows strictly with either score when that has a part in it. */
  lemma FusedGrows(a: FusionRow, b: FusionRow, weight: real)
    requires Proportional(a, weight) && Proportional(b, weight)
    ensures weight > 0.0 && a.semantic == b.semantic && a.lexNorm > b.lexNorm ==> a.fused > b.fused
    ensures weight < 1.0 && a.lexNorm == b.lexNorm && a.semantic > b.semantic ==> a.fused > b.fused
  {
    if 0.0 < weight <= 1.0 && a.semantic == b.semantic && a.lexNorm > b.lexNorm {
      MoreLexicalIsMore(weight, a.semantic, a.lexNorm, b.lexNorm, a.fused, b.fused);
    }
    if 0.0 <= weight < 1.0 && a.lexNorm == b.lexNorm && a.semantic > b.semantic {
      MoreSemanticIsMore(weight, a.lexNorm, a.semantic, b.semantic, a.fused, b.fused);
    }
  }

  /** Every row of a ranking is proportional. */
  lemma RankedIsProportional(
      dense: seq<Candidate>, lexical: seq<Candidate>, threshold: real, weight: real, out: seq<FusionRow>, p: nat)
    requires IsRanking(dense, lexical, threshold, weight, out) && p < |out|
    ensures Proportional(out[p], weight) && out[p].lexNorm == LexNormOf(lexical, out[p].id)
  {
    assert out[p] in out;
    FusedIsProportional(lexical, weight, out[p].id, out[p].semantic);
  }

  /** Every row of a ranking comes from its two hits, and every gated dense hit has its row. */
  lemma RowsAreOfHits(
      dense: seq<Candidate>, lexical: seq<Candidate>, threshold: real, weight: real, out: seq<FusionRow>)
    requires IsRanking(dense, lexical, threshold, weight, out) && DistinctIds(dense) && DistinctIds(lexical)
    ensures forall r :: r in out ==>
      && (exists d :: d in dense && d.id == r.id && d.semantic == r.semantic >= threshold)
      && (forall l :: l in lexical && l.id == r.id ==> CountsFor(l.rawLex, r.lexNorm))
      && ((forall l :: l in lexical ==> l.id != r.id) ==> r.lexNorm == 0.0)
      && Proportional(r, weight)
    ensures forall d :: d in dense && d.semantic >= threshold ==> exists r :: r in out && r.id == d.id
  {
    forall r | r in out
      ensures exists d :: d in dense && d.id == r.id && d.semantic == r.semantic >= threshold
      ensures forall l :: l in lexical && l.id == r.id ==> CountsFor(l.rawLex, r.lexNorm)
      ensures (forall l :: l in lexical ==> l.id != r.id) ==> r.lexNorm == 0.0
      ensures Proportional(r, weight)
    {
      SemanticOfDistinct(dense, threshold, r.id, r.semantic);
      FusedIsProportional(lexical, weight, r.id, r.semantic);
      forall l | l in lexical && l.id == r.id ensures CountsFor(l.rawLex, r.lexNorm) {
        LexNormOfDistinct(lexical, l);
        NormalizeCounts(l.rawLex);
      }
      if forall l :: l in lexical ==> l.id != r.id { LexNormOfAbsent(lexical, r.id); }
    }
    forall d | d in dense && d.semantic >= threshold ensures exists r :: r in out && r.id == d.id {
      SemanticOfDistinct(dense, threshold, d.id, d.semantic);
      assert SemanticOf(dense, threshold, d.id) == Present(d.semantic);
      assert RowOf(lexical, weight, d.id, d.semantic) in out;
    }
  }

  /** Of two ranked chunks the one with the higher score comes first, and the smaller id when they are equal. */
  lemma HigherScoreComesFirst(
      dense: seq<Candidate>, lexical: seq<Candidate>, threshold: real, weight: real, out: seq<FusionRow>,
      p: nat, q: nat)
    requires IsRanking(dense, lexical, threshold, weight, out) && p < |out| && q < |out|
    requires out[p].fused > out[q].fused || (out[p].fused == out[q].fused && out[p].id < out[q].id)
    ensures p < q
  {
    AheadIsEarlier(out, RowKey, p, q);
  }

  /** Between equal semantic scores the larger lexical score comes first, for any positive weight. */
  lemma LargerLexNormComesFirst(
      dense: seq<Candidate>, lexical: seq<Candidate>, threshold: real, weight: real, out: seq<FusionRow>,
      p: nat, q: nat)
    requires IsRanking(dense, lexical, threshold, weight, out) && weight > 0.0
    requires p < |out| && q < |out| && out[p].semantic == out[q].semantic && out[p].lexNorm > out[q].lexNorm
    ensures p < q
  {
    RankedIsProportional(dense, lexical, threshold, weight, out, p);
    RankedIsProportional(dense, lexical, threshold, weight, out, q);
    FusedGrows(out[p], out[q], weight);
    HigherScoreComesFirst(dense, lexical, threshold, weight, out, p, q);
  }

  /** And the larger semantic score between equal lexical scores, for any weight below 1. */
  lemma LargerSemanticComesFirst(
      dense: seq<Candidate>, lexical: seq<Candidate>, threshold: real, weight: real, out: seq<FusionRow>,
      p: nat, q: nat)
    requires IsRanking(dense, lexical, threshold, weight, out) && weight < 1.0
    requires p < |out| && q < |out| && out[p].lexNorm == out[q].lexNorm && out[p].semantic > out[q].semantic
    ensures p < q
  {
    RankedIsProportional(dense, lexical, threshold, weight, out, p);
    RankedIsProportional(dense, lexical, threshold, weight, out, q);
    FusedGrows(out[p], out[q], weight);
    HigherScoreComesFirst(dense, lexical, threshold, weight, out, p, q);
  }

  /** The larger lexical score is that of the larger positive raw rank, where no hit counts as rank 0. */
  lemma LargerRawIsLargerNorm(lexical: seq<Candidate>, hit: Candidate, other: Id)
    requires DistinctIds(lexical) && hit in lexical && hit.rawLex > 0.0
    requires forall l :: l in lexical && l.id == other ==> l.rawLex < hit.rawLex
    ensures LexNormOf(lexical, hit.id) > LexNormOf(lexical, other)
  {
    LexNormOfDistinct(lexical, hit);
    if l :| l in lexical && l.id == other {
      LexNormOfDistinct(lexical, l);
      NormalizeIsStrict(l.rawLex, hit.rawLex);
    } else {
      LexNormOfAbsent(lexical, other);
      NormalizeIsStrict(0.0, hit.rawLex);
    }
  }

  /** The lexical search decides between equal semantic scores: the chunk with the larger positive raw rank
      comes first, also before a chunk without any lexical hit. */
  lemma LargerRawRankComesFirst(
      dense: seq<Candidate>, lexical: seq<Candidate>, threshold: real, weight: real, out: seq<FusionRow>,
      p: nat, q: nat, hit: Candidate)
    requires IsRanking(dense, lexical, threshold, weight, out) && DistinctIds(lexical) && weight > 0.0
    requires p < |out| && q < |out| && out[p].semantic == out[q].semantic
    requires hit in lexical && hit.id == out[p].id && hit.rawLex > 0.0
    requires forall l :: l in lexical && l.id == out[q].id ==> l.rawLex < hit.rawLex
    ensures p < q
  {
    RankedIsProportional(dense, lexical, threshold, weight, out, p);
    RankedIsProportional(dense, lexical, threshold, weight, out, q);
    LargerRawIsLargerNorm(lexical, hit, out[q].id);
    LargerLexNormComesFirst(dense, lexical, threshold, weight, out, p, q);
  }
}
