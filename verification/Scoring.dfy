/** Candidate fusion and the in-place ranking sort. Chunk ids are UUIDs, compared as their text in the
    code; they are numbers here, with the same total order. */
module Scoring {

  type Id = nat

  /** One hit of the dense or the lexical search. */
  datatype Candidate = Candidate(id: Id, semantic: real, rawLex: real)

  datatype FusionRow = FusionRow(id: Id, semantic: real, lexNorm: real, fused: real)

  datatype ScoredChunk = ScoredChunk(id: Id, score: real)

  function NormalizeLexical(raw: real): (n: real)
    ensures 0.0 <= n < 1.0
  {
    if raw <= 0.0 then 0.0 else QuotientBelowOne(raw); raw / (raw + 1.0)
  }

  lemma FactorSign(x: real, d: real)
    requires d > 0.0
    ensures x * d > 0.0 ==> x > 0.0
    ensures x * d >= 0.0 ==> x >= 0.0
  {
  }

  lemma ProductSign(x: real, y: real)
    requires x >= 0.0 && y >= 0.0
    ensures x * y >= 0.0
  {
  }

  lemma QuotientBelowOne(raw: real)
    requires raw > 0.0
    ensures 0.0 < raw / (raw + 1.0) < 1.0
  {
    var q := raw / (raw + 1.0);
    assert q * (raw + 1.0) == raw && (1.0 - q) * (raw + 1.0) == 1.0;
    FactorSign(q, raw + 1.0);
    FactorSign(1.0 - q, raw + 1.0);
  }

  lemma NormalizeIsMonotone(a: real, b: real)
    requires a <= b
    ensures NormalizeLexical(a) <= NormalizeLexical(b)
  {
    if a > 0.0 {
      var p, q := a / (a + 1.0), b / (b + 1.0);
      assert (1.0 - p) * (a + 1.0) == 1.0 && (1.0 - q) * (b + 1.0) == 1.0;
      QuotientBelowOne(b);
      // (1 - p)(a + 1) == (1 - q)(b + 1) >= (1 - q)(a + 1)
      assert ((1.0 - p) - (1.0 - q)) * (a + 1.0) == (1.0 - q) * (b - a);
      ProductSign(1.0 - q, b - a);
      FactorSign((1.0 - p) - (1.0 - q), a + 1.0);
    }
  }

  function Clamp01(w: real): real {
    if w < 0.0 then 0.0 else if w > 1.0 then 1.0 else w
  }

  /** The last lexical hit of an id decides its normalised rank; 0 when there is none. */
  function LexNormOf(lexical: seq<Candidate>, id: Id): (n: real)
    ensures 0.0 <= n < 1.0
  {
    if lexical == [] then 0.0
    else
      var c := lexical[|lexical| - 1];
      if c.id == id then NormalizeLexical(c.rawLex) else LexNormOf(lexical[..|lexical| - 1], id)
  }

  datatype Score = Absent | Present(value: real)

  /** The last dense hit of an id at or above the threshold decides its semantic score. */
  function SemanticOf(dense: seq<Candidate>, threshold: real, id: Id): (s: Score)
    ensures s.Present? ==> s.value >= threshold
  {
    if dense == [] then Absent
    else
      var c := dense[|dense| - 1];
      if c.id == id && c.semantic >= threshold then Present(c.semantic)
      else SemanticOf(dense[..|dense| - 1], threshold, id)
  }

  function WeightedSum(sw: real, semantic: real, lw: real, lex: real): real {
    sw * semantic + lw * lex
  }

  function Fuse(semantic: real, lex: real, weight: real): real {
    WeightedSum(1.0 - Clamp01(weight), semantic, Clamp01(weight), lex)
  }

  function RowOf(lexical: seq<Candidate>, weight: real, id: Id, semantic: real): FusionRow {
    var lex := LexNormOf(lexical, id);
    FusionRow(id, semantic, lex, Fuse(semantic, lex, weight))
  }

  // ---- The order ----

  /** Higher score first; equal scores by ascending id. */
  predicate Ahead(a: ScoredChunk, b: ScoredChunk) {
    a.score > b.score || (a.score == b.score && a.id < b.id)
  }

  predicate Ranked<T>(s: seq<T>, key: T -> ScoredChunk) {
    forall i, j :: 0 <= i < j < |s| ==> Ahead(key(s[i]), key(s[j]))
  }

  predicate DistinctKeys<T>(s: seq<T>, key: T -> ScoredChunk) {
    forall i, j :: 0 <= i < j < |s| ==> key(s[i]).id != key(s[j]).id
  }

  lemma NonEmptyHasMember<T>(s: seq<T>)
    ensures s != [] ==> exists x :: x in s
  {
    if s != [] { assert s[0] in s; }
  }

  lemma HeadIsAhead<T>(s: seq<T>, key: T -> ScoredChunk, i: nat)
    requires Ranked(s, key) && i < |s|
    ensures i == 0 || Ahead(key(s[0]), key(s[i]))
  {
  }

  lemma AheadIsEarlier<T>(s: seq<T>, key: T -> ScoredChunk, i: nat, j: nat)
    requires Ranked(s, key) && i < |s| && j < |s| && Ahead(key(s[i]), key(s[j]))
    ensures i < j
  {
  }

  /** A ranking is determined by its set of elements: two rankings of the same rows are the same sequence. */
  lemma {:induction false} RankedIsUnique<T>(s: seq<T>, t: seq<T>, key: T -> ScoredChunk)
    requires Ranked(s, key) && Ranked(t, key)
    requires forall x :: x in s <==> x in t
    ensures s == t
    decreases |s|
  {
    if s == [] {
      NonEmptyHasMember(t);
    } else {
      assert s[0] in t;
      assert t[0] in s;
      assert s[0] == t[0] by {
        var i :| 0 <= i < |t| && t[i] == s[0];
        var j :| 0 <= j < |s| && s[j] == t[0];
        HeadIsAhead(t, key, i);
        HeadIsAhead(s, key, j);
      }
      forall x ensures x in s[1..] <==> x in t[1..] {
        if x in s[1..] {
          var k :| 0 <= k < |s| - 1 && s[1..][k] == x;
          assert Ahead(key(s[0]), key(s[k + 1]));
          assert x in t;
        }
        if x in t[1..] {
          var k :| 0 <= k < |t| - 1 && t[1..][k] == x;
          assert Ahead(key(t[0]), key(t[k + 1]));
          assert x in s;
        }
      }
      RankedIsUnique(s[1..], t[1..], key);
    }
  }

  /** The nested exchange loops of the ranking, on the array itself. */
  method ExchangeSort<T>(a: array<T>, key: T -> ScoredChunk)
    requires DistinctKeys(a[..], key)
    modifies a
    ensures Ranked(a[..], key)
    ensures multiset(a[..]) == multiset(old(a[..]))
  {
    for i := 0 to a.Length
      invariant multiset(a[..]) == multiset(old(a[..]))
      invariant DistinctKeys(a[..], key)
      invariant forall p, q :: 0 <= p < i && p < q < a.Length ==> Ahead(key(a[p]), key(a[q]))
    {
      for j := i + 1 to a.Length
        invariant multiset(a[..]) == multiset(old(a[..]))
        invariant DistinctKeys(a[..], key)
        invariant forall p, q :: 0 <= p < i && p < q < a.Length ==> Ahead(key(a[p]), key(a[q]))
        invariant forall q :: i < q < j ==> Ahead(key(a[i]), key(a[q]))
      {
        if key(a[j]).score > key(a[i]).score {
          Swap(a, i, j, key);
        } else if key(a[j]).score == key(a[i]).score && key(a[j]).id < key(a[i]).id {
          Swap(a, i, j, key);
        } else {
          assert a[..][i] == a[i] && a[..][j] == a[j];
        }
      }
    }
  }

  method Swap<T>(a: array<T>, i: nat, j: nat, key: T -> ScoredChunk)
    requires i < j < a.Length && DistinctKeys(a[..], key)
    modifies a
    ensures a[i] == old(a[j]) && a[j] == old(a[i])
    ensures forall k :: 0 <= k < a.Length && k != i && k != j ==> a[k] == old(a[k])
    ensures multiset(a[..]) == multiset(old(a[..]))
    ensures DistinctKeys(a[..], key)
  {
    ghost var before := a[..];
    assert forall p, q :: 0 <= p < q < a.Length ==> key(before[p]).id != key(before[q]).id;
    a[i], a[j] := a[j], a[i];
    assert a[..] == before[i := before[j]][j := before[i]];
    forall p, q | 0 <= p < q < a.Length ensures key(a[..][p]).id != key(a[..][q]).id {
      var p' := if p == i then j else if p == j then i else p;
      var q' := if q == i then j else if q == j then i else q;
      assert a[..][p] == before[p'] && a[..][q] == before[q'] && p' != q';
    }
  }

  // ---- The ranking ----

  function RowKey(r: FusionRow): ScoredChunk { ScoredChunk(r.id, r.fused) }

  /** out is the ranking of the candidates: exactly the ids with a dense hit at or above the threshold,
      each with its fused score, strictly ordered. Lexical hits alone never enter. */
  ghost predicate IsRanking(
      dense: seq<Candidate>, lexical: seq<Candidate>, threshold: real, weight: real, out: seq<FusionRow>)
  {
    && Ranked(out, RowKey)
    && (forall r :: r in out ==>
          SemanticOf(dense, threshold, r.id) == Present(r.semantic) && r == RowOf(lexical, weight, r.id, r.semantic))
    && (forall id {:trigger SemanticOf(dense, threshold, id)} :: SemanticOf(dense, threshold, id).Present? ==>
          RowOf(lexical, weight, id, SemanticOf(dense, threshold, id).value) in out)
  }

  /** The raw lexical ranks folded into a map, later hits overwriting earlier ones. */
  method CollectLexical(lexical: seq<Candidate>) returns (lexNorm: map<Id, real>)
    ensures forall id :: LexNormOf(lexical, id) == if id in lexNorm then lexNorm[id] else 0.0
  {
    lexNorm := map[];
    for i := 0 to |lexical|
      invariant forall id :: LexNormOf(lexical[..i], id) == if id in lexNorm then lexNorm[id] else 0.0
    {
      assert lexical[..i + 1][..i] == lexical[..i];
      lexNorm := lexNorm[lexical[i].id := NormalizeLexical(lexical[i].rawLex)];
    }
    assert lexical[..|lexical|] == lexical;
  }

  lemma SemanticOfPrefix(dense: seq<Candidate>, threshold: real, i: nat)
    requires i < |dense|
    ensures forall id :: SemanticOf(dense[..i + 1], threshold, id) ==
                         (if dense[i].id == id && dense[i].semantic >= threshold then Present(dense[i].semantic)
                          else SemanticOf(dense[..i], threshold, id))
  {
    var longer := dense[..i + 1];
    assert longer[..|longer| - 1] == dense[..i] && longer[|longer| - 1] == dense[i];
    forall id
      ensures SemanticOf(longer, threshold, id) ==
              (if dense[i].id == id && dense[i].semantic >= threshold then Present(dense[i].semantic)
               else SemanticOf(longer[..|longer| - 1], threshold, id))
    {
    }
  }

  /** The gated dense candidates as three maps and the order of first appearance; the last hit decides. */
  method CollectDense(dense: seq<Candidate>, lexical: seq<Candidate>, threshold: real, weight: real)
    returns (order: seq<Id>, sem: map<Id, real>, lexN: map<Id, real>, scores: map<Id, real>)
    ensures forall id :: id in sem ==> id in lexN && id in scores
    ensures forall p, q :: 0 <= p < q < |order| ==> order[p] != order[q]
    ensures forall id :: id in order <==> id in sem
    ensures forall id :: SemanticOf(dense, threshold, id) == if id in sem then Present(sem[id]) else Absent
    ensures forall id :: id in sem ==>
      FusionRow(id, sem[id], lexN[id], scores[id]) == RowOf(lexical, weight, id, sem[id])
  {
    var lexNorm := CollectLexical(lexical);
    var lw := weight;
    if lw < 0.0 { lw := 0.0; }
    if lw > 1.0 { lw := 1.0; }
    var sw := 1.0 - lw;
    scores, sem, lexN, order := map[], map[], map[], [];
    for i := 0 to |dense|
      invariant forall id :: id in sem <==> id in scores
      invariant forall id :: id in sem ==> id in lexN
      invariant forall id :: id in order <==> id in sem
      invariant forall p, q :: 0 <= p < q < |order| ==> order[p] != order[q]
      invariant forall id :: SemanticOf(dense[..i], threshold, id) == if id in sem then Present(sem[id]) else Absent
      invariant forall id :: id in sem ==>
        FusionRow(id, sem[id], lexN[id], scores[id]) == RowOf(lexical, weight, id, sem[id])
    {
      var c := dense[i];
      SemanticOfPrefix(dense, threshold, i);
      if c.semantic < threshold { continue; }
      var lx := if c.id in lexNorm then lexNorm[c.id] else 0.0;
      var sc := WeightedSum(sw, c.semantic, lw, lx);
      assert FusionRow(c.id, c.semantic, lx, sc) == RowOf(lexical, weight, c.id, c.semantic);
      if c.id !in scores { order := order + [c.id]; }
      scores := scores[c.id := sc];
      sem := sem[c.id := c.semantic];
      lexN := lexN[c.id := lx];
    }
    assert dense[..|dense|] == dense;
  }

  method RankChunksFusionDetail(dense: seq<Candidate>, lexical: seq<Candidate>, threshold: real, weight: real)
    returns (out: seq<FusionRow>)
    ensures IsRanking(dense, lexical, threshold, weight, out)
  {
    var order, sem, lexN, scores := CollectDense(dense, lexical, threshold, weight);
    var a := new FusionRow[|order|](i requires 0 <= i < |order| =>
      FusionRow(order[i], sem[order[i]], lexN[order[i]], scores[order[i]]));
    ghost var rows := a[..];
    assert forall i :: 0 <= i < |order| ==> rows[i] == RowOf(lexical, weight, order[i], sem[order[i]]);
    forall id | SemanticOf(dense, threshold, id).Present? ensures RowOf(lexical, weight, id, sem[id]) in rows {
      var i :| 0 <= i < |order| && order[i] == id;
      assert rows[i] == RowOf(lexical, weight, id, sem[id]);
    }
    ExchangeSort(a, RowKey);
    out := a[..];
    SameMembers(out, rows);
  }

  lemma SameMembers<T>(s: seq<T>, t: seq<T>)
    requires multiset(s) == multiset(t)
    ensures forall x :: x in s <==> x in t
  {
    forall x ensures x in s <==> x in t {
      assert x in s <==> x in multiset(s);
      assert x in t <==> x in multiset(t);
    }
  }

  predicate Projects(out: seq<ScoredChunk>, rows: seq<FusionRow>) {
    |out| == |rows| && forall i :: 0 <= i < |out| ==> out[i] == RowKey(rows[i])
  }

  /** RankChunks: the same ranking, ids and scores only. */
  method RankChunks(dense: seq<Candidate>, lexical: seq<Candidate>, threshold: real, weight: real)
    returns (out: seq<ScoredChunk>)
    ensures exists rows :: IsRanking(dense, lexical, threshold, weight, rows) && Projects(out, rows)
  {
    var rows := RankChunksFusionDetail(dense, lexical, threshold, weight);
    out := seq(|rows|, i requires 0 <= i < |rows| => RowKey(rows[i]));
    assert Projects(out, rows);
  }

  // ---- The ranking is canonical ----

  lemma RankingIsUnique(
      dense: seq<Candidate>, lexical: seq<Candidate>, threshold: real, weight: real,
      r1: seq<FusionRow>, r2: seq<FusionRow>)
    requires IsRanking(dense, lexical, threshold, weight, r1)
    requires IsRanking(dense, lexical, threshold, weight, r2)
    ensures r1 == r2
  {
    RankedIsUnique(r1, r2, RowKey);
  }

  predicate DistinctIds(s: seq<Candidate>) {
    forall i, j :: 0 <= i < j < |s| ==> s[i].id != s[j].id
  }

  lemma {:induction false} SemanticOfDistinct(dense: seq<Candidate>, threshold: real, id: Id, x: real)
    requires DistinctIds(dense)
    ensures SemanticOf(dense, threshold, id) == Present(x) <==>
      exists c :: c in dense && c.id == id && c.semantic == x && x >= threshold
    decreases |dense|
  {
    if dense != [] {
      var rest, last := dense[..|dense| - 1], dense[|dense| - 1];
      SemanticOfDistinct(rest, threshold, id, x);
      assert dense == rest + [last];
      assert forall c :: c in dense <==> c in rest || c == last;
      assert last.id == id ==> forall c :: c in rest ==> c.id != id;
    }
  }

  lemma {:induction false} LexNormOfDistinct(lexical: seq<Candidate>, c: Candidate)
    requires DistinctIds(lexical) && c in lexical
    ensures LexNormOf(lexical, c.id) == NormalizeLexical(c.rawLex)
    decreases |lexical|
  {
    var rest, last := lexical[..|lexical| - 1], lexical[|lexical| - 1];
    assert lexical == rest + [last];
    if c != last { LexNormOfDistinct(rest, c); }
  }

  lemma {:induction false} LexNormOfAbsent(lexical: seq<Candidate>, id: Id)
    requires forall c :: c in lexical ==> c.id != id
    ensures LexNormOf(lexical, id) == 0.0
    decreases |lexical|
  {
    if lexical != [] { LexNormOfAbsent(lexical[..|lexical| - 1], id); }
  }

  lemma LexNormIgnoresOrder(l1: seq<Candidate>, l2: seq<Candidate>, id: Id)
    requires multiset(l1) == multiset(l2) && DistinctIds(l1) && DistinctIds(l2)
    ensures LexNormOf(l1, id) == LexNormOf(l2, id)
  {
    SameMembers(l1, l2);
    if c :| c in l1 && c.id == id {
      LexNormOfDistinct(l1, c);
      LexNormOfDistinct(l2, c);
    } else {
      LexNormOfAbsent(l1, id);
      LexNormOfAbsent(l2, id);
    }
  }

  lemma SemanticIgnoresOrder(d1: seq<Candidate>, d2: seq<Candidate>, threshold: real, id: Id)
    requires multiset(d1) == multiset(d2) && DistinctIds(d1) && DistinctIds(d2)
    ensures SemanticOf(d1, threshold, id) == SemanticOf(d2, threshold, id)
  {
    SameMembers(d1, d2);
    var s1, s2 := SemanticOf(d1, threshold, id), SemanticOf(d2, threshold, id);
    if s1.Present? {
      SemanticOfDistinct(d1, threshold, id, s1.value);
      SemanticOfDistinct(d2, threshold, id, s1.value);
    } else if s2.Present? {
      SemanticOfDistinct(d1, threshold, id, s2.value);
      SemanticOfDistinct(d2, threshold, id, s2.value);
    }
  }

  /** The ranking does not depend on the order in which either search returned its hits. */
  lemma RankingIgnoresCandidateOrder(
      d1: seq<Candidate>, d2: seq<Candidate>, l1: seq<Candidate>, l2: seq<Candidate>,
      threshold: real, weight: real, r1: seq<FusionRow>, r2: seq<FusionRow>)
    requires multiset(d1) == multiset(d2) && DistinctIds(d1) && DistinctIds(d2)
    requires multiset(l1) == multiset(l2) && DistinctIds(l1) && DistinctIds(l2)
    requires IsRanking(d1, l1, threshold, weight, r1) && IsRanking(d2, l2, threshold, weight, r2)
    ensures r1 == r2
  {
    forall id
      ensures SemanticOf(d1, threshold, id) == SemanticOf(d2, threshold, id) && LexNormOf(l1, id) == LexNormOf(l2, id)
    {
      SemanticIgnoresOrder(d1, d2, threshold, id);
      LexNormIgnoresOrder(l1, l2, id);
    }
    RankedIsUnique(r1, r2, RowKey);
  }

  /** A fused score lies between its two ingredients, so it is never negative once the threshold is not. */
  lemma FusedIsBetween(lexical: seq<Candidate>, weight: real, id: Id, semantic: real)
    ensures var r := RowOf(lexical, weight, id, semantic);
      && (if r.semantic <= r.lexNorm then r.semantic <= r.fused <= r.lexNorm else r.lexNorm <= r.fused <= r.semantic)
      && 0.0 <= r.lexNorm < 1.0
  {
    var r := RowOf(lexical, weight, id, semantic);
    var lw := Clamp01(weight);
    assert r.fused == r.semantic + lw * (r.lexNorm - r.semantic);
    assert r.fused == r.lexNorm + (1.0 - lw) * (r.semantic - r.lexNorm);
    if r.semantic <= r.lexNorm {
      ProductSign(lw, r.lexNorm - r.semantic);
      ProductSign(1.0 - lw, r.lexNorm - r.semantic);
    } else {
      ProductSign(lw, r.semantic - r.lexNorm);
      ProductSign(1.0 - lw, r.semantic - r.lexNorm);
    }
  }

  lemma RankingScoresNonNegative(
      dense: seq<Candidate>, lexical: seq<Candidate>, threshold: real, weight: real, out: seq<FusionRow>)
    requires threshold >= 0.0 && IsRanking(dense, lexical, threshold, weight, out)
    ensures forall i :: 0 <= i < |out| ==> out[i].fused >= 0.0
  {
    forall i | 0 <= i < |out| ensures out[i].fused >= 0.0 {
      assert out[i] in out;
      FusedIsBetween(lexical, weight, out[i].id, out[i].semantic);
    }
  }

  // ---- Lexical monotonicity ----

  /** hits with the raw rank of the k-th lexical hit replaced. */
  function Raised(lexical: seq<Candidate>, k: nat, raw: real): seq<Candidate>
    requires k < |lexical|
  {
    lexical[k := lexical[k].(rawLex := raw)]
  }

  lemma {:induction false} RaisedLexNorm(lexical: seq<Candidate>, k: nat, raw: real, id: Id)
    requires k < |lexical| && raw >= lexical[k].rawLex
    ensures var l' := Raised(lexical, k, raw);
      && LexNormOf(l', id) >= LexNormOf(lexical, id)
      && (id != lexical[k].id ==> LexNormOf(l', id) == LexNormOf(lexical, id))
    decreases |lexical|
  {
    var l' := Raised(lexical, k, raw);
    var n := |lexical| - 1;
    if k == n {
      assert l'[..n] == lexical[..n];
      NormalizeIsMonotone(lexical[k].rawLex, raw);
    } else {
      assert l'[..n] == Raised(lexical[..n], k, raw);
      RaisedLexNorm(lexical[..n], k, raw, id);
    }
  }

  /** The ids ranked before position p. */
  function IdsBefore(out: seq<FusionRow>, p: nat): set<Id>
    requires p <= |out|
  {
    set i | 0 <= i < p :: out[i].id
  }

  lemma RankingHasDistinctIds(
      dense: seq<Candidate>, lexical: seq<Candidate>, threshold: real, weight: real, out: seq<FusionRow>)
    requires IsRanking(dense, lexical, threshold, weight, out)
    ensures DistinctKeys(out, RowKey)
  {
    forall i, j | 0 <= i < j < |out| ensures out[i].id != out[j].id {
      assert out[i] in out && out[j] in out;
      assert Ahead(RowKey(out[i]), RowKey(out[j]));
    }
  }

  lemma {:induction false} IdsBeforeCount(out: seq<FusionRow>, p: nat)
    requires DistinctKeys(out, RowKey) && p <= |out|
    ensures |IdsBefore(out, p)| == p
  {
    if p > 0 {
      IdsBeforeCount(out, p - 1);
      assert forall i :: 0 <= i < p - 1 ==> RowKey(out[i]).id != RowKey(out[p - 1]).id;
      assert IdsBefore(out, p) == IdsBefore(out, p - 1) + {out[p - 1].id};
    }
  }

  lemma SubsetCount<T>(a: set<T>, b: set<T>)
    requires a <= b
    ensures |a| <= |b|
  {
    assert b == a + (b - a);
  }

  /** Raising one chunk's raw lexical rank, all else fixed, never moves it later in the ranking. */
  lemma RaisingNeverDemotes(
      dense: seq<Candidate>, lexical: seq<Candidate>, k: nat, raw: real, threshold: real, weight: real,
      before: seq<FusionRow>, after: seq<FusionRow>, p: nat, p': nat)
    requires k < |lexical| && raw >= lexical[k].rawLex
    requires IsRanking(dense, lexical, threshold, weight, before)
    requires IsRanking(dense, Raised(lexical, k, raw), threshold, weight, after)
    requires p < |before| && p' < |after| && before[p].id == after[p'].id == lexical[k].id
    ensures p' <= p
  {
    var id := lexical[k].id;
    assert before[p] in before && after[p'] in after;
    RaisedLexNorm(lexical, k, raw, id);
    FusedIsMonotone(before[p], after[p'], weight);
    forall i | 0 <= i < p' ensures after[i].id in IdsBefore(before, p) {
      OthersStayAhead(dense, lexical, k, raw, threshold, weight, before, after, p, p', i);
    }
    assert IdsBefore(after, p') <= IdsBefore(before, p);
    RankingHasDistinctIds(dense, lexical, threshold, weight, before);
    RankingHasDistinctIds(dense, Raised(lexical, k, raw), threshold, weight, after);
    IdsBeforeCount(before, p);
    IdsBeforeCount(after, p');
    SubsetCount(IdsBefore(after, p'), IdsBefore(before, p));
  }

  lemma FusedIsMonotone(r: FusionRow, r': FusionRow, weight: real)
    requires r.semantic == r'.semantic && r.lexNorm <= r'.lexNorm
    requires r.fused == Fuse(r.semantic, r.lexNorm, weight) && r'.fused == Fuse(r'.semantic, r'.lexNorm, weight)
    ensures r.fused <= r'.fused
  {
    assert r'.fused - r.fused == Clamp01(weight) * (r'.lexNorm - r.lexNorm);
    ProductSign(Clamp01(weight), r'.lexNorm - r.lexNorm);
  }

  /** A chunk ranked before the raised one was already before it, with the same row. */
  lemma OthersStayAhead(
      dense: seq<Candidate>, lexical: seq<Candidate>, k: nat, raw: real, threshold: real, weight: real,
      before: seq<FusionRow>, after: seq<FusionRow>, p: nat, p': nat, i: nat)
    requires k < |lexical| && raw >= lexical[k].rawLex
    requires IsRanking(dense, lexical, threshold, weight, before)
    requires IsRanking(dense, Raised(lexical, k, raw), threshold, weight, after)
    requires p < |before| && i < p' < |after| && before[p].id == after[p'].id == lexical[k].id
    requires before[p].fused <= after[p'].fused
    ensures after[i].id in IdsBefore(before, p)
  {
    var r := after[i];
    assert r in after;
    RankingHasDistinctIds(dense, Raised(lexical, k, raw), threshold, weight, after);
    assert RowKey(r).id != RowKey(after[p']).id;
    RaisedLexNorm(lexical, k, raw, r.id);
    assert r == RowOf(lexical, weight, r.id, r.semantic);
    assert r in before;
    var q :| 0 <= q < |before| && before[q] == r;
    assert Ahead(RowKey(r), RowKey(after[p']));
    assert Ahead(RowKey(r), RowKey(before[p]));
    AheadIsEarlier(before, RowKey, q, p);
  }
}
