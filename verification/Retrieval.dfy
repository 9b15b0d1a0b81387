/** Retrieve end to end: ranking, session boost with re-sort, packing and the debug report. */
module Retrieval {
  import opened Text
  import opened Scoring
  import opened ChunkFormat
  import opened Packing
  import Tuning

  // ---- Session boost ----

  function Self(c: ScoredChunk): ScoredChunk { c }

  /** keys: the ingest session key of each chunk found, None for NULL. */
  predicate Preferred(keys: map<Id, Option<string>>, sessionKey: string, id: Id) {
    id in keys && keys[id] == Some(sessionKey)
  }

  function Boosted(c: ScoredChunk, keys: map<Id, Option<string>>, sessionKey: string, boost: real): ScoredChunk {
    if Preferred(keys, sessionKey, c.id) then c.(score := c.score * boost) else c
  }

  function BoostAll(s: seq<ScoredChunk>, keys: map<Id, Option<string>>, sessionKey: string, boost: real)
    : (r: seq<ScoredChunk>)
    ensures |r| == |s| && forall i :: 0 <= i < |s| ==> r[i] == Boosted(s[i], keys, sessionKey, boost)
  {
    seq(|s|, i requires 0 <= i < |s| => Boosted(s[i], keys, sessionKey, boost))
  }

  /** out is the boosted ranking: the same chunks with their boosted scores, ranked again. */
  ghost predicate IsBoosted(
      ranked: seq<ScoredChunk>, keys: map<Id, Option<string>>, sessionKey: string, boost: real, out: seq<ScoredChunk>)
  {
    && Ranked(out, Self)
    && multiset(out) == multiset(BoostAll(ranked, keys, sessionKey, boost))
  }

  function EffectiveBoost(configured: real): (b: real)
    ensures b >= 1.0
  {
    if configured < 1.0 then 1.15 else configured
  }

  /** The scores are multiplied in place; sort.Slice is any sort by the same strict order. */
  method BoostSessionPreference(
      a: array<ScoredChunk>, configured: real, sessionKey: string, keys: map<Id, Option<string>>)
    requires DistinctKeys(a[..], Self)
    modifies a
    ensures if sessionKey == "" then a[..] == old(a[..])
            else IsBoosted(old(a[..]), keys, sessionKey, EffectiveBoost(configured), a[..])
  {
    if sessionKey == "" || a.Length == 0 { return; }
    var boost := configured;
    if boost < 1.0 { boost := 1.15; }
    ghost var before := a[..];
    for i := 0 to a.Length
      invariant forall k :: 0 <= k < i ==> a[k] == Boosted(before[k], keys, sessionKey, boost)
      invariant forall k :: i <= k < a.Length ==> a[k] == before[k]
    {
      if a[i].id in keys && keys[a[i].id] == Some(sessionKey) {
        a[i] := a[i].(score := a[i].score * boost);
      }
    }
    assert a[..] == BoostAll(before, keys, sessionKey, boost);
    forall i, j | 0 <= i < j < a.Length ensures Self(a[..][i]).id != Self(a[..][j]).id {
      assert Self(before[i]).id != Self(before[j]).id;
    }
    ExchangeSort(a, Self);
  }

  lemma ProductMonotone(x: real, y: real, b: real)
    requires b > 0.0
    ensures x > y ==> x * b > y * b
  {
  }

  lemma BoostRaises(x: real, b: real)
    requires x >= 0.0 && b >= 1.0
    ensures x * b >= x
  {
    ProductSign(x, b - 1.0);
    assert x * b - x == x * (b - 1.0);
  }

  /** With non-negative scores the boost keeps every order but one: an unpreferred chunk may fall behind a
      preferred one. */
  lemma BoostKeepsOrder(
      ranked: seq<ScoredChunk>, keys: map<Id, Option<string>>, sessionKey: string, boost: real, i: nat, j: nat)
    requires Ranked(ranked, Self) && i < j < |ranked| && boost >= 1.0
    requires ranked[i].score >= 0.0 && ranked[j].score >= 0.0
    requires Preferred(keys, sessionKey, ranked[i].id) || !Preferred(keys, sessionKey, ranked[j].id)
    ensures Ahead(Boosted(ranked[i], keys, sessionKey, boost), Boosted(ranked[j], keys, sessionKey, boost))
  {
    var a, b := ranked[i], ranked[j];
    var x, y := a.score, b.score;
    assert Ahead(Self(ranked[i]), Self(ranked[j]));
    assert Self(ranked[i]) == a && Self(ranked[j]) == b;
    ProductMonotone(x, y, boost);
    BoostRaises(x, boost);
    assert x == y ==> x * boost == y * boost;
    assert Boosted(a, keys, sessionKey, boost).score == if Preferred(keys, sessionKey, a.id) then x * boost else x;
    assert Boosted(b, keys, sessionKey, boost).score == if Preferred(keys, sessionKey, b.id) then y * boost else y;
  }

  /** Session boost is order-respecting, by positions in the final list: chunks i before j in the ranking
      stay in that order unless j is preferred and i is not. */
  lemma BoostIsOrderRespecting(
      ranked: seq<ScoredChunk>, keys: map<Id, Option<string>>, sessionKey: string, boost: real, out: seq<ScoredChunk>,
      i: nat, j: nat, p: nat, q: nat)
    requires Ranked(ranked, Self) && IsBoosted(ranked, keys, sessionKey, boost, out) && boost >= 1.0
    requires forall k :: 0 <= k < |ranked| ==> ranked[k].score >= 0.0
    requires i < j < |ranked| && p < |out| && q < |out|
    requires out[p] == Boosted(ranked[i], keys, sessionKey, boost)
    requires out[q] == Boosted(ranked[j], keys, sessionKey, boost)
    requires Preferred(keys, sessionKey, ranked[i].id) || !Preferred(keys, sessionKey, ranked[j].id)
    ensures p < q
  {
    BoostKeepsOrder(ranked, keys, sessionKey, boost, i, j);
    AheadIsEarlier(out, Self, p, q);
  }

  // ---- The whole request ----

  type RuntimeTuning = Tuning.RuntimeTuning

  /** What the stores and the caller supply. The lookup of session keys may fail after it has delivered
      some rows: delivered is what has arrived, lookupOk whether that was all. */
  datatype Input = Input(
    encryption: bool, unlocked: bool, embedOk: bool,
    dense: seq<Candidate>, lexical: seq<Candidate>,
    sessionMode: string, sessionKey: string, contentMode: string,
    maxChunks: int, maxTokens: int,
    delivered: map<Id, Option<string>>, lookupOk: bool,
    bodies: map<Id, ChunkBody>)

  datatype Params = Params(
    semanticThreshold: real, lexicalWeight: real, embeddingModel: string, kDense: int,
    maxChunks: nat, maxTokens: int, sessionMode: string, sessionKey: string, contentMode: string)

  datatype DenseRow = DenseRow(id: Id, semantic: real, passed: bool)
  datatype LexicalRow = LexicalRow(id: Id, rawLex: real, lexNorm: real)

  /** One ranked chunk: what fusion gave it, whether it was boosted, and the score it was ranked by. */
  datatype FusedRow = FusedRow(row: FusionRow, boosted: bool, score: real)

  datatype Debug = Debug(
    params: Params, dense: seq<DenseRow>, lexical: seq<LexicalRow>, fused: seq<FusedRow>,
    packing: PackResult, stopped: bool)

  datatype Outcome = Failure(error: string) | Results(snippets: seq<Snippet>, debug: Option<Debug>)

  function EffectiveMaxChunks(requested: int, tn: RuntimeTuning): nat {
    if requested > 0 then requested
    else if tn.retrieveDefaultMaxChunks > 0 then tn.retrieveDefaultMaxChunks
    else 8
  }

  predicate AsksForSession(inp: Input) {
    Normal(inp.sessionMode) == "prefer" && TrimSpace(inp.sessionKey) != ""
  }

  /** The boost is applied only after a complete lookup. */
  predicate PrefersSession(inp: Input) {
    AsksForSession(inp) && inp.lookupOk
  }

  function CostOf(inp: Input, id: Id): Option<nat> {
    if id in inp.bodies then
      var cb := inp.bodies[id];
      Some(EstimatedReturnTokens(cb, ResolveContentMode(inp.contentMode, cb)))
    else None
  }

  function RequestOf(inp: Input, tn: RuntimeTuning): Request {
    Request(id => CostOf(inp, id), EffectiveMaxChunks(inp.maxChunks, tn), inp.maxTokens)
  }

  function SnippetOf(inp: Input, it: Item): Snippet {
    if it.chunk.id in inp.bodies then
      var cb := inp.bodies[it.chunk.id];
      BuildSnippet(it.chunk.id, cb, it.chunk.score, ResolveContentMode(inp.contentMode, cb))
    else Snippet(it.chunk.id, "", it.chunk.score, "", "", false, "")
  }

  function SnippetsOf(inp: Input, items: seq<Item>): (s: seq<Snippet>)
    ensures |s| == |items| && forall i :: 0 <= i < |s| ==> s[i] == SnippetOf(inp, items[i])
  {
    seq(|items|, i requires 0 <= i < |items| => SnippetOf(inp, items[i]))
  }

  function KeysOf(rows: seq<FusionRow>): (s: seq<ScoredChunk>)
    ensures |s| == |rows| && forall i :: 0 <= i < |s| ==> s[i] == RowKey(rows[i])
  {
    seq(|rows|, i requires 0 <= i < |rows| => RowKey(rows[i]))
  }

  /** ranked is the list that packing walks: the fusion ranking, boosted when the request prefers a session.
      The boost is read from the tuning a second time, so tb may be newer than tn. */
  ghost predicate IsFinalRanking(
      inp: Input, tn: RuntimeTuning, tb: RuntimeTuning, rows: seq<FusionRow>, ranked: seq<ScoredChunk>)
  {
    && IsRanking(inp.dense, inp.lexical, tn.semanticThreshold, tn.fusionLexicalWeight, rows)
    && if PrefersSession(inp)
       then
         var boost := EffectiveBoost(tb.sessionPreferScoreBoost);
         IsBoosted(KeysOf(rows), inp.delivered, TrimSpace(inp.sessionKey), boost, ranked)
       else ranked == KeysOf(rows)
  }

  // ---- The debug report ----

  /** How many candidates each search is asked for. */
  function KDense(maxChunks: nat, tn: RuntimeTuning): int {
    var k := maxChunks * if tn.retrieveKDenseMultiplier < 1 then 4 else tn.retrieveKDenseMultiplier;
    if tn.retrieveKDenseMin > 0 && k < tn.retrieveKDenseMin then tn.retrieveKDenseMin else k
  }

  function OrWhenEmpty(s: string, otherwise: string): string {
    if s == "" then otherwise else s
  }

  function ParamsOf(inp: Input, tn: RuntimeTuning): Params {
    var n := EffectiveMaxChunks(inp.maxChunks, tn);
    Params(tn.semanticThreshold, tn.fusionLexicalWeight, tn.embeddingModel, KDense(n, tn), n, inp.maxTokens,
           OrWhenEmpty(Normal(inp.sessionMode), "all"), TrimSpace(inp.sessionKey),
           OrWhenEmpty(Normal(inp.contentMode), "auto"))
  }

  function DenseRowOf(c: Candidate, tn: RuntimeTuning): DenseRow {
    DenseRow(c.id, c.semantic, c.semantic >= tn.semanticThreshold)
  }

  function LexicalRowOf(c: Candidate): LexicalRow {
    LexicalRow(c.id, c.rawLex, NormalizeLexical(c.rawLex))
  }

  predicate Matches(inp: Input, id: Id) {
    Preferred(inp.delivered, TrimSpace(inp.sessionKey), id)
  }

  predicate WasBoosted(inp: Input, id: Id) {
    PrefersSession(inp) && Matches(inp, id)
  }

  /** The flag of the report: it asks for the delivered rows, not whether the lookup succeeded. */
  predicate BoostFlag(inp: Input, id: Id) {
    AsksForSession(inp) && Matches(inp, id)
  }

  function ScoreOf(row: FusionRow, boosted: bool, tb: RuntimeTuning): real {
    if boosted then row.fused * EffectiveBoost(tb.sessionPreferScoreBoost) else row.fused
  }

  /** f reports chunk c: its fusion row, the score it has after a boost or without one, and the flag. */
  predicate Reports(inp: Input, tb: RuntimeTuning, rows: seq<FusionRow>, c: ScoredChunk, f: FusedRow) {
    && f.row in rows && f.row.id == c.id && f.score == c.score
    && f.score == ScoreOf(f.row, WasBoosted(inp, c.id), tb)
    && f.boosted == BoostFlag(inp, c.id)
  }

  /** The whole report is determined by the request, its ranking and the packing. */
  predicate DebugOk(
      inp: Input, tn: RuntimeTuning, tb: RuntimeTuning, rows: seq<FusionRow>, ranked: seq<ScoredChunk>, d: Debug)
  {
    && d.params == ParamsOf(inp, tn)
    && |d.dense| == |inp.dense|
    && (forall i :: 0 <= i < |d.dense| ==> d.dense[i] == DenseRowOf(inp.dense[i], tn))
    && |d.lexical| == |inp.lexical|
    && (forall i :: 0 <= i < |d.lexical| ==> d.lexical[i] == LexicalRowOf(inp.lexical[i]))
    && |d.fused| == |ranked|
    && (forall i :: 0 <= i < |d.fused| ==> Reports(inp, tb, rows, ranked[i], d.fused[i]))
    && d.packing == Pack(ranked, RequestOf(inp, tn), 0, 0)
    && d.stopped == (d.packing.chunkSkipped != [])
  }

  lemma BoostedFrom(
      before: seq<ScoredChunk>, keys: map<Id, Option<string>>, sk: string, boost: real, out: seq<ScoredChunk>, i: nat)
      returns (k: nat)
    requires IsBoosted(before, keys, sk, boost, out) && i < |out|
    ensures k < |before| && out[i] == Boosted(before[k], keys, sk, boost)
  {
    var all := BoostAll(before, keys, sk, boost);
    SameMembers(out, all);
    assert out[i] in out;
    k :| 0 <= k < |all| && all[k] == out[i];
  }

  /** Each chunk of the final ranking is the possibly boosted form of one fusion row. */
  lemma RankedChunkHasRow(
      inp: Input, tn: RuntimeTuning, tb: RuntimeTuning, rows: seq<FusionRow>, ranked: seq<ScoredChunk>, i: nat)
      returns (k: nat)
    requires IsFinalRanking(inp, tn, tb, rows, ranked) && i < |ranked|
    ensures k < |rows|
    ensures Reports(inp, tb, rows, ranked[i], FusedRow(rows[k], BoostFlag(inp, ranked[i].id), ranked[i].score))
  {
    if PrefersSession(inp) {
      var keys, sk := inp.delivered, TrimSpace(inp.sessionKey);
      var boost := EffectiveBoost(tb.sessionPreferScoreBoost);
      k := BoostedFrom(KeysOf(rows), keys, sk, boost, ranked, i);
      assert ranked[i] == Boosted(RowKey(rows[k]), keys, sk, boost);
      assert WasBoosted(inp, ranked[i].id) == Preferred(keys, sk, rows[k].id);
    } else {
      k := i;
      assert ranked[i] == RowKey(rows[i]);
    }
  }

  /** fusionByID: the rows by id. */
  method RowsById(rows: seq<FusionRow>) returns (byId: map<Id, FusionRow>)
    requires DistinctKeys(rows, RowKey)
    ensures forall k :: 0 <= k < |rows| ==> rows[k].id in byId && byId[rows[k].id] == rows[k]
  {
    byId := map[];
    for i := 0 to |rows|
      invariant forall k :: 0 <= k < i ==> rows[k].id in byId && byId[rows[k].id] == rows[k]
    {
      assert forall k :: 0 <= k < i ==> RowKey(rows[k]).id != RowKey(rows[i]).id;
      byId := byId[rows[i].id := rows[i]];
    }
  }

  method FusedReport(
      inp: Input, tn: RuntimeTuning, tb: RuntimeTuning, rows: seq<FusionRow>, ranked: seq<ScoredChunk>)
    returns (out: seq<FusedRow>)
    requires IsFinalRanking(inp, tn, tb, rows, ranked)
    ensures |out| == |ranked| && forall i :: 0 <= i < |out| ==> Reports(inp, tb, rows, ranked[i], out[i])
  {
    RankingHasDistinctIds(inp.dense, inp.lexical, tn.semanticThreshold, tn.fusionLexicalWeight, rows);
    var byId := RowsById(rows);
    out := [];
    for i := 0 to |ranked|
      invariant |out| == i
      invariant forall j :: 0 <= j < i ==> Reports(inp, tb, rows, ranked[j], out[j])
    {
      ghost var k := RankedChunkHasRow(inp, tn, tb, rows, ranked, i);
      var id := ranked[i].id;
      out := out + [FusedRow(byId[id], BoostFlag(inp, id), ranked[i].score)];
    }
  }

  method DebugOf(
      inp: Input, tn: RuntimeTuning, tb: RuntimeTuning, rows: seq<FusionRow>, ranked: seq<ScoredChunk>,
      packed: PackResult)
    returns (d: Debug)
    requires IsFinalRanking(inp, tn, tb, rows, ranked) && packed == Pack(ranked, RequestOf(inp, tn), 0, 0)
    ensures DebugOk(inp, tn, tb, rows, ranked, d)
  {
    var dense := seq(|inp.dense|, i requires 0 <= i < |inp.dense| => DenseRowOf(inp.dense[i], tn));
    var lexical := seq(|inp.lexical|, i requires 0 <= i < |inp.lexical| => LexicalRowOf(inp.lexical[i]));
    var fused := FusedReport(inp, tn, tb, rows, ranked);
    d := Debug(ParamsOf(inp, tn), dense, lexical, fused, packed, packed.chunkSkipped != []);
  }

  method RetrieveWithDebug(inp: Input, tn: RuntimeTuning, tb: RuntimeTuning, wantDebug: bool)
    returns (r: Outcome, ghost rows: seq<FusionRow>, ghost ranked: seq<ScoredChunk>)
    ensures r.Failure? <==> (inp.encryption && !inp.unlocked) || !inp.embedOk
    ensures r.Results? ==>
      && IsFinalRanking(inp, tn, tb, rows, ranked)
      && r.snippets == SnippetsOf(inp, Pack(ranked, RequestOf(inp, tn), 0, 0).included)
      && r.debug.Some? == wantDebug
      && (wantDebug ==> DebugOk(inp, tn, tb, rows, ranked, r.debug.value))
  {
    rows, ranked := [], [];
    if inp.encryption && !inp.unlocked { return Failure("vault must be unlocked"), rows, ranked; }
    if !inp.embedOk { return Failure("embedding failed"), rows, ranked; }
    var detail := RankChunksFusionDetail(inp.dense, inp.lexical, tn.semanticThreshold, tn.fusionLexicalWeight);
    rows := detail;
    var a := new ScoredChunk[|detail|](i requires 0 <= i < |detail| => RowKey(detail[i]));
    assert a[..] == KeysOf(detail);
    KeysStayRanked(inp, tn, detail);
    var mode, sKey := Normal(inp.sessionMode), TrimSpace(inp.sessionKey);
    if mode == "prefer" && sKey != "" && inp.lookupOk {
      BoostSessionPreference(a, tb.sessionPreferScoreBoost, sKey, inp.delivered);
    }
    ranked := a[..];
    var packed, _ := PackLoop(a[..], RequestOf(inp, tn));
    var snippets := SnippetsOf(inp, packed.included);
    if wantDebug {
      var d := DebugOf(inp, tn, tb, detail, a[..], packed);
      r := Results(snippets, Some(d));
    } else {
      r := Results(snippets, None);
    }
  }

  lemma KeysStayRanked(inp: Input, tn: RuntimeTuning, rows: seq<FusionRow>)
    requires IsRanking(inp.dense, inp.lexical, tn.semanticThreshold, tn.fusionLexicalWeight, rows)
    ensures Ranked(KeysOf(rows), Self) && DistinctKeys(KeysOf(rows), Self)
  {
    RankingHasDistinctIds(inp.dense, inp.lexical, tn.semanticThreshold, tn.fusionLexicalWeight, rows);
    forall i, j | 0 <= i < j < |rows|
      ensures Ahead(Self(KeysOf(rows)[i]), Self(KeysOf(rows)[j]))
      ensures Self(KeysOf(rows)[i]).id != Self(KeysOf(rows)[j]).id
    {
      assert Ahead(RowKey(rows[i]), RowKey(rows[j])) && RowKey(rows[i]).id != RowKey(rows[j]).id;
    }
  }

  // ---- Consequences ----

  /** The request determines the list that is packed, so the answer too: in particular asking for the debug
      report changes no result. */
  lemma FinalRankingIsUnique(
      inp: Input, tn: RuntimeTuning, tb: RuntimeTuning, rows1: seq<FusionRow>, ranked1: seq<ScoredChunk>,
      rows2: seq<FusionRow>, ranked2: seq<ScoredChunk>)
    requires IsFinalRanking(inp, tn, tb, rows1, ranked1) && IsFinalRanking(inp, tn, tb, rows2, ranked2)
    ensures rows1 == rows2 && ranked1 == ranked2
  {
    RankingIsUnique(inp.dense, inp.lexical, tn.semanticThreshold, tn.fusionLexicalWeight, rows1, rows2);
    if PrefersSession(inp) {
      SameMembers(ranked1, ranked2);
      RankedIsUnique(ranked1, ranked2, Self);
    }
  }

  function TextRunes(s: seq<Snippet>): nat {
    if s == [] then 0 else |s[0].text| + TextRunes(s[1..])
  }

  lemma {:induction false} SnippetsFitEstimates(inp: Input, items: seq<Item>)
    requires forall it :: it in items ==> CostOf(inp, it.chunk.id) == Some(it.est)
    ensures TextRunes(SnippetsOf(inp, items)) <= 4 * Total(items) + 3 * |items|
    decreases |items|
  {
    if items != [] {
      var it := items[0];
      assert it in items;
      SnippetFitsEstimate(it.chunk.id, inp.bodies[it.chunk.id], it.chunk.score, inp.contentMode);
      assert SnippetsOf(inp, items)[1..] == SnippetsOf(inp, items[1..]);
      SnippetsFitEstimates(inp, items[1..]);
    }
  }

  /** With a token budget the text returned is bounded, whatever the content mode. */
  lemma ReturnedTextIsBounded(inp: Input, tn: RuntimeTuning, ranked: seq<ScoredChunk>)
    requires inp.maxTokens > 0
    ensures var s := SnippetsOf(inp, Pack(ranked, RequestOf(inp, tn), 0, 0).included);
      && TextRunes(s) <= 4 * inp.maxTokens + 3 * |s|
      && |s| <= EffectiveMaxChunks(inp.maxChunks, tn)
  {
    var q := RequestOf(inp, tn);
    var items := Pack(ranked, q, 0, 0).included;
    PackRespectsLimits(ranked, q, 0, 0);
    PackReasons(ranked, q, 0, 0);
    forall it | it in items ensures CostOf(inp, it.chunk.id) == Some(it.est) {
      assert q.cost(it.chunk.id) == Some(it.est);
    }
    SnippetsFitEstimates(inp, items);
  }

  /** The order law of the boost, for a request under the tunings that are in force, which are always valid
      (Tuning.MergeFullIsOverlay, TuningState.PublishedIsAlwaysConsistent). A reload may fall between the two. */
  lemma RequestBoostIsOrderRespecting(
      inp: Input, tn: RuntimeTuning, tb: RuntimeTuning, rows: seq<FusionRow>, ranked: seq<ScoredChunk>,
      i: nat, j: nat, p: nat, q: nat)
    requires Tuning.Valid(tn)
    requires IsFinalRanking(inp, tn, tb, rows, ranked) && PrefersSession(inp)
    requires i < j < |rows| && p < |ranked| && q < |ranked|
    requires ranked[p].id == rows[i].id && ranked[q].id == rows[j].id
    requires Matches(inp, rows[i].id) || !Matches(inp, rows[j].id)
    ensures p < q
  {
    var keys, sk, boost := inp.delivered, TrimSpace(inp.sessionKey), EffectiveBoost(tb.sessionPreferScoreBoost);
    var before := KeysOf(rows);
    KeysStayRanked(inp, tn, rows);
    RankingScoresNonNegative(inp.dense, inp.lexical, tn.semanticThreshold, tn.fusionLexicalWeight, rows);
    BoostedAt(before, keys, sk, boost, ranked, i, p);
    BoostedAt(before, keys, sk, boost, ranked, j, q);
    BoostIsOrderRespecting(before, keys, sk, boost, ranked, i, j, p, q);
  }

  // ---- When the reported boost flag is true ----

  /** The flag says what happened to the score. */
  predicate FlagAgrees(f: FusedRow, tb: RuntimeTuning) {
    f.score == ScoreOf(f.row, f.boosted, tb)
  }

  lemma BoostLeavesIff(x: real, b: real)
    ensures x * b == x <==> x == 0.0 || b == 1.0
  {
    assert x * b - x == x * (b - 1.0);
    if x * (b - 1.0) == 0.0 && x != 0.0 { assert b - 1.0 == 0.0 by { CancelFactor(x, b - 1.0); } }
  }

  lemma CancelFactor(x: real, y: real)
    requires x * y == 0.0 && x != 0.0
    ensures y == 0.0
  {
    assert y == (x * y) / x;
  }

  /** A chunk that is flagged but not boosted, and would not have the same score if it were. */
  predicate FalselyFlagged(inp: Input, tb: RuntimeTuning, row: FusionRow) {
    BoostFlag(inp, row.id) && row.fused != 0.0 && EffectiveBoost(tb.sessionPreferScoreBoost) != 1.0
  }

  lemma FlagAgreesIff(inp: Input, tb: RuntimeTuning, rows: seq<FusionRow>, c: ScoredChunk, f: FusedRow)
    requires Reports(inp, tb, rows, c, f)
    ensures FlagAgrees(f, tb) <==> inp.lookupOk || !FalselyFlagged(inp, tb, f.row)
  {
    BoostLeavesIff(f.row.fused, EffectiveBoost(tb.sessionPreferScoreBoost));
    assert WasBoosted(inp, c.id) == (BoostFlag(inp, c.id) && inp.lookupOk);
  }

  /** The report's flags agree with its scores if and only if the lookup was complete, or no ranked chunk that
      matches among the delivered rows has a score that a boost would change. */
  lemma FlagsAgreeIff(
      inp: Input, tn: RuntimeTuning, tb: RuntimeTuning, rows: seq<FusionRow>, ranked: seq<ScoredChunk>, d: Debug)
    requires IsFinalRanking(inp, tn, tb, rows, ranked) && DebugOk(inp, tn, tb, rows, ranked, d)
    ensures (forall i :: 0 <= i < |d.fused| ==> FlagAgrees(d.fused[i], tb))
            <==> inp.lookupOk || forall row :: row in rows ==> !FalselyFlagged(inp, tb, row)
  {
    forall i | 0 <= i < |d.fused|
      ensures FlagAgrees(d.fused[i], tb) <==> inp.lookupOk || !FalselyFlagged(inp, tb, d.fused[i].row)
    {
      FlagAgreesIff(inp, tb, rows, ranked[i], d.fused[i]);
    }
    if !inp.lookupOk {
      forall i | 0 <= i < |rows| ensures |d.fused| == |rows| && d.fused[i].row == rows[i] {
        RowAtItsPlace(inp, tn, tb, rows, ranked, d, i);
      }
    }
  }

  /** Without a boost the i-th report is of the i-th fusion row. */
  lemma RowAtItsPlace(
      inp: Input, tn: RuntimeTuning, tb: RuntimeTuning, rows: seq<FusionRow>, ranked: seq<ScoredChunk>,
      d: Debug, i: nat)
    requires IsFinalRanking(inp, tn, tb, rows, ranked) && DebugOk(inp, tn, tb, rows, ranked, d)
    requires !inp.lookupOk && i < |rows|
    ensures |d.fused| == |rows| && d.fused[i].row == rows[i]
  {
    assert Reports(inp, tb, rows, ranked[i], d.fused[i]);
    var k :| 0 <= k < |rows| && rows[k] == d.fused[i].row;
    KeysStayRanked(inp, tn, rows);
    DistinctIndex(KeysOf(rows), k, i);
  }

  /** A lookup that breaks after one row: the one candidate is reported as boosted, and was not. */
  const BROKEN: Input := Input(
    false, true, true, [Candidate(1, 0.5, 0.0)], [], "prefer", "s", "", 0, 0, map[1 := Some("s")], false, map[])

  lemma BrokenLookupMisreports(rows: seq<FusionRow>, ranked: seq<ScoredChunk>, d: Debug)
    requires IsFinalRanking(BROKEN, Tuning.DEFAULT, Tuning.DEFAULT, rows, ranked)
    requires DebugOk(BROKEN, Tuning.DEFAULT, Tuning.DEFAULT, rows, ranked, d)
    ensures d.fused == [FusedRow(FusionRow(1, 0.5, 0.0, 0.325), true, 0.325)]
    ensures !FlagAgrees(d.fused[0], Tuning.DEFAULT)
  {
    BrokenRows(rows);
    BrokenFlag();
    RowAtItsPlace(BROKEN, Tuning.DEFAULT, Tuning.DEFAULT, rows, ranked, d, 0);
    assert Reports(BROKEN, Tuning.DEFAULT, rows, ranked[0], d.fused[0]);
  }

  lemma BrokenFlag()
    ensures BoostFlag(BROKEN, 1) && !WasBoosted(BROKEN, 1)
  {
    AlreadyNormal("prefer");
    TrimIsIdentityOnTrimmed("s");
  }

  /** The request does have a ranking, so the engine answers it with such a report. */
  lemma BrokenHasRanking()
    ensures IsFinalRanking(
      BROKEN, Tuning.DEFAULT, Tuning.DEFAULT, [FusionRow(1, 0.5, 0.0, 0.325)], [ScoredChunk(1, 0.325)])
  {
    var row := FusionRow(1, 0.5, 0.0, 0.325);
    BrokenCandidates();
    assert IsRanking(BROKEN.dense, BROKEN.lexical, 0.25, 0.35, [row]);
    assert KeysOf([row]) == [ScoredChunk(1, 0.325)];
  }

  lemma BrokenCandidates()
    ensures forall id :: SemanticOf(BROKEN.dense, 0.25, id) == if id == 1 then Present(0.5) else Absent
    ensures RowOf(BROKEN.lexical, 0.35, 1, 0.5) == FusionRow(1, 0.5, 0.0, 0.325)
  {
    var dense := BROKEN.dense;
    forall id ensures SemanticOf(dense, 0.25, id) == if id == 1 then Present(0.5) else Absent {
      assert dense[..|dense| - 1] == [] && SemanticOf([], 0.25, id) == Absent;
    }
    assert LexNormOf([], 1) == 0.0 && Clamp01(0.35) == 0.35;
    assert Fuse(0.5, 0.0, 0.35) == (1.0 - 0.35) * 0.5 + 0.35 * 0.0;
  }

  lemma BrokenRows(rows: seq<FusionRow>)
    requires IsRanking(BROKEN.dense, BROKEN.lexical, 0.25, 0.35, rows)
    ensures rows == [FusionRow(1, 0.5, 0.0, 0.325)]
  {
    var row := FusionRow(1, 0.5, 0.0, 0.325);
    BrokenCandidates();
    assert SemanticOf(BROKEN.dense, 0.25, 1) == Present(0.5);
    assert RowOf(BROKEN.lexical, 0.35, 1, SemanticOf(BROKEN.dense, 0.25, 1).value) == row;
    forall i | 0 <= i < |rows| ensures rows[i] == row { assert rows[i] in rows; }
    RankedIsUnique(rows, [row], RowKey);
  }

  lemma DistinctIndex(s: seq<ScoredChunk>, k: nat, i: nat)
    requires DistinctKeys(s, Self) && k < |s| && i < |s| && Self(s[k]).id == Self(s[i]).id
    ensures k == i
  {
  }

  /** A chunk of the boosted list is the boosted form of the one with its id. */
  lemma BoostedAt(
      before: seq<ScoredChunk>, keys: map<Id, Option<string>>, sk: string, boost: real, out: seq<ScoredChunk>,
      i: nat, p: nat)
    requires IsBoosted(before, keys, sk, boost, out) && DistinctKeys(before, Self)
    requires i < |before| && p < |out| && out[p].id == before[i].id
    ensures out[p] == Boosted(before[i], keys, sk, boost)
  {
    var k := BoostedFrom(before, keys, sk, boost, out, p);
    DistinctIndex(before, k, i);
  }
}
