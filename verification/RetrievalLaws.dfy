/** What a client of a retrieve gets, in terms of what it asked for: how many chunks, with which scores, and
    which of their texts. */
module RetrievalLaws {
  import opened Text
  import opened Scoring
  import opened ChunkFormat
  import opened Packing
  import opened Retrieval
  import Tuning

  // ---- How many ----

  /** Without a token budget, and when every chunk loads, packing takes the first chunks of the ranking, as many
      as are asked for or as there are. */
  lemma {:induction false} PackTakesThePrefix(ranked: seq<ScoredChunk>, q: Request, count: nat, used: nat)
    requires q.maxTokens <= 0 && count <= q.maxChunks
    requires forall c :: c in ranked ==> q.cost(c.id).Some?
    ensures var n := if |ranked| <= q.maxChunks - count then |ranked| else q.maxChunks - count;
      Chunks(Pack(ranked, q, count, used).included) == ranked[..n]
    decreases |ranked|
  {
    if ranked != [] && count < q.maxChunks {
      var it := Item(ranked[0], q.cost(ranked[0].id).value);
      assert ranked[0] in ranked;
      PackTakesThePrefix(ranked[1..], q, count + 1, used + it.est);
      ChunksCons(it, Pack(ranked[1..], q, count + 1, used + it.est).included);
    }
  }

  function AskedNumber(inp: Input, tn: Tuning.RuntimeTuning): int {
    if inp.maxChunks > 0 then inp.maxChunks else tn.retrieveDefaultMaxChunks
  }

  lemma AskedNumberIsPacked(inp: Input, tn: Tuning.RuntimeTuning, ranked: seq<ScoredChunk>)
    requires Tuning.Valid(tn) && inp.maxTokens <= 0
    requires forall c :: c in ranked ==> c.id in inp.bodies
    ensures var n := AskedNumber(inp, tn);
      Chunks(Pack(ranked, RequestOf(inp, tn), 0, 0).included) == if |ranked| <= n then ranked else ranked[..n]
  {
    var q := RequestOf(inp, tn);
    assert q.maxChunks == AskedNumber(inp, tn) && q.maxTokens == inp.maxTokens;
    forall c | c in ranked ensures q.cost(c.id).Some? {
      assert q.cost(c.id) == CostOf(inp, c.id);
    }
    PackTakesThePrefix(ranked, q, 0, 0);
    assert ranked[..|ranked|] == ranked;
  }

  lemma SnippetIsOfChunk(inp: Input, it: Item)
    ensures SnippetOf(inp, it).id == it.chunk.id && SnippetOf(inp, it).score == it.chunk.score
  {
  }

  /** The number asked for, or the configured one when the request gives none, from the top of the ranking. */
  lemma AskedNumberIsReturned(inp: Input, tn: Tuning.RuntimeTuning, ranked: seq<ScoredChunk>, i: nat)
    requires Tuning.Valid(tn) && inp.maxTokens <= 0
    requires forall c :: c in ranked ==> c.id in inp.bodies
    ensures var n := AskedNumber(inp, tn);
      var s := SnippetsOf(inp, Pack(ranked, RequestOf(inp, tn), 0, 0).included);
      && |s| == (if |ranked| <= n then |ranked| else n)
      && (i < |s| ==> s[i].id == ranked[i].id && s[i].score == ranked[i].score)
  {
    AskedNumberIsPacked(inp, tn, ranked);
    var items := Pack(ranked, RequestOf(inp, tn), 0, 0).included;
    assert |items| == |Chunks(items)|;
    if i < |items| {
      SnippetIsOfChunk(inp, items[i]);
      assert Chunks(items)[i] == items[i].chunk;
    }
  }

  // ---- Which scores ----

  /** A chunk is boosted when the request prefers a session, the lookup was complete, and the row that came
      back for the chunk carries that session's key. */
  predicate OfPreferredSession(inp: Input, id: Id) {
    && Normal(inp.sessionMode) == "prefer" && TrimSpace(inp.sessionKey) != "" && inp.lookupOk
    && id in inp.delivered && inp.delivered[id].Some? && inp.delivered[id].value == TrimSpace(inp.sessionKey)
  }

  lemma BoostIsForPreferredSession(inp: Input, id: Id)
    ensures WasBoosted(inp, id) <==> OfPreferredSession(inp, id)
  {
  }

  /** c has the fused score of the row, times the configured boost if it is of the preferred session. */
  predicate ScoredAs(inp: Input, tb: Tuning.RuntimeTuning, c: ScoredChunk, row: FusionRow) {
    && row.id == c.id
    && c.score == if OfPreferredSession(inp, c.id) then row.fused * tb.sessionPreferScoreBoost else row.fused
  }

  lemma ReportedIsScored(inp: Input, tb: Tuning.RuntimeTuning, rows: seq<FusionRow>, c: ScoredChunk, f: FusedRow)
    requires Tuning.Valid(tb) && Reports(inp, tb, rows, c, f)
    ensures ScoredAs(inp, tb, c, f.row)
  {
    BoostIsForPreferredSession(inp, c.id);
    assert EffectiveBoost(tb.sessionPreferScoreBoost) == tb.sessionPreferScoreBoost;
  }

  /** Every ranked chunk has the score of its fusion row, boosted or not. */
  lemma ScoresAreBoosted(
      inp: Input, tn: Tuning.RuntimeTuning, tb: Tuning.RuntimeTuning, rows: seq<FusionRow>, ranked: seq<ScoredChunk>,
      i: nat)
    requires Tuning.Valid(tb) && IsFinalRanking(inp, tn, tb, rows, ranked) && i < |ranked|
    ensures exists row :: row in rows && ScoredAs(inp, tb, ranked[i], row)
  {
    var k := RankedChunkHasRow(inp, tn, tb, rows, ranked, i);
    var f := FusedRow(rows[k], BoostFlag(inp, ranked[i].id), ranked[i].score);
    ReportedIsScored(inp, tb, rows, ranked[i], f);
    assert rows[k] in rows;
  }

  /** And no fusion row is lost on the way. */
  lemma EveryRowIsRanked(
      inp: Input, tn: Tuning.RuntimeTuning, tb: Tuning.RuntimeTuning, rows: seq<FusionRow>, ranked: seq<ScoredChunk>,
      k: nat)
    requires IsFinalRanking(inp, tn, tb, rows, ranked) && k < |rows|
    ensures exists c :: c in ranked && c.id == rows[k].id
  {
    if PrefersSession(inp) {
      var boost := EffectiveBoost(tb.sessionPreferScoreBoost);
      var all := BoostAll(KeysOf(rows), inp.delivered, TrimSpace(inp.sessionKey), boost);
      SameMembers(ranked, all);
      assert all[k] in all && all[k].id == rows[k].id;
    } else {
      assert ranked[k] in ranked;
    }
  }

  // ---- What the report says ----

  /** Under valid tuning each search is asked for the larger of the configured minimum and a multiple of the
      number of results. */
  lemma SearchesAreDeep(n: nat, tn: Tuning.RuntimeTuning)
    requires Tuning.Valid(tn)
    ensures var k := KDense(n, tn);
      && k >= n * tn.retrieveKDenseMultiplier && k >= tn.retrieveKDenseMin
      && (k == n * tn.retrieveKDenseMultiplier || k == tn.retrieveKDenseMin)
  {
  }

  /** A dense candidate is reported as passed exactly if it has a row in the ranking; modes are reported
      normalised, with their defaults. */
  lemma ReportIsTruthful(
      inp: Input, tn: Tuning.RuntimeTuning, tb: Tuning.RuntimeTuning, rows: seq<FusionRow>, ranked: seq<ScoredChunk>,
      d: Debug, i: nat)
    requires IsFinalRanking(inp, tn, tb, rows, ranked) && DebugOk(inp, tn, tb, rows, ranked, d)
    requires DistinctIds(inp.dense) && i < |inp.dense|
    ensures |d.dense| == |inp.dense| && d.dense[i].id == inp.dense[i].id
    ensures d.dense[i].passed <==> exists row :: row in rows && row.id == d.dense[i].id
    ensures d.params.sessionMode == (if Normal(inp.sessionMode) != "" then Normal(inp.sessionMode) else "all")
    ensures d.params.contentMode == (if Normal(inp.contentMode) != "" then Normal(inp.contentMode) else "auto")
  {
    var c := inp.dense[i];
    assert d.dense[i] == DenseRowOf(c, tn);
    GatedHasRow(inp, tn, rows, c);
  }

  lemma GatedHasRow(inp: Input, tn: Tuning.RuntimeTuning, rows: seq<FusionRow>, c: Candidate)
    requires IsRanking(inp.dense, inp.lexical, tn.semanticThreshold, tn.fusionLexicalWeight, rows)
    requires DistinctIds(inp.dense) && c in inp.dense
    ensures c.semantic >= tn.semanticThreshold <==> exists row :: row in rows && row.id == c.id
  {
    SemanticOfDistinct(inp.dense, tn.semanticThreshold, c.id, c.semantic);
    if c.semantic >= tn.semanticThreshold {
      assert RowOf(inp.lexical, tn.fusionLexicalWeight, c.id, c.semantic) in rows;
    }
    if row :| row in rows && row.id == c.id {
      SemanticOfDistinct(inp.dense, tn.semanticThreshold, c.id, row.semantic);
      var e :| e in inp.dense && e.id == c.id && e.semantic == row.semantic;
    }
  }

  // ---- Which texts ----

  /** What the snippet of a chunk shows: in mode "full" the body, in mode "both" abstract and body each in its
      own field, and otherwise the abstract of a chunk that has one, saying whether there is more. */
  lemma SnippetShowsWhatWasAsked(id: nat, cb: ChunkBody, score: real, req: string)
    ensures var s := BuildSnippet(id, cb, score, ResolveContentMode(req, cb));
      && s.id == id && s.score == score && s.kind == cb.kind
      && (Normal(req) == "full" ==> s.text == cb.body && s.abs == "" && s.fullText == "")
      && (Normal(req) == "both" ==>
            && s.abs == cb.abs && s.fullText == cb.body && (s.fullAvailable <==> TrimSpace(cb.body) != "")
            && s.text == if TrimSpace(cb.abs) != "" then TrimSpace(cb.abs) else cb.body)
      && (Normal(req) != "full" && Normal(req) != "both" && TrimSpace(cb.abs) != "" ==>
            && s.text == cb.abs && s.abs == cb.abs && s.fullText == ""
            && (s.fullAvailable <==> TrimSpace(cb.body) != "" && TrimSpace(cb.body) != TrimSpace(cb.abs)))
      && (Normal(req) != "full" && Normal(req) != "both" && TrimSpace(cb.abs) == "" ==>
            s.text == cb.body && s.abs == "" && s.fullText == "" && !s.fullAvailable)
  {
  }

  lemma EstimateOfBoth(cb: ChunkBody, mode: string)
    requires Normal(mode) == "both"
    ensures 4 * EstimatedReturnTokens(cb, mode) <= |cb.abs| + |cb.body| + 8
  {
  }

  lemma EstimateOfOne(cb: ChunkBody, mode: string)
    requires Normal(mode) != "both"
    ensures var shown := if Normal(mode) != "full" && TrimSpace(cb.abs) != "" then cb.abs else cb.body;
      4 * EstimatedReturnTokens(cb, mode) <= |shown| + 4
  {
  }

  /** A token is charged for at most four runes shown, one more being allowed for each field. */
  lemma EstimateIsOfShownText(id: nat, cb: ChunkBody, score: real, req: string)
    ensures var mode := ResolveContentMode(req, cb);
      var s := BuildSnippet(id, cb, score, mode);
      var shown := if Normal(req) == "both" then |s.abs| + |s.fullText| else |s.text|;
      4 * EstimatedReturnTokens(cb, mode) <= shown + if Normal(req) == "both" then 8 else 4
  {
    var mode := ResolveContentMode(req, cb);
    ResolvedModeIsNormal(req, cb);
    SnippetShowsWhatWasAsked(id, cb, score, req);
    if Normal(mode) == "both" { EstimateOfBoth(cb, mode); } else { EstimateOfOne(cb, mode); }
  }
}
