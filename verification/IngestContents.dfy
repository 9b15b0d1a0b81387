/** What a client gets back, in terms of what it sent: the items of a request and their source text, legacy
    segments, deletions, and when two items count as the same content. */
module IngestContents {
  import opened Text
  import opened ChunkFormat
  import opened Store
  import opened Drafts
  import opened Ingest
  import opened IngestLaws

  // ---- Items and their source text ----

  /** The items as they were sent; abstract, kind and metadata at the top level make one item. */
  function SentItems(inp: Input): seq<IngestItem> {
    if inp.items != [] then inp.items else [IngestItem(inp.abs, inp.text, "", inp.kind, inp.metadata)]
  }

  /** The text an item stands for: its own body, else its text, else the shared source document. */
  function SentText(inp: Input, it: IngestItem): string {
    if TrimSpace(it.body) != "" then TrimSpace(it.body)
    else if TrimSpace(it.text) != "" then TrimSpace(it.text)
    else if inp.source.Some? then TrimSpace(inp.source.value.text)
    else ""
  }

  /** An item refers to the source document when there is one and it has no text of its own. */
  predicate UsesSource(inp: Input, it: IngestItem) {
    && TrimSpace(it.body) == "" && TrimSpace(it.text) == ""
    && inp.source.Some? && TrimSpace(inp.source.value.text) != ""
  }

  lemma ItemBody(it: IngestItem)
    ensures Blank(WorkOfItem(it).body) <==> TrimSpace(it.body) == "" && TrimSpace(it.text) == ""
    ensures var w := WorkOfItem(it);
      w.body == (if TrimSpace(it.body) != "" then TrimSpace(it.body) else TrimSpace(it.text))
      && w.abs == TrimSpace(it.abs) && w.kind == TrimSpace(it.kind) && w.metadata == it.metadata && w.source == None
  {
    TrimIsIdentityOnTrimmed(WorkOfItem(it).body);
  }

  predicate HasContent(it: IngestItem) {
    TrimSpace(it.abs) != "" || TrimSpace(it.body) != "" || TrimSpace(it.text) != ""
  }

  /** Collected work is that of the sent items which have an abstract or a text, in order. */
  function Substantial(items: seq<IngestItem>): seq<IngestItem> {
    if items == [] then []
    else
      var it := items[|items| - 1];
      var init := Substantial(items[..|items| - 1]);
      if TrimSpace(it.abs) == "" && TrimSpace(it.body) == "" && TrimSpace(it.text) == "" then init else init + [it]
  }

  lemma {:induction false} WorkIsOfSubstantial(items: seq<IngestItem>)
    ensures |WorkOfItems(items)| == |Substantial(items)|
    ensures forall i :: 0 <= i < |Substantial(items)| ==>
      Substantial(items)[i] in items && WorkOfItems(items)[i] == WorkOfItem(Substantial(items)[i])
    decreases |items|
  {
    if items != [] {
      WorkIsOfSubstantial(items[..|items| - 1]);
      ItemBody(items[|items| - 1]);
    }
  }

  lemma ExplicitWorkIsOfSent(inp: Input, w: WorkItem)
    requires w in ExplicitWork(inp)
    ensures exists it :: it in SentItems(inp) && w == WorkOfItem(it)
  {
    if inp.items != [] {
      WorkIsOfSubstantial(inp.items);
      var i :| 0 <= i < |ExplicitWork(inp)| && ExplicitWork(inp)[i] == w;
      assert Substantial(inp.items)[i] in SentItems(inp);
    } else {
      var it := IngestItem(inp.abs, inp.text, "", inp.kind, inp.metadata);
      TrimIsIdentityOnTrimmed("");
      assert it in SentItems(inp) && w == WorkOfItem(it);
    }
  }

  /** The id under which the request's source document is indexed. */
  function SourceId(t: Tables, inp: Input): Option<nat> {
    var k := DocKey(inp.vault, inp.user, Sha256(SourceText(inp)));
    if k in t.docIndex then Some(t.docIndex[k]) else None
  }

  /** Attaching links every item without a body, and no other, to the one source document. */
  lemma AttachLinksExactly(t: Tables, env: Env, inp: Input, work: seq<WorkItem>)
    requires Attach(t, env, inp, work).Some? && forall w :: w in work ==> w.source == None
    ensures var (t1, work1) := Attach(t, env, inp, work).value;
      && |work1| == |work|
      && (SourceText(inp) == "" ==> work1 == work && t1 == t)
      && (SourceText(inp) != "" ==> forall i :: 0 <= i < |work| ==>
            && (work1[i].source.Some? <==> Blank(work[i].body))
            && (Blank(work[i].body) ==>
                  && SourceId(t1, inp).Some?
                  && work1[i] == work[i].(source := SourceId(t1, inp), sourceText := SourceText(inp)))
            && (!Blank(work[i].body) ==> work1[i] == work[i]))
  {
    var (t1, work1) := Attach(t, env, inp, work).value;
    if SourceText(inp) != "" {
      forall i | 0 <= i < |work| ensures work[i] in work {}
      if !NeedsSource(work) {
        assert forall i :: 0 <= i < |work| ==> !Blank(work[i].body);
      }
    }
  }

  /** What reading the chunk of a sent item gives: the text it stands for, and its own fields. */
  function SentRead(env: Env, inp: Input, it: IngestItem, source: Option<nat>): Read {
    var structured := TrimSpace(it.abs) != "" || TrimSpace(it.kind) != "" || it.metadata != map[];
    Read(SentText(inp, it), TrimSpace(it.abs), TrimSpace(it.kind), it.metadata, source, if structured then 2 else 1,
         inp.user, env.model, SentSession(inp))
  }

  /** The session key as it was sent, or "default". */
  function SentSession(inp: Input): string {
    if TrimSpace(inp.sessionKey) != "" then TrimSpace(inp.sessionKey) else "default"
  }

  /** The one kind of sent item that is misread: only a text, which is itself the text of a v2 envelope. */
  predicate SentAmbiguous(env: Env, inp: Input, it: IngestItem) {
    && TrimSpace(it.abs) == "" && TrimSpace(it.kind) == "" && it.metadata == map[]
    && !UsesSource(inp, it) && DecodesAsV2(env.codec, SentText(inp, it))
  }

  /** Chunk id was stored for the item it, linked exactly when the item uses the source document, and reads
      back as the item exactly when it is not ambiguous. */
  predicate ReadsBackAsSent(t: Tables, env: Env, key: Dek, inp: Input, it: IngestItem, id: nat) {
    && id in t.chunks && t.chunks[id].kind == TrimSpace(it.kind) && t.chunks[id].metadata == it.metadata
    && (t.chunks[id].source.Some? <==> UsesSource(inp, it))
    && (GetChunkByID(t, env, key, inp.vault, id) == Some(SentRead(env, inp, it, t.chunks[id].source))
        <==> !SentAmbiguous(env, inp, it))
  }

  /** The work item w1 is the work of the sent item it, linked when that uses the source document. */
  predicate WorkOfSent(inp: Input, it: IngestItem, w1: WorkItem) {
    var w := WorkOfItem(it);
    if UsesSource(inp, it) then w1.source.Some? && w1 == w.(source := w1.source, sourceText := SourceText(inp))
    else w1 == w
  }

  lemma AttachedIsOfSent(t: Tables, env: Env, inp: Input, w1: WorkItem)
    requires ExplicitWork(inp) != [] && Attach(t, env, inp, ExplicitWork(inp)).Some? && w1 in ItemsOf(t, env, inp)
    ensures exists it :: it in SentItems(inp) && WorkOfSent(inp, it, w1)
  {
    var work := ExplicitWork(inp);
    ExplicitWorkIsTidy(inp);
    AttachLinksExactly(t, env, inp, work);
    var i :| 0 <= i < |ItemsOf(t, env, inp)| && ItemsOf(t, env, inp)[i] == w1;
    assert work[i] in work;
    ExplicitWorkIsOfSent(inp, work[i]);
    var it :| it in SentItems(inp) && work[i] == WorkOfItem(it);
    ItemBody(it);
    assert WorkOfSent(inp, it, w1);
  }

  lemma SentReadIsExpected(env: Env, inp: Input, it: IngestItem, w1: WorkItem)
    requires WorkOfSent(inp, it, w1) && !BlankItem(w1)
    ensures Expected(env, inp, w1) == SentRead(env, inp, it, w1.source)
    ensures Ambiguous(env, w1) <==> SentAmbiguous(env, inp, it)
  {
    ItemBody(it);
    TrimIsIdentityOnTrimmed(TrimSpace(it.abs));
    TrimIsIdentityOnTrimmed(TrimSpace(it.kind));
  }

  /** Write, then read, from end to end: every id that a structured request returns is of one of the items it
      sent, and reads back as that item, exactly when the item is not ambiguous: with its own trimmed text,
      or the trimmed source text when it has none. */
  lemma SentItemsReadBack(t: Tables, env: Env, inp: Input, size: int, overlap: int, key: Dek, id: nat)
    requires Inv(t, key) && EnvOk(env, key) && Lawful(env.codec)
    requires ExplicitWork(inp) != [] && id in Run(t, env, inp, size, overlap).ids
    ensures exists it :: it in SentItems(inp)
                         && ReadsBackAsSent(Run(t, env, inp, size, overlap).tables, env, key, inp, it, id)
  {
    var t1 := Run(t, env, inp, size, overlap).tables;
    RequestReadsBack(t, env, inp, size, overlap, key, id);
    var w1 :| w1 in ItemsOf(t, env, inp) && ReadsBackAs(t1, env, key, inp, w1, id);
    AttachedIsOfSent(t, env, inp, w1);
    var it :| it in SentItems(inp) && WorkOfSent(inp, it, w1);
    SentReadIsExpected(env, inp, it, w1);
    ItemBody(it);
    assert ReadsBackAsSent(t1, env, key, inp, it, id);
  }

  lemma {:induction false} SubstantialHas(items: seq<IngestItem>, it: IngestItem)
    requires it in items && HasContent(it)
    ensures it in Substantial(items)
    decreases |items|
  {
    if it != items[|items| - 1] { SubstantialHas(items[..|items| - 1], it); }
  }

  lemma SentHasWork(inp: Input, it: IngestItem)
    requires ExplicitWork(inp) != [] && it in SentItems(inp)
    requires HasContent(it)
    ensures WorkOfItem(it) in ExplicitWork(inp)
  {
    if inp.items != [] {
      SubstantialHas(inp.items, it);
      WorkIsOfSubstantial(inp.items);
    } else {
      TrimIsIdentityOnTrimmed("");
    }
  }

  lemma SentHasAttached(t: Tables, env: Env, inp: Input, it: IngestItem) returns (w1: WorkItem)
    requires ExplicitWork(inp) != [] && Attach(t, env, inp, ExplicitWork(inp)).Some? && it in SentItems(inp)
    requires HasContent(it)
    ensures w1 in ItemsOf(t, env, inp) && WorkOfSent(inp, it, w1) && !BlankItem(w1)
  {
    var work := ExplicitWork(inp);
    SentHasWork(inp, it);
    ExplicitWorkIsTidy(inp);
    AttachLinksExactly(t, env, inp, work);
    var i :| 0 <= i < |work| && work[i] == WorkOfItem(it);
    w1 := ItemsOf(t, env, inp)[i];
    ItemBody(it);
    TrimIsIdentityOnTrimmed(TrimSpace(it.abs));
  }

  /** No item is lost: after a successful structured request the content key of every sent item that has an
      abstract or a text is live. */
  lemma EverySentItemIsLive(t: Tables, env: Env, inp: Input, size: int, overlap: int, key: Dek, it: IngestItem)
    requires Inv(t, key) && EnvOk(env, key) && Run(t, env, inp, size, overlap).ok
    requires ExplicitWork(inp) != [] && it in SentItems(inp)
    requires HasContent(it)
    ensures exists w1 :: WorkOfSent(inp, it, w1)
              && LiveKey(Run(t, env, inp, size, overlap).tables, inp.vault, inp.user, ContentDedupKey(w1))
  {
    RequestCountsNewKeys(t, env, inp, size, overlap, key);
    var w1 := SentHasAttached(t, env, inp, it);
    assert ContentDedupKey(w1) in KeysOfRequest(t, env, inp, size, overlap);
    LiveHashesAre(Run(t, env, inp, size, overlap).tables, inp.vault, inp.user, ContentDedupKey(w1));
  }

  /** The item of an extracted fact: the fact is its body when the client asked for bodies, else its abstract. */
  predicate ItemOfFact(inp: Input, f: string, w: WorkItem) {
    && w.kind == TrimSpace(inp.kind) && w.metadata == inp.metadata && w.source == None
    && (if Normal(inp.inferTarget) == "body" then w.body == TrimSpace(f) && w.abs == ""
        else w.abs == TrimSpace(f) && w.body == "")
  }

  lemma FirstFactHasItem(inp: Input, facts: seq<string>)
    requires facts != [] && TrimSpace(facts[0]) != ""
    ensures InferredWork(inp, facts) != [] && ItemOfFact(inp, facts[0], InferredWork(inp, facts)[0])
    ensures InferredWork(inp, facts)[1..] == InferredWork(inp, facts[1..])
  {
  }

  /** The items of an inferred request are those of its facts that are not blank. */
  lemma {:induction false} InferredItemHasFact(inp: Input, facts: seq<string>, w: WorkItem)
    requires w in InferredWork(inp, facts)
    ensures exists f :: f in facts && TrimSpace(f) != "" && ItemOfFact(inp, f, w)
    decreases |facts|
  {
    if TrimSpace(facts[0]) != "" { FirstFactHasItem(inp, facts); }
    if w in InferredWork(inp, facts[1..]) {
      InferredItemHasFact(inp, facts[1..], w);
      var f :| f in facts[1..] && TrimSpace(f) != "" && ItemOfFact(inp, f, w);
      assert f in facts;
    } else {
      assert facts[0] in facts;
    }
  }

  lemma {:induction false} FactHasInferredItem(inp: Input, facts: seq<string>, f: string)
    requires f in facts && TrimSpace(f) != ""
    ensures exists w :: w in InferredWork(inp, facts) && ItemOfFact(inp, f, w)
    decreases |facts|
  {
    if TrimSpace(facts[0]) != "" { FirstFactHasItem(inp, facts); }
    if f == facts[0] {
      assert InferredWork(inp, facts)[0] in InferredWork(inp, facts);
    } else {
      FactHasInferredItem(inp, facts[1..], f);
      var w :| w in InferredWork(inp, facts[1..]) && ItemOfFact(inp, f, w);
      assert w in InferredWork(inp, facts);
    }
  }

  // ---- Legacy segments ----

  lemma {:induction false} TextDraftsAreOfSegments(env: Env, inp: Input, segs: seq<string>, d: Draft)
    requires d in TextDrafts(env, inp, segs)
    ensures exists f :: f in segs && !Blank(f) && d == DraftOfText(env, inp, TrimSpace(f))
    decreases |segs|
  {
    if !Blank(segs[0]) && d == DraftOfText(env, inp, TrimSpace(segs[0])) {
      assert segs[0] in segs;
    } else {
      TextDraftsAreOfSegments(env, inp, segs[1..], d);
      var f :| f in segs[1..] && !Blank(f) && d == DraftOfText(env, inp, TrimSpace(f));
      assert f in segs;
    }
  }

  /** Every id that a legacy request returns holds the trimmed text of one of its segments, under the key of the
      lowered text, and reads back as that text exactly when it is not the text of an envelope. */
  lemma SegmentsReadBack(t: Tables, env: Env, inp: Input, size: int, overlap: int, key: Dek, id: nat)
    requires Inv(t, key) && EnvOk(env, key) && Lawful(env.codec)
    requires ExplicitWork(inp) == [] && !inp.infer && id in Run(t, env, inp, size, overlap).ids
    ensures var t1 := Run(t, env, inp, size, overlap).tables;
      exists f :: f in SegmentsOf(inp, size, overlap) && !Blank(f)
        && id in t1.chunks && OpenPayload(t1.chunks[id].payload, key) == Some(TrimSpace(f))
        && t1.chunks[id].hash == Sha256(ToLower(TrimSpace(f)))
        && (GetChunkByID(t1, env, key, inp.vault, id)
            == Some(Read(TrimSpace(f), "", "", map[], None, 1, inp.user, env.model, SentSession(inp)))
            <==> !DecodesAsV2(env.codec, TrimSpace(f)))
  {
    var segs := SegmentsOf(inp, size, overlap);
    var ds := TextDrafts(env, inp, segs);
    var r := IngestDrafts(t, env, ds, {});
    assert Run(t, env, inp, size, overlap) == r by { RunOfPlan(t, env, inp, size, overlap); }
    ReturnsStoredRows(t, env, ds, {});
    assert StoredFrom(r.tables, ds, id);
    var d :| d in ds && r.tables.chunks[id] == d.row;
    TextDraftsAreOfSegments(env, inp, segs, d);
    var f :| f in segs && !Blank(f) && d == DraftOfText(env, inp, TrimSpace(f));
    TrimIsIdentityOnTrimmed(TrimSpace(f));
    SealOpens(env, key, TrimSpace(f));
    TextSegmentReadsBack(r.tables, env, key, inp, TrimSpace(f), id);
  }

  // ---- Reads ----

  /** A read succeeds only for a chunk of the vault that was asked for and that is not deleted. */
  lemma ReadNeedsLiveChunk(t: Tables, env: Env, dek: Dek, vault: nat, id: nat)
    requires GetChunkByID(t, env, dek, vault, id).Some?
    ensures id in t.chunks && t.chunks[id].vault == vault && !t.chunks[id].deleted
    ensures env.encryption ==> dek != NO_KEY
  {
  }

  /** A sealed chunk is read with the key it was sealed with and with no other. */
  lemma OnlyItsKeyReads(t: Tables, env: Env, dek: Dek, vault: nat, id: nat)
    requires id in t.chunks && t.chunks[id].payload.Sealed? && GetChunkByID(t, env, dek, vault, id).Some?
    ensures dek == t.chunks[id].payload.key && dek != NO_KEY
  {
  }

  // ---- What is indexed ----

  function Joined(a: string, b: string): string {
    if a == "" then b else if b == "" then a else a + "\n\n" + b
  }

  /** The text of an item as far as it is indexed: a source document by its first 2000 runes. */
  function IndexedText(inp: Input, it: IngestItem): string {
    if UsesSource(inp, it) then ExcerptRunes(SentText(inp, it), 2000) else SentText(inp, it)
  }

  /** Full-text search covers the abstract and the text of an item; the embedding is made of the abstract, or of
      the text of an item without one, and never of nothing. */
  lemma ItemIsIndexed(inp: Input, it: IngestItem, w1: WorkItem)
    requires WorkOfSent(inp, it, w1)
    ensures TsvOf(w1) == Joined(TrimSpace(it.abs), IndexedText(inp, it))
    ensures EmbedSourceOf(w1) == if TrimSpace(it.abs) != "" then TrimSpace(it.abs) else IndexedText(inp, it)
    ensures HasContent(it) ==> EmbedSourceOf(w1) != ""
  {
    ItemBody(it);
    TrimIsIdentityOnTrimmed(TrimSpace(it.abs));
    TrimIsIdentityOnTrimmed(w1.body);
  }

  /** cb is what the row's text parses as, completed by its columns and its source document. */
  predicate Completes(parsed: ChunkBody, c: ChunkRow, abs: string, text: string, kind: string, metadata: Metadata) {
    && abs == parsed.abs
    && kind == (if TrimSpace(parsed.kind) == "" && TrimSpace(c.kind) != "" then c.kind else parsed.kind)
    && metadata == parsed.metadata + c.metadata
    && (text == parsed.body || (TrimSpace(parsed.body) == "" && c.source.Some?))
  }

  lemma BodyIsCompleted(t: Tables, codec: Codec, dek: Dek, c: ChunkRow)
    requires PayloadToBody(t, codec, dek, c).Some?
    ensures OpenPayload(c.payload, dek).Some?
    ensures var cb := PayloadToBody(t, codec, dek, c).value;
      Completes(ParseChunkPlaintext(codec, OpenPayload(c.payload, dek).value), c, cb.abs, cb.body, cb.kind, cb.metadata)
  {
  }

  /** A row whose text lacks a kind is completed by the column, and the metadata columns win over the text's. */
  lemma ColumnsCompleteTheText(t: Tables, env: Env, dek: Dek, vault: nat, id: nat)
    requires GetChunkByID(t, env, dek, vault, id).Some?
    ensures id in t.chunks && OpenPayload(t.chunks[id].payload, dek).Some?
    ensures var r, c := GetChunkByID(t, env, dek, vault, id).value, t.chunks[id];
      Completes(ParseChunkPlaintext(env.codec, OpenPayload(c.payload, dek).value), c, r.abs, r.text, r.kind, r.metadata)
  {
    BodyIsCompleted(t, env.codec, dek, t.chunks[id]);
  }

  // ---- Which ids are returned ----

  lemma {:induction false} DraftIdsAreTheNewChunks(t: Tables, env: Env, ds: seq<Draft>, seen: set<Digest>, id: nat)
    requires Below(t)
    ensures var r := IngestDrafts(t, env, ds, seen); id in r.ids <==> id in r.tables.chunks && id !in t.chunks
    decreases |ds|
  {
    ReturnsStoredRows(t, env, ds, seen);
    if ds != [] {
      var h := ds[0].row.hash;
      DraftIdsAreTheNewChunks(t, env, ds[1..], seen, id);
      DraftIdsAreTheNewChunks(t, env, ds[1..], seen + {h}, id);
      DraftIdsAreTheNewChunks(WithChunk(t, ds[0].row), env, ds[1..], seen + {h}, id);
      ReturnsStoredRows(WithChunk(t, ds[0].row), env, ds[1..], seen + {h});
    }
  }

  /** A request returns the ids of exactly the chunks it has stored, also when it stops half-way; but a failing
      infer request returns none. */
  lemma IdsAreTheNewChunks(t: Tables, env: Env, inp: Input, size: int, overlap: int, id: nat)
    requires Below(t)
    ensures var r := Run(t, env, inp, size, overlap);
      if !r.ok && inp.infer && ExplicitWork(inp) == [] then r.ids == []
      else id in r.ids <==> id in r.tables.chunks && id !in t.chunks
  {
    RunOfPlan(t, env, inp, size, overlap);
    var p := Plan(t, env, inp, size, overlap);
    if p.Some? {
      PlanOnlyAdds(t, env, inp, size, overlap);
      PlanKeepsChunks(t, env, inp, size, overlap);
      DraftIdsAreTheNewChunks(p.value.0, env, p.value.1, {}, id);
    }
  }

  lemma AttachKeepsChunks(t: Tables, env: Env, inp: Input, work: seq<WorkItem>)
    requires Attach(t, env, inp, work).Some?
    ensures Attach(t, env, inp, work).value.0.chunks == t.chunks
  {
    var full := SourceText(inp);
    if full != "" && NeedsSource(work) {
      assert Upsert(t, env, inp, full, TrimSpace(inp.source.value.title)).value.0.chunks == t.chunks;
    }
  }

  lemma PlanKeepsChunks(t: Tables, env: Env, inp: Input, size: int, overlap: int)
    requires Plan(t, env, inp, size, overlap).Some?
    ensures Plan(t, env, inp, size, overlap).value.0.chunks == t.chunks
  {
    if ExplicitWork(inp) != [] { AttachKeepsChunks(t, env, inp, ExplicitWork(inp)); }
  }

  // ---- Which path, and when it succeeds ----

  /** A request is structured when one of its items has an abstract or a text, or, without items, when it has
      an abstract, a kind or metadata at the top level. */
  lemma StructuredIff(inp: Input)
    ensures ExplicitWork(inp) != [] <==>
      if inp.items != [] then
        exists it :: it in inp.items && HasContent(it)
      else TrimSpace(inp.abs) != "" || TrimSpace(inp.kind) != "" || inp.metadata != map[]
  {
    if inp.items != [] {
      WorkIsOfSubstantial(inp.items);
      SubstantialIsSubstantial(inp.items);
      if Substantial(inp.items) != [] { assert Substantial(inp.items)[0] in Substantial(inp.items); }
      forall it | it in inp.items && HasContent(it) ensures Substantial(inp.items) != [] {
        SubstantialHas(inp.items, it);
      }
    }
  }

  lemma {:induction false} SubstantialIsSubstantial(items: seq<IngestItem>)
    ensures forall it :: it in Substantial(items) ==>
      it in items && HasContent(it)
    decreases |items|
  {
    if items != [] { SubstantialIsSubstantial(items[..|items| - 1]); }
  }

  /** Attaching fails exactly when a source document is needed and is too large, or cannot be looked up, or is
      new and cannot be inserted. */
  lemma AttachFailsIff(t: Tables, env: Env, inp: Input, work: seq<WorkItem>)
    ensures Attach(t, env, inp, work).None? <==>
      && SourceText(inp) != "" && NeedsSource(work)
      && ((env.maxBodyBytes > 0 && Utf8Len(SourceText(inp)) > env.maxBodyBytes)
          || !env.lookupOk(Sha256(SourceText(inp)))
          || (SourceId(t, inp) == None && !env.insertOk(t.nextId)))
  {
  }

  /** A new source document is stored with the trimmed title, if that is not empty, and its text. */
  lemma NewDocumentIsStored(t: Tables, env: Env, inp: Input, work: seq<WorkItem>)
    requires Attach(t, env, inp, work).Some? && SourceText(inp) != "" && NeedsSource(work) && SourceId(t, inp) == None
    ensures var t1 := Attach(t, env, inp, work).value.0;
      && SourceId(t1, inp) == Some(t.nextId) && t.nextId in t1.docs
      && var d := t1.docs[t.nextId]; var title := TrimSpace(inp.source.value.title);
         && d.vault == inp.vault && d.user == inp.user
         && d.title == (if title != "" then Some(title) else None)
         && (!env.encryption || env.dek != NO_KEY ==> OpenPayload(d.payload, env.dek) == Some(SourceText(inp)))
  {
  }

  /** Everything works: no provider or store call fails, and no size limit applies. */
  ghost predicate AllWorks(env: Env) {
    && (forall s :: env.embedOk(s)) && (forall h :: env.checkOk(h)) && (forall h :: env.lookupOk(h))
    && (forall id :: env.insertOk(id)) && env.maxBodyBytes <= 0 && (env.encryption ==> env.dek != NO_KEY)
  }

  lemma {:induction false} DraftsSucceed(t: Tables, env: Env, ds: seq<Draft>, seen: set<Digest>)
    requires AllWorks(env)
    ensures IngestDrafts(t, env, ds, seen).ok
    decreases |ds|
  {
    if ds != [] {
      var h := ds[0].row.hash;
      DraftsSucceed(t, env, ds[1..], seen);
      DraftsSucceed(t, env, ds[1..], seen + {h});
      DraftsSucceed(WithChunk(t, ds[0].row), env, ds[1..], seen + {h});
    }
  }

  /** When everything works every request succeeds. */
  lemma RequestSucceeds(t: Tables, env: Env, inp: Input, size: int, overlap: int)
    requires AllWorks(env)
    ensures Run(t, env, inp, size, overlap).ok
  {
    AttachFailsIff(t, env, inp, ExplicitWork(inp));
    var p := Plan(t, env, inp, size, overlap);
    DraftsSucceed(p.value.0, env, p.value.1, {});
  }

  /** Without its key an encrypted deployment stores nothing. */
  lemma LockedStoresNothing(t: Tables, env: Env, inp: Input, size: int, overlap: int)
    requires env.encryption && env.dek == NO_KEY
    ensures Run(t, env, inp, size, overlap) == Ingested(t, [], false)
  {
  }

  /** What is inserted fits the size limit, was embedded, and was checked and inserted without a failure. */
  predicate WasStorable(env: Env, ds: seq<Draft>, row: ChunkRow) {
    exists d :: d in ds && d.row == row && env.embedOk(d.embedSrc) && env.checkOk(row.hash)
      && (env.maxBodyBytes > 0 ==> Utf8Len(d.plain) <= env.maxBodyBytes)
  }

  lemma {:induction false} StoredWasStorable(
      t: Tables, env: Env, ds: seq<Draft>, seen: set<Digest>, all: seq<Draft>, id: nat)
    requires Below(t) && (forall d :: d in ds ==> d in all) && id in IngestDrafts(t, env, ds, seen).ids
    ensures var t' := IngestDrafts(t, env, ds, seen).tables;
      id in t'.chunks && env.insertOk(id) && WasStorable(env, all, t'.chunks[id])
    decreases |ds|
  {
    var d, h := ds[0], ds[0].row.hash;
    assert d in ds;
    if h in seen {
      StoredWasStorable(t, env, ds[1..], seen, all, id);
    } else if Exists(t, d) {
      StoredWasStorable(t, env, ds[1..], seen + {h}, all, id);
    } else {
      var t1 := WithChunk(t, d.row);
      if id == t.nextId {
        ReturnsStoredRows(t1, env, ds[1..], seen + {h});
        assert t1.chunks[id] == d.row && WasStorable(env, all, d.row);
      } else {
        StoredWasStorable(t1, env, ds[1..], seen + {h}, all, id);
      }
    }
  }

  lemma {:induction false} Utf8LenBounds(s: string)
    ensures |s| <= Utf8Len(s) <= 4 * |s|
    ensures (forall i :: 0 <= i < |s| ==> s[i] as int < 0x80) ==> Utf8Len(s) == |s|
    decreases |s|
  {
    if s != "" { Utf8LenBounds(s[1..]); }
  }

  // ---- Sealing ----

  predicate SealedWith(p: Payload, key: Dek) {
    p.Sealed? && p.key == key
  }

  /** No chunk and no document is stored in the clear. */
  predicate AllSealed(t: Tables, key: Dek) {
    && (forall id :: id in t.chunks ==> SealedWith(t.chunks[id].payload, key))
    && (forall id :: id in t.docs ==> SealedWith(t.docs[id].payload, key))
  }

  lemma {:induction false} DraftsKeepSealed(t: Tables, env: Env, ds: seq<Draft>, seen: set<Digest>, key: Dek)
    requires AllSealed(t, key) && forall d :: d in ds ==> SealedWith(d.row.payload, key)
    ensures AllSealed(IngestDrafts(t, env, ds, seen).tables, key)
    decreases |ds|
  {
    if ds != [] {
      var h := ds[0].row.hash;
      assert ds[0] in ds;
      DraftsKeepSealed(t, env, ds[1..], seen, key);
      DraftsKeepSealed(t, env, ds[1..], seen + {h}, key);
      DraftsKeepSealed(WithChunk(t, ds[0].row), env, ds[1..], seen + {h}, key);
    }
  }

  lemma AttachIsSealed(t: Tables, env: Env, inp: Input, work: seq<WorkItem>)
    requires env.encryption && AllSealed(t, env.dek) && Attach(t, env, inp, work).Some?
    ensures AllSealed(Attach(t, env, inp, work).value.0, env.dek)
  {
    var full := SourceText(inp);
    if full != "" && NeedsSource(work) {
      assert AllSealed(Upsert(t, env, inp, full, TrimSpace(inp.source.value.title)).value.0, env.dek);
    }
  }

  lemma PlanIsSealed(t: Tables, env: Env, inp: Input, size: int, overlap: int)
    requires env.encryption && AllSealed(t, env.dek) && Plan(t, env, inp, size, overlap).Some?
    ensures var (t1, ds) := Plan(t, env, inp, size, overlap).value;
      AllSealed(t1, env.dek) && forall d :: d in ds ==> SealedWith(d.row.payload, env.dek)
  {
    var (t1, ds) := Plan(t, env, inp, size, overlap).value;
    if ExplicitWork(inp) != [] { AttachIsSealed(t, env, inp, ExplicitWork(inp)); }
    forall d | d in ds ensures SealedWith(d.row.payload, env.dek) {
      if ExplicitWork(inp) != [] || inp.infer {
        WorkDraftsAreOfWork(env, inp, ItemsOf(t, env, inp));
      } else {
        TextDraftsAreOfSegments(env, inp, SegmentsOf(inp, size, overlap), d);
      }
    }
  }

  lemma RequestIsSealed(t: Tables, env: Env, inp: Input, size: int, overlap: int)
    requires env.encryption && AllSealed(t, env.dek)
    ensures AllSealed(Run(t, env, inp, size, overlap).tables, env.dek)
  {
    RunOfPlan(t, env, inp, size, overlap);
    var p := Plan(t, env, inp, size, overlap);
    if p.Some? {
      PlanIsSealed(t, env, inp, size, overlap);
      DraftsKeepSealed(p.value.0, env, p.value.1, {}, env.dek);
    }
  }

  /** On an encrypted deployment every payload that any run stores is sealed with the vault's key. */
  lemma {:induction false} RunsAreSealed(t: Tables, ops: seq<Op>, key: Dek)
    requires AllSealed(t, key)
    requires forall i :: 0 <= i < |ops| && ops[i].OpIngest? ==> ops[i].env.encryption && ops[i].env.dek == key
    ensures AllSealed(ApplyAll(t, ops), key)
    decreases |ops|
  {
    if ops != [] {
      if ops[0].OpIngest? { RequestIsSealed(t, ops[0].env, ops[0].inp, ops[0].size, ops[0].overlap); }
      RunsAreSealed(Apply(t, ops[0]), ops[1..], key);
    }
  }

  // ---- Deletions ----

  predicate IsDeleted(t: Tables, id: nat) {
    id in t.chunks && t.chunks[id].deleted && id < t.nextId
  }

  lemma {:induction false} StaysDeleted(t: Tables, ops: seq<Op>, id: nat)
    requires Below(t) && IsDeleted(t, id)
    ensures IsDeleted(ApplyAll(t, ops), id)
    decreases |ops|
  {
    if ops != [] {
      match ops[0] {
        case OpIngest(env, inp, size, overlap) => RequestOnlyAdds(t, env, inp, size, overlap);
        case OpDelete(_, _, _) =>
      }
      StaysDeleted(Apply(t, ops[0]), ops[1..], id);
    }
  }

  /** A deleted chunk is gone: after an accepted delete and any later run, no vault reads it and no further
      delete finds it. The delete touches nothing else, and takes the embedding along when that works. */
  lemma DeletedIsGone(
      t: Tables, vault: nat, id: nat, embeddingOk: bool, ops: seq<Op>, env: Env, dek: Dek, reader: nat)
    requires Below(t) && id in t.chunks && t.chunks[id].vault == vault && !t.chunks[id].deleted
    ensures var t1 := Apply(t, OpDelete(vault, id, embeddingOk));
      && t1.chunks == t.chunks[id := t.chunks[id].(deleted := true)]
      && (embeddingOk ==> t1.embeddings == t.embeddings - {id})
      && (!embeddingOk ==> t1.embeddings == t.embeddings)
    ensures var t2 := ApplyAll(Apply(t, OpDelete(vault, id, embeddingOk)), ops);
      GetChunkByID(t2, env, dek, reader, id) == None && !Deletable(t2, reader, id)
  {
    StaysDeleted(Apply(t, OpDelete(vault, id, embeddingOk)), ops, id);
  }

  /** A delete for another vault, of an unknown chunk or of one already deleted, changes nothing. */
  lemma RefusedDeleteChangesNothing(t: Tables, vault: nat, id: nat, embeddingOk: bool)
    requires id !in t.chunks || t.chunks[id].vault != vault || t.chunks[id].deleted
    ensures Apply(t, OpDelete(vault, id, embeddingOk)) == t
  {
  }

  /** Content that was deleted can be stored again: its key is no longer live. */
  lemma DeletedKeyIsFree(t: Tables, key: Dek, id: nat, embeddingOk: bool)
    requires Inv(t, key) && id in t.chunks && !t.chunks[id].deleted
    ensures var c := t.chunks[id];
      LiveKey(t, c.vault, c.user, c.hash) && !LiveKey(WithDeleted(t, id, embeddingOk), c.vault, c.user, c.hash)
  {
    var c, t1 := t.chunks[id], WithDeleted(t, id, embeddingOk);
    assert IsLive(t.chunks[id], c.vault, c.user, c.hash);
    assert forall i :: i in t.chunks && i != id ==> !SameLiveKey(t.chunks[i], t.chunks[id]);
    assert forall i :: i in t1.chunks && i != id ==> t1.chunks[i] == t.chunks[i];
  }

  // ---- When two items are the same content ----

  predicate NoNewline(s: string) {
    forall i :: 0 <= i < |s| ==> s[i] != '\n'
  }

  /** The third field of a content key: the source document's id, or the body. */
  function KeyTail(w: WorkItem): string {
    if w.source.Some? then IdText(w.source.value) else Normal(w.body)
  }

  lemma NewlineAfter(a: string, x: string)
    requires NoNewline(a)
    ensures FirstNewline(a + "\n" + x, |a|)
  {
  }

  predicate FirstNewline(s: string, i: nat) {
    i < |s| && s[i] == '\n' && forall j :: 0 <= j < i ==> s[j] != '\n'
  }

  lemma FirstNewlineIsOne(s: string, i: nat, j: nat)
    requires FirstNewline(s, i) && FirstNewline(s, j)
    ensures i == j
  {
  }

  lemma SplitAtNewline(a: string, b: string, x: string, y: string)
    requires NoNewline(a) && NoNewline(b) && a + "\n" + x == b + "\n" + y
    ensures a == b && x == y
  {
    var s, r := a + "\n" + x, b + "\n" + y;
    NewlineAfter(a, x);
    NewlineAfter(b, y);
    FirstNewlineIsOne(s, |a|, |b|);
    assert a == s[..|a|] && b == r[..|b|];
    assert x == s[|a| + 1..] && y == r[|b| + 1..];
  }

  lemma SameJoinIff(k1: string, a1: string, t1: string, k2: string, a2: string, t2: string)
    requires NoNewline(k1) && NoNewline(k2) && NoNewline(a1) && NoNewline(a2)
    ensures k1 + "\n" + (a1 + "\n" + t1) == k2 + "\n" + (a2 + "\n" + t2) <==> k1 == k2 && a1 == a2 && t1 == t2
  {
    if k1 + "\n" + (a1 + "\n" + t1) == k2 + "\n" + (a2 + "\n" + t2) {
      SplitAtNewline(k1, k2, a1 + "\n" + t1, a2 + "\n" + t2);
      SplitAtNewline(a1, a2, t1, t2);
    }
  }

  lemma KeyIsJoined(w: WorkItem)
    ensures ContentDedupKey(w) == Sha256(Normal(w.kind) + "\n" + (Normal(w.abs) + "\n" + KeyTail(w)))
  {
    var k, a, t := Normal(w.kind), Normal(w.abs), KeyTail(w);
    assert k + "\n" + a + "\n" + t == k + "\n" + (a + "\n" + t);
  }

  /** As long as kinds and abstracts have no newline in them, two items have the same content key exactly when
      they agree, up to case and outer space, on kind, abstract, and body or source document. */
  lemma SameKeyIff(v: WorkItem, w: WorkItem)
    requires NoNewline(Normal(v.kind)) && NoNewline(Normal(w.kind))
    requires NoNewline(Normal(v.abs)) && NoNewline(Normal(w.abs))
    ensures ContentDedupKey(v) == ContentDedupKey(w) <==>
            Normal(v.kind) == Normal(w.kind) && Normal(v.abs) == Normal(w.abs) && KeyTail(v) == KeyTail(w)
  {
    KeyIsJoined(v);
    KeyIsJoined(w);
    SameJoinIff(Normal(v.kind), Normal(v.abs), KeyTail(v), Normal(w.kind), Normal(w.abs), KeyTail(w));
  }

  lemma {:induction false} IdTextIsInjective(m: nat, n: nat)
    requires IdText(m) == IdText(n)
    ensures m == n
    decreases m
  {
    IdTextNotEmpty(m / 10);
    IdTextNotEmpty(n / 10);
    var s := IdText(m);
    assert s[|s| - 1] == ('0' as int + m % 10) as char == ('0' as int + n % 10) as char;
    assert (m < 10 <==> |IdText(m)| == 1) && (n < 10 <==> |IdText(n)| == 1);
    if m >= 10 {
      assert IdText(m)[..|s| - 1] == IdText(m / 10) && IdText(n)[..|s| - 1] == IdText(n / 10);
      IdTextIsInjective(m / 10, n / 10);
    }
  }

  lemma IdTextNotEmpty(n: nat)
    ensures IdText(n) != ""
  {
  }

  lemma CollidingFieldsAreNormal()
    ensures Normal("a\nb") == "a\nb" && Normal("b\nc") == "b\nc"
    ensures Normal("a") == "a" && Normal("c") == "c" && Normal("") == ""
  {
    AlreadyNormal("a\nb");
    AlreadyNormal("b\nc");
    AlreadyNormal("a");
    AlreadyNormal("c");
    AlreadyNormal("");
  }

  /** With a newline in an abstract different items can share a key, and the second is dropped as a duplicate. */
  lemma KeysMayCollide()
    ensures var v := WorkItem("a\nb", "c", "", map[], None, "");
      var w := WorkItem("a", "b\nc", "", map[], None, "");
      v.abs != w.abs && v.body != w.body && ContentDedupKey(v) == ContentDedupKey(w)
  {
    CollidingFieldsAreNormal();
    assert "" + "\n" + "a\nb" + "\n" + "c" == "" + "\n" + "a" + "\n" + "b\nc";
  }
}
