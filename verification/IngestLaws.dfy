/** What holds of whole ingest requests, of reading a chunk back, and of every run of requests and deletions. */
module IngestLaws {
  import opened Text
  import opened ChunkFormat
  import opened Store
  import opened Drafts
  import opened Ingest

  /** The data key of the vault is the one the request carries (Daemon.AuthorizedCarriesVaultKey). */
  predicate EnvOk(env: Env, key: Dek) {
    env.encryption ==> env.dek == key && key != NO_KEY
  }

  lemma SealOpens(env: Env, key: Dek, text: string)
    requires EnvOk(env, key)
    ensures OpenPayload(Seal(env, text), key) == Some(text)
  {
  }

  // ---- Source documents ----

  /** The document of a linked work item is there and opens to the item's source text. */
  predicate WorkLinked(t: Tables, key: Dek, inp: Input, w: WorkItem) {
    w.source.Some? ==>
      && w.source.value in t.docs
      && t.docs[w.source.value].vault == inp.vault && t.docs[w.source.value].user == inp.user
      && OpenPayload(t.docs[w.source.value].payload, key) == Some(w.sourceText)
  }

  lemma UpsertGives(t: Tables, env: Env, inp: Input, text: string, title: string, key: Dek)
    requires Inv(t, key) && EnvOk(env, key) && Upsert(t, env, inp, text, title).Some?
    ensures var (t1, id) := Upsert(t, env, inp, text, title).value;
      && Inv(t1, key) && t1.chunks == t.chunks
      && DocKey(inp.vault, inp.user, Sha256(text)) in t1.docIndex
      && t1.docIndex[DocKey(inp.vault, inp.user, Sha256(text))] == id
      && id in t1.docs && t1.docs[id].vault == inp.vault && t1.docs[id].user == inp.user
      && OpenPayload(t1.docs[id].payload, key) == Some(text)
  {
    var k := DocKey(inp.vault, inp.user, Sha256(text));
    if k !in t.docIndex {
      SealOpens(env, key, text);
      DocKeepsInv(t, key, DocOf(env, inp, text, title));
    } else {
      assert DocOk(t.docs[t.docIndex[k]], k, key);
    }
  }

  /** w is v, possibly linked to the source document because it has no body of its own. */
  predicate LinkOf(w: WorkItem, v: WorkItem) {
    w == v || (Blank(v.body) && w == v.(source := w.source, sourceText := w.sourceText) && w.source.Some?)
  }

  lemma AttachGives(t: Tables, env: Env, inp: Input, work: seq<WorkItem>, key: Dek)
    requires Inv(t, key) && EnvOk(env, key) && Attach(t, env, inp, work).Some?
    requires forall w :: w in work ==> w.source == None
    ensures var (t1, work1) := Attach(t, env, inp, work).value;
      && Inv(t1, key) && t1.chunks == t.chunks
      && |work1| == |work|
      && forall i :: 0 <= i < |work| ==> WorkLinked(t1, key, inp, work1[i]) && LinkOf(work1[i], work[i])
  {
    var full := SourceText(inp);
    if full != "" && NeedsSource(work) {
      UpsertGives(t, env, inp, full, TrimSpace(inp.source.value.title), key);
    }
  }

  /** Every document that t indexes is still indexed under the same id. */
  predicate IndexKept(t: Tables, t': Tables) {
    forall k :: k in t.docIndex ==> k in t'.docIndex && t'.docIndex[k] == t.docIndex[k]
  }

  /** Attaching again finds the document of the first time and links the same items to it. */
  lemma AttachRepeats(t: Tables, env: Env, inp: Input, work: seq<WorkItem>, key: Dek, t': Tables)
    requires Inv(t, key) && EnvOk(env, key) && Attach(t, env, inp, work).Some?
    requires IndexKept(Attach(t, env, inp, work).value.0, t')
    ensures Attach(t', env, inp, work) == Some((t', Attach(t, env, inp, work).value.1))
  {
    var full := SourceText(inp);
    if full != "" && NeedsSource(work) {
      UpsertGives(t, env, inp, full, TrimSpace(inp.source.value.title), key);
    }
  }

  // ---- Plans ----

  lemma ExplicitWorkIsTidy(inp: Input)
    ensures forall w :: w in ExplicitWork(inp) ==> Tidy(w) && w.source == None
  {
    WorkOfItemsIsTidy(inp.items);
  }

  lemma PlanGives(t: Tables, env: Env, inp: Input, size: int, overlap: int, key: Dek)
    requires Inv(t, key) && EnvOk(env, key) && Plan(t, env, inp, size, overlap).Some?
    ensures var (t1, ds) := Plan(t, env, inp, size, overlap).value;
      && Inv(t1, key) && t1.chunks == t.chunks
      && ForUser(ds, inp.vault, inp.user)
      && forall d :: d in ds ==> LinkOk(t1, d.row)
  {
    var work := ExplicitWork(inp);
    if work != [] {
      ExplicitWorkIsTidy(inp);
      AttachGives(t, env, inp, work, key);
      var (t1, work1) := Attach(t, env, inp, work).value;
      WorkDraftsLink(t1, env, inp, work1, key);
    } else if inp.infer {
      InferredWorkIsTidy(inp, inp.facts);
      WorkDraftsLink(t, env, inp, InferredWork(inp, inp.facts), key);
    } else {
      TextDraftsForUser(env, inp, SegmentsOf(inp, size, overlap));
    }
  }

  lemma WorkDraftsLink(t: Tables, env: Env, inp: Input, work: seq<WorkItem>, key: Dek)
    requires forall w :: w in work ==> WorkLinked(t, key, inp, w)
    ensures ForUser(WorkDrafts(env, inp, work), inp.vault, inp.user)
    ensures forall d :: d in WorkDrafts(env, inp, work) ==> LinkOk(t, d.row)
  {
    WorkDraftsAreOfWork(env, inp, work);
    forall d | d in WorkDrafts(env, inp, work) ensures LinkOk(t, d.row) {
      var w :| w in work && !BlankItem(w) && d == DraftOfWork(env, inp, w);
      assert WorkLinked(t, key, inp, w);
    }
  }

  /** Every request keeps the table invariant, also when it fails half-way. */
  lemma RequestKeepsInv(t: Tables, env: Env, inp: Input, size: int, overlap: int, key: Dek)
    requires Inv(t, key) && EnvOk(env, key)
    ensures Inv(Run(t, env, inp, size, overlap).tables, key)
  {
    var p := Plan(t, env, inp, size, overlap);
    if p.Some? {
      PlanGives(t, env, inp, size, overlap, key);
      DraftsKeepInv(p.value.0, env, p.value.1, {}, key);
    }
  }

  // ---- Runs of requests and deletions ----

  datatype Op =
    | OpIngest(env: Env, inp: Input, size: int, overlap: int)
    | OpDelete(vault: nat, id: nat, embeddingOk: bool)

  function Apply(t: Tables, op: Op): Tables {
    match op
    case OpIngest(env, inp, size, overlap) => Run(t, env, inp, size, overlap).tables
    case OpDelete(vault, id, ok) => if Deletable(t, vault, id) then WithDeleted(t, id, ok) else t
  }

  function ApplyAll(t: Tables, ops: seq<Op>): Tables
    decreases |ops|
  {
    if ops == [] then t else ApplyAll(Apply(t, ops[0]), ops[1..])
  }

  predicate OnlyIngests(ops: seq<Op>) {
    forall i :: 0 <= i < |ops| ==> ops[i].OpIngest?
  }

  /** Documents, their index, and the rows of all chunks but those in gone stay as they are. */
  predicate AddsBut(t: Tables, t': Tables, gone: set<nat>) {
    && Below(t') && IndexKept(t, t')
    && (forall id :: id in t.docs ==> id in t'.docs && t'.docs[id] == t.docs[id])
    && (forall id :: id in t.chunks && id !in gone ==> id in t'.chunks && t'.chunks[id] == t.chunks[id])
  }

  predicate Adds(t: Tables, t': Tables) {
    AddsBut(t, t', {})
  }

  lemma NewDocOnlyAdds(t: Tables, d: DocRow)
    requires Below(t) && DocKey(d.vault, d.user, d.hash) !in t.docIndex
    ensures Adds(t, WithDoc(t, d))
  {
  }

  lemma UpsertOnlyAdds(t: Tables, env: Env, inp: Input, text: string, title: string)
    requires Below(t) && Upsert(t, env, inp, text, title).Some?
    ensures Adds(t, Upsert(t, env, inp, text, title).value.0)
  {
    if DocKey(inp.vault, inp.user, Sha256(text)) !in t.docIndex { NewDocOnlyAdds(t, DocOf(env, inp, text, title)); }
  }

  lemma AttachOnlyAdds(t: Tables, env: Env, inp: Input, work: seq<WorkItem>)
    requires Below(t) && Attach(t, env, inp, work).Some?
    ensures Adds(t, Attach(t, env, inp, work).value.0)
  {
    var full := SourceText(inp);
    if full != "" && NeedsSource(work) { UpsertOnlyAdds(t, env, inp, full, TrimSpace(inp.source.value.title)); }
  }

  lemma PlanOnlyAdds(t: Tables, env: Env, inp: Input, size: int, overlap: int)
    requires Below(t) && Plan(t, env, inp, size, overlap).Some?
    ensures Adds(t, Plan(t, env, inp, size, overlap).value.0)
  {
    if ExplicitWork(inp) != [] { AttachOnlyAdds(t, env, inp, ExplicitWork(inp)); }
  }

  /** The drafts of a plan decide what a request does; without a plan it does nothing. */
  lemma RunOfPlan(t: Tables, env: Env, inp: Input, size: int, overlap: int)
    ensures var r := Run(t, env, inp, size, overlap);
      var p := Plan(t, env, inp, size, overlap);
      || r == Ingested(t, [], false)
      || (p.Some? && var r0 := IngestDrafts(p.value.0, env, p.value.1, {});
            r.tables == r0.tables && r.ok == r0.ok && (r == r0 || (Infers(inp) && r.ids == [])))
  {
  }

  lemma RequestOnlyAdds(t: Tables, env: Env, inp: Input, size: int, overlap: int)
    requires Below(t)
    ensures Adds(t, Run(t, env, inp, size, overlap).tables)
  {
    var p := Plan(t, env, inp, size, overlap);
    RunOfPlan(t, env, inp, size, overlap);
    if p.Some? {
      PlanOnlyAdds(t, env, inp, size, overlap);
      ReturnsStoredRows(p.value.0, env, p.value.1, {});
    }
  }

  function Deleted(ops: seq<Op>): set<nat> {
    set i | 0 <= i < |ops| && ops[i].OpDelete? :: ops[i].id
  }

  /** A run changes no row but those of the chunks it deletes. */
  lemma {:induction false} RunsOnlyAdd(t: Tables, ops: seq<Op>)
    requires Below(t)
    ensures AddsBut(t, ApplyAll(t, ops), Deleted(ops))
    decreases |ops|
  {
    if ops != [] {
      var t1 := Apply(t, ops[0]);
      assert AddsBut(t, t1, Deleted(ops)) by {
        if ops[0].OpIngest? {
          RequestOnlyAdds(t, ops[0].env, ops[0].inp, ops[0].size, ops[0].overlap);
        } else {
          assert ops[0].id in Deleted(ops);
        }
      }
      RunsOnlyAdd(t1, ops[1..]);
      assert Deleted(ops[1..]) <= Deleted(ops) by {
        forall id | id in Deleted(ops[1..]) ensures id in Deleted(ops) {
          var i :| 0 <= i < |ops| - 1 && ops[1..][i].OpDelete? && ops[1..][i].id == id;
          assert ops[i + 1].OpDelete? && ops[i + 1].id == id;
        }
      }
    }
  }

  lemma IngestsOnlyAdd(t: Tables, ops: seq<Op>)
    requires Below(t) && OnlyIngests(ops)
    ensures Adds(t, ApplyAll(t, ops))
  {
    RunsOnlyAdd(t, ops);
    assert Deleted(ops) == {};
  }

  // ---- Counting and idempotence ----

  /** The items that a request stores: explicit ones with their source link, or extracted ones. */
  function ItemsOf(t: Tables, env: Env, inp: Input): seq<WorkItem> {
    var work := ExplicitWork(inp);
    if work != [] then (var a := Attach(t, env, inp, work); if a.None? then [] else a.value.1)
    else if inp.infer then InferredWork(inp, inp.facts)
    else []
  }

  /** The content keys of a request: those of its non-blank items, or of its non-blank trimmed segments. */
  function KeysOfRequest(t: Tables, env: Env, inp: Input, size: int, overlap: int): set<Digest> {
    if ExplicitWork(inp) == [] && !inp.infer then
      KeysOfSegments(SegmentsOf(inp, size, overlap))
    else set w | w in ItemsOf(t, env, inp) && !BlankItem(w) :: ContentDedupKey(w)
  }

  lemma KeysOfPlan(t: Tables, env: Env, inp: Input, size: int, overlap: int)
    requires Plan(t, env, inp, size, overlap).Some?
    ensures Keys(Plan(t, env, inp, size, overlap).value.1) == KeysOfRequest(t, env, inp, size, overlap)
  {
    if ExplicitWork(inp) == [] && !inp.infer {
      KeysOfText(env, inp, SegmentsOf(inp, size, overlap));
    } else {
      KeysOfWork(env, inp, ItemsOf(t, env, inp));
    }
  }

  /** A successful request returns as many ids as it had distinct content keys that were not yet live, and
      leaves exactly those and the earlier keys live. */
  lemma RequestCountsNewKeys(t: Tables, env: Env, inp: Input, size: int, overlap: int, key: Dek)
    requires Inv(t, key) && EnvOk(env, key) && Run(t, env, inp, size, overlap).ok
    ensures var r := Run(t, env, inp, size, overlap);
      var keys := KeysOfRequest(t, env, inp, size, overlap);
      && |r.ids| == |keys - LiveHashes(t, inp.vault, inp.user)|
      && LiveHashes(r.tables, inp.vault, inp.user) == LiveHashes(t, inp.vault, inp.user) + keys
  {
    PlanGives(t, env, inp, size, overlap, key);
    KeysOfPlan(t, env, inp, size, overlap);
    var (t1, ds) := Plan(t, env, inp, size, overlap).value;
    SameLiveHashes(t, t1, inp.vault, inp.user);
    CountsNewKeys(t1, env, ds, {}, inp.vault, inp.user);
  }

  lemma SameLiveHashes(t: Tables, t1: Tables, vault: nat, user: nat)
    requires t1.chunks == t.chunks
    ensures LiveHashes(t1, vault, user) == LiveHashes(t, vault, user)
  {
  }

  /** The keys of structured work are the content keys of its non-blank items. */
  lemma KeysOfWork(env: Env, inp: Input, work: seq<WorkItem>)
    ensures Keys(WorkDrafts(env, inp, work)) == set w | w in work && !BlankItem(w) :: ContentDedupKey(w)
  {
    WorkDraftsAreOfWork(env, inp, work);
    var want := set w | w in work && !BlankItem(w) :: ContentDedupKey(w);
    forall h | h in want ensures h in Keys(WorkDrafts(env, inp, work)) {
      var w :| w in work && !BlankItem(w) && ContentDedupKey(w) == h;
      assert DraftOfWork(env, inp, w) in WorkDrafts(env, inp, work);
      assert DraftOfWork(env, inp, w).row.hash == h;
    }
    forall h | h in Keys(WorkDrafts(env, inp, work)) ensures h in want {
      var d :| d in WorkDrafts(env, inp, work) && d.row.hash == h;
      var w :| w in work && !BlankItem(w) && d == DraftOfWork(env, inp, w);
    }
  }

  function KeysOfSegments(segs: seq<string>): set<Digest> {
    set f | f in segs && !Blank(f) :: Sha256(ToLower(TrimSpace(f)))
  }

  lemma KeysOfSegmentsCons(segs: seq<string>)
    requires segs != []
    ensures KeysOfSegments(segs) == KeysOfSegments(segs[1..])
              + if Blank(segs[0]) then {} else {Sha256(ToLower(TrimSpace(segs[0])))}
  {
    assert segs == [segs[0]] + segs[1..];
  }

  /** The keys of legacy text are those of its non-blank segments. */
  lemma {:induction false} KeysOfText(env: Env, inp: Input, segs: seq<string>)
    ensures Keys(TextDrafts(env, inp, segs)) == KeysOfSegments(segs)
    decreases |segs|
  {
    if segs != [] {
      KeysOfText(env, inp, segs[1..]);
      KeysOfSegmentsCons(segs);
      if !Blank(segs[0]) {
        var d := DraftOfText(env, inp, TrimSpace(segs[0]));
        var rest := TextDrafts(env, inp, segs[1..]);
        assert ([d] + rest)[1..] == rest;
        KeysCons([d] + rest);
      }
    }
  }

  /** Repeating a successful request, after any other requests but no deletion, stores no chunk, no document
      and no history, and succeeds. */
  lemma RequestIsIdempotent(t: Tables, env: Env, inp: Input, size: int, overlap: int, key: Dek, ops: seq<Op>)
    requires Inv(t, key) && EnvOk(env, key) && Run(t, env, inp, size, overlap).ok && OnlyIngests(ops)
    ensures var t' := ApplyAll(Run(t, env, inp, size, overlap).tables, ops);
      Run(t', env, inp, size, overlap) == Ingested(t', [], true)
  {
    PlanGives(t, env, inp, size, overlap, key);
    var (t1, ds) := Plan(t, env, inp, size, overlap).value;
    var t2 := IngestDrafts(t1, env, ds, {}).tables;
    ReturnsStoredRows(t1, env, ds, {});
    CountsNewKeys(t1, env, ds, {}, inp.vault, inp.user);
    IngestsOnlyAdd(t2, ops);
    var t' := ApplyAll(t2, ops);
    LiveHashesGrow(t2, t', inp.vault, inp.user);
    PlanRepeats(t, env, inp, size, overlap, key, t');
    RepeatStoresNothing(t1, t', env, ds, {}, inp.vault, inp.user);
  }

  lemma PlanRepeats(t: Tables, env: Env, inp: Input, size: int, overlap: int, key: Dek, t': Tables)
    requires Inv(t, key) && EnvOk(env, key) && Plan(t, env, inp, size, overlap).Some?
    requires IndexKept(Plan(t, env, inp, size, overlap).value.0, t')
    ensures Plan(t', env, inp, size, overlap) == Some((t', Plan(t, env, inp, size, overlap).value.1))
  {
    var work := ExplicitWork(inp);
    if work != [] { AttachRepeats(t, env, inp, work, key, t'); }
  }

  lemma LiveHashesGrow(t: Tables, t': Tables, vault: nat, user: nat)
    requires Adds(t, t')
    ensures LiveHashes(t, vault, user) <= LiveHashes(t', vault, user)
  {
    forall h | h in LiveHashes(t, vault, user) ensures h in LiveHashes(t', vault, user) {
      var id :| id in t.chunks && t.chunks[id].vault == vault && t.chunks[id].user == user
                && !t.chunks[id].deleted && t.chunks[id].hash == h;
      assert t'.chunks[id] == t.chunks[id];
    }
  }

  // ---- Reading a chunk back ----

  /** What was stored: its own body, or the source text when it had none. */
  function Expected(env: Env, inp: Input, w: WorkItem): Read {
    Read(if w.source.Some? then w.sourceText else w.body, w.abs, w.kind, w.metadata, w.source,
         if NeedsV2(w) then 2 else 1, inp.user, env.model, SessionKeyOf(inp))
  }

  /** What a bare text is read as: text and abstract only. */
  function BareRead(env: Env, inp: Input, text: string, abs: string): Read {
    Read(text, abs, "", map[], None, 1, inp.user, env.model, SessionKeyOf(inp))
  }

  /** The one case that does not read back: a body stored bare that is itself a v2 envelope. */
  predicate Ambiguous(env: Env, w: WorkItem) {
    !NeedsV2(w) && DecodesAsV2(env.codec, w.body)
  }

  predicate HoldsWork(t: Tables, env: Env, inp: Input, w: WorkItem, id: nat) {
    id in t.chunks && t.chunks[id] == RowOfWork(env, inp, w)
  }

  lemma BlankEmpty()
    ensures Blank("")
  {
    TrimIsIdentityOnTrimmed("");
  }

  lemma V2ReadsBack(t: Tables, env: Env, key: Dek, inp: Input, w: WorkItem)
    requires Lawful(env.codec) && EnvOk(env, key) && WorkLinked(t, key, inp, w) && NeedsV2(w)
    ensures var cb := PayloadToBody(t, env.codec, key, RowOfWork(env, inp, w));
      cb == Some(ChunkBody(w.abs, if w.source.Some? then w.sourceText else w.body, w.kind, w.metadata, 2))
  {
    SealOpens(env, key, PlainOf(env, w));
    FormatThenParse(env.codec, w.abs, StoredBody(w), w.kind, w.metadata);
    assert w.metadata + w.metadata == w.metadata;
    BlankEmpty();
  }

  lemma V1ReadsBack(t: Tables, env: Env, key: Dek, inp: Input, w: WorkItem)
    requires Lawful(env.codec) && EnvOk(env, key) && !NeedsV2(w) && Tidy(w) && !Blank(w.body) && w.source.None?
    ensures var cb := PayloadToBody(t, env.codec, key, RowOfWork(env, inp, w));
      && cb.Some?
      && (cb.value == ChunkBody("", w.body, "", map[], 1) <==> !DecodesAsV2(env.codec, w.body))
      && (cb.value.body == w.body <==> !DecodesAsV2(env.codec, w.body))
      && (cb.value.schemaVer == 1 <==> !DecodesAsV2(env.codec, w.body))
  {
    SealOpens(env, key, w.body);
    V1ParsesAsItselfIff(env.codec, w.body);
    TrimIsIdentityOnTrimmed(w.kind);
    var m := ParseChunkPlaintext(env.codec, w.body).metadata;
    assert m + map[] == m;
  }

  lemma ReadOfWork(t: Tables, env: Env, key: Dek, inp: Input, w: WorkItem, id: nat)
    requires EnvOk(env, key) && HoldsWork(t, env, inp, w, id)
    requires PayloadToBody(t, env.codec, key, RowOfWork(env, inp, w)).Some?
    ensures var cb := PayloadToBody(t, env.codec, key, RowOfWork(env, inp, w)).value;
      GetChunkByID(t, env, key, inp.vault, id)
      == Some(Read(cb.body, cb.abs, cb.kind, cb.metadata, w.source, if NeedsV2(w) then 2 else 1,
                   inp.user, env.model, SessionKeyOf(inp)))
  {
  }

  /** Write, then read: the chunk of a work item reads back as what was stored, exactly when the item is not
      ambiguous; and then the stored schema version is the one the text parses as. */
  lemma StoredItemReadsBack(t: Tables, env: Env, key: Dek, inp: Input, w: WorkItem, id: nat)
    requires Lawful(env.codec) && EnvOk(env, key) && WorkLinked(t, key, inp, w)
    requires HoldsWork(t, env, inp, w, id)
    requires Tidy(w) && !BlankItem(w) && (w.source.Some? ==> Blank(w.body))
    ensures GetChunkByID(t, env, key, inp.vault, id).Some?
    ensures GetChunkByID(t, env, key, inp.vault, id) == Some(Expected(env, inp, w)) <==> !Ambiguous(env, w)
    ensures PayloadToBody(t, env.codec, key, t.chunks[id]).value.schemaVer == t.chunks[id].schemaVer
            <==> !Ambiguous(env, w)
  {
    assert t.chunks[id].source == w.source && t.chunks[id].schemaVer == (if NeedsV2(w) then 2 else 1);
    if NeedsV2(w) {
      V2ReadsBack(t, env, key, inp, w);
    } else {
      TrimIsIdentityOnTrimmed(w.abs);
      TrimIsIdentityOnTrimmed(w.kind);
      V1ReadsBack(t, env, key, inp, w);
    }
    ReadOfWork(t, env, key, inp, w, id);
  }

  /** Each id that a structured or inferred request returns is the chunk of one of its non-blank items. */
  lemma ReturnedIdsHoldWork(t: Tables, env: Env, inp: Input, work: seq<WorkItem>, id: nat)
    requires Below(t) && id in IngestDrafts(t, env, WorkDrafts(env, inp, work), {}).ids
    ensures exists w :: w in work && !BlankItem(w)
              && HoldsWork(IngestDrafts(t, env, WorkDrafts(env, inp, work), {}).tables, env, inp, w, id)
  {
    var ds := WorkDrafts(env, inp, work);
    var t' := IngestDrafts(t, env, ds, {}).tables;
    ReturnsStoredRows(t, env, ds, {});
    assert StoredFrom(t', ds, id);
    var d :| d in ds && t'.chunks[id] == d.row;
    WorkDraftsAreOfWork(env, inp, work);
    var w :| w in work && !BlankItem(w) && d == DraftOfWork(env, inp, w);
    assert HoldsWork(t', env, inp, w, id);
  }

  /** Chunk id is the row of item w, and reads back as w exactly when w is not ambiguous. */
  predicate ReadsBackAs(t: Tables, env: Env, key: Dek, inp: Input, w: WorkItem, id: nat) {
    && !BlankItem(w) && HoldsWork(t, env, inp, w, id)
    && (w.source.Some? ==> w.sourceText == SourceText(inp))
    && (GetChunkByID(t, env, key, inp.vault, id) == Some(Expected(env, inp, w)) <==> !Ambiguous(env, w))
  }

  lemma LinkedItemReadsBack(
      t1: Tables, t': Tables, env: Env, key: Dek, inp: Input, work: seq<WorkItem>, work1: seq<WorkItem>,
      w: WorkItem, id: nat)
    requires Lawful(env.codec) && EnvOk(env, key) && t'.docs == t1.docs
    requires |work1| == |work| && w in work1 && !BlankItem(w)
    requires forall i :: 0 <= i < |work| ==> WorkLinked(t1, key, inp, work1[i]) && LinkOf(work1[i], work[i])
    requires forall v :: v in work ==> Tidy(v) && v.source == None
    requires forall v :: v in work1 && v.source.Some? ==> v.sourceText == SourceText(inp)
    requires HoldsWork(t', env, inp, w, id)
    ensures ReadsBackAs(t', env, key, inp, w, id)
  {
    var i :| 0 <= i < |work1| && work1[i] == w;
    assert LinkOf(work1[i], work[i]) && WorkLinked(t1, key, inp, work1[i]) && work[i] in work;
    StoredItemReadsBack(t', env, key, inp, w, id);
  }

  /** For every structured request: each returned id reads back as one of its items, with the item's own body
      or the full shared source text, unless that item is ambiguous. */
  lemma RequestReadsBack(t: Tables, env: Env, inp: Input, size: int, overlap: int, key: Dek, id: nat)
    requires Inv(t, key) && EnvOk(env, key) && Lawful(env.codec)
    requires ExplicitWork(inp) != [] && id in Run(t, env, inp, size, overlap).ids
    ensures exists w :: w in ItemsOf(t, env, inp)
                        && ReadsBackAs(Run(t, env, inp, size, overlap).tables, env, key, inp, w, id)
  {
    var work := ExplicitWork(inp);
    ExplicitWorkIsTidy(inp);
    AttachGives(t, env, inp, work, key);
    var (t1, work1) := Attach(t, env, inp, work).value;
    AttachedText(t, env, inp, work);
    var r := IngestDrafts(t1, env, WorkDrafts(env, inp, work1), {});
    assert Run(t, env, inp, size, overlap) == r;
    ReturnedIdsHoldWork(t1, env, inp, work1, id);
    ReturnsStoredRows(t1, env, WorkDrafts(env, inp, work1), {});
    var w :| w in work1 && !BlankItem(w) && HoldsWork(r.tables, env, inp, w, id);
    LinkedItemReadsBack(t1, r.tables, env, key, inp, work, work1, w, id);
  }

  lemma AttachedText(t: Tables, env: Env, inp: Input, work: seq<WorkItem>)
    requires Attach(t, env, inp, work).Some? && forall v :: v in work ==> v.source == None
    ensures forall v :: v in Attach(t, env, inp, work).value.1 && v.source.Some? ==> v.sourceText == SourceText(inp)
  {
  }

  /** The same for what a language model extracted: each returned id reads back as one of the facts. */
  lemma InferredReadsBack(t: Tables, env: Env, inp: Input, size: int, overlap: int, key: Dek, id: nat)
    requires Inv(t, key) && EnvOk(env, key) && Lawful(env.codec)
    requires ExplicitWork(inp) == [] && inp.infer && id in Run(t, env, inp, size, overlap).ids
    ensures exists w :: w in ItemsOf(t, env, inp)
                        && ReadsBackAs(Run(t, env, inp, size, overlap).tables, env, key, inp, w, id)
  {
    var work := InferredWork(inp, inp.facts);
    var r := IngestDrafts(t, env, WorkDrafts(env, inp, work), {});
    assert Run(t, env, inp, size, overlap) == r by { RunOfPlan(t, env, inp, size, overlap); }
    ReturnedIdsHoldWork(t, env, inp, work, id);
    var w :| w in work && !BlankItem(w) && HoldsWork(r.tables, env, inp, w, id);
    assert ReadsBackAs(r.tables, env, key, inp, w, id) by {
      InferredWorkIsTidy(inp, inp.facts);
      StoredItemReadsBack(r.tables, env, key, inp, w, id);
    }
  }

  /** A legacy text segment reads back as itself exactly when it is not the text of an envelope. */
  lemma TextSegmentReadsBack(t: Tables, env: Env, key: Dek, inp: Input, f: string, id: nat)
    requires Lawful(env.codec) && EnvOk(env, key) && !Blank(f)
    requires id in t.chunks && t.chunks[id] == RowOfText(env, inp, f)
    ensures GetChunkByID(t, env, key, inp.vault, id) == Some(BareRead(env, inp, f, ""))
            <==> !DecodesAsV2(env.codec, f)
  {
    SealOpens(env, key, f);
    V1ParsesAsItselfIff(env.codec, f);
    BlankEmpty();
    var m := ParseChunkPlaintext(env.codec, f).metadata;
    assert m + map[] == m;
  }

  /** Reads are stable: whatever is ingested or deleted later, a chunk that is not deleted itself reads back
      as it did. */
  lemma ReadSurvives(t: Tables, env: Env, dek: Dek, vault: nat, id: nat, ops: seq<Op>)
    requires Below(t) && Linked(t) && id in t.chunks && id !in Deleted(ops)
    ensures GetChunkByID(ApplyAll(t, ops), env, dek, vault, id) == GetChunkByID(t, env, dek, vault, id)
  {
    RunsOnlyAdd(t, ops);
    assert LinkOk(t, t.chunks[id]);
  }

  /** So an id returned by a structured request reads back as its item for as long as it is not deleted. */
  lemma RequestReadsBackLater(
      t: Tables, env: Env, inp: Input, size: int, overlap: int, key: Dek, id: nat, ops: seq<Op>)
    requires Inv(t, key) && EnvOk(env, key) && Lawful(env.codec)
    requires ExplicitWork(inp) != [] && id in Run(t, env, inp, size, overlap).ids && id !in Deleted(ops)
    ensures exists w :: w in ItemsOf(t, env, inp)
                        && ReadsBackAs(ApplyAll(Run(t, env, inp, size, overlap).tables, ops), env, key, inp, w, id)
  {
    var t1 := Run(t, env, inp, size, overlap).tables;
    RequestReadsBack(t, env, inp, size, overlap, key, id);
    RequestKeepsInv(t, env, inp, size, overlap, key);
    var w :| w in ItemsOf(t, env, inp) && ReadsBackAs(t1, env, key, inp, w, id);
    ReadSurvives(t1, env, key, inp.vault, id, ops);
    RunsOnlyAdd(t1, ops);
    assert ReadsBackAs(ApplyAll(t1, ops), env, key, inp, w, id);
  }

  function Pasted(env: Env, a: string, b: string): string {
    FormatChunkV2(env.codec, a, b, "", map[])
  }

  /** One item whose body is the text of an envelope, without abstract, kind or metadata. */
  function PastedInput(env: Env, vault: nat, user: nat, a: string, b: string): Input {
    Input(vault, user, "", "", "", "", map[], [IngestItem("", "", Pasted(env, a, b), "", map[])], None, false, "", [])
  }

  function PastedItem(env: Env, a: string, b: string): WorkItem {
    WorkItem("", Pasted(env, a, b), "", map[], None, "")
  }

  lemma PastedIsItsOnlyItem(env: Env, vault: nat, user: nat, a: string, b: string)
    requires Lawful(env.codec) && Trimmed(Pasted(env, a, b))
    ensures ExplicitWork(PastedInput(env, vault, user, a, b)) == [PastedItem(env, a, b)]
    ensures Pasted(env, a, b) != "" && !Blank(Pasted(env, a, b))
  {
    var inp, text := PastedInput(env, vault, user, a, b), Pasted(env, a, b);
    assert text == env.codec.encode(Envelope(CHUNK_FORMAT_V2, a, b, "", map[])) && text != "";
    BlankEmpty();
    TrimIsIdentityOnTrimmed(text);
    assert WorkOfItem(inp.items[0]) == PastedItem(env, a, b);
    assert inp.items[..0] == [] && WorkOfItems([]) == [];
    assert WorkOfItems(inp.items) == [] + [PastedItem(env, a, b)];
  }

  lemma PastedIsStored(env: Env, vault: nat, user: nat, a: string, b: string, size: int, overlap: int)
    requires Lawful(env.codec) && Trimmed(Pasted(env, a, b)) && !(env.encryption && env.dek == NO_KEY)
    requires var d := DraftOfWork(env, PastedInput(env, vault, user, a, b), PastedItem(env, a, b));
      env.checkOk(d.row.hash) && Storable(EMPTY, env, d)
    ensures var inp := PastedInput(env, vault, user, a, b);
      && Run(EMPTY, env, inp, size, overlap).ok && Run(EMPTY, env, inp, size, overlap).ids == [1]
      && HoldsWork(Run(EMPTY, env, inp, size, overlap).tables, env, inp, PastedItem(env, a, b), 1)
  {
    PastedIsItsOnlyItem(env, vault, user, a, b);
    var inp, w := PastedInput(env, vault, user, a, b), PastedItem(env, a, b);
    var d := DraftOfWork(env, inp, w);
    assert SourceText(inp) == "" && Attach(EMPTY, env, inp, [w]) == Some((EMPTY, [w]));
    assert [w][1..] == [] && WorkDrafts(env, inp, [w]) == [d];
    assert [d][1..] == [];
    assert IngestDrafts(EMPTY, env, [d], {}) == Ingested(WithChunk(EMPTY, d.row), [1], true);
  }

  /** For every codec: an envelope's own text, pasted in as a body without abstract, kind or metadata, is
      ingested and reads back as the envelope's inner abstract and body. */
  lemma PastedEnvelopeMisreads(
      env: Env, key: Dek, vault: nat, user: nat, a: string, b: string, size: int, overlap: int)
    requires Lawful(env.codec) && EnvOk(env, key) && Trimmed(Pasted(env, a, b))
    requires var d := DraftOfWork(env, PastedInput(env, vault, user, a, b), PastedItem(env, a, b));
      env.checkOk(d.row.hash) && Storable(EMPTY, env, d)
    ensures var inp := PastedInput(env, vault, user, a, b);
      var r := Run(EMPTY, env, inp, size, overlap);
      && r.ok && r.ids == [1]
      && GetChunkByID(r.tables, env, key, vault, 1) == Some(BareRead(env, inp, b, a))
      && Expected(env, inp, PastedItem(env, a, b)) == BareRead(env, inp, Pasted(env, a, b), "")
      && Ambiguous(env, PastedItem(env, a, b)) && Pasted(env, a, b) != b
  {
    var text := Pasted(env, a, b);
    PastedIsItsOnlyItem(env, vault, user, a, b);
    PastedIsStored(env, vault, user, a, b, size, overlap);
    EnvelopeMisreads(Run(EMPTY, env, PastedInput(env, vault, user, a, b), size, overlap).tables, env, key,
                     PastedInput(env, vault, user, a, b), a, b, 1);
    assert env.codec.decode(text) == Some(Envelope(CHUNK_FORMAT_V2, a, b, "", map[]));
  }

  lemma EnvelopeMisreads(t: Tables, env: Env, key: Dek, inp: Input, a: string, b: string, id: nat)
    requires Lawful(env.codec) && EnvOk(env, key) && HoldsWork(t, env, inp, PastedItem(env, a, b), id)
    ensures Ambiguous(env, PastedItem(env, a, b))
    ensures GetChunkByID(t, env, key, inp.vault, id) == Some(BareRead(env, inp, b, a))
  {
    var text := Pasted(env, a, b);
    PastedDecodes(env, a, b);
    SealOpens(env, key, text);
    assert t.chunks[id].payload == Seal(env, text) && t.chunks[id].source == None && t.chunks[id].kind == "";
    assert PayloadToBody(t, env.codec, key, t.chunks[id]) == Some(ChunkBody(a, b, "", map[], 2));
  }

  lemma PastedDecodes(env: Env, a: string, b: string)
    requires Lawful(env.codec)
    ensures !NeedsV2(PastedItem(env, a, b)) && DecodesAsV2(env.codec, Pasted(env, a, b)) && Blank("")
    ensures ParseChunkPlaintext(env.codec, Pasted(env, a, b)) == ChunkBody(a, b, "", map[], 2)
  {
    BlankEmpty();
    FirstCharSurvivesTrim(Pasted(env, a, b));
    FormatThenParse(env.codec, a, b, "", map[]);
  }

  // ---- The invariant over runs ----

  lemma {:induction false} RunsKeepInv(t: Tables, ops: seq<Op>, key: Dek)
    requires Inv(t, key) && forall i :: 0 <= i < |ops| && ops[i].OpIngest? ==> EnvOk(ops[i].env, key)
    ensures Inv(ApplyAll(t, ops), key)
    decreases |ops|
  {
    if ops != [] {
      match ops[0] {
        case OpIngest(env, inp, size, overlap) =>
          assert EnvOk(ops[0].env, key);
          RequestKeepsInv(t, env, inp, size, overlap, key);
        case OpDelete(vault, id, ok) =>
          if Deletable(t, vault, id) { DeleteKeepsInv(t, key, id, ok); }
      }
      RunsKeepInv(Apply(t, ops[0]), ops[1..], key);
    }
  }

  /** From the empty tables, whatever is ingested and deleted, in whatever order and with whatever failures. */
  lemma EveryRunKeepsTheTables(ops: seq<Op>, key: Dek, vault: nat)
    requires forall i :: 0 <= i < |ops| && ops[i].OpIngest? ==> EnvOk(ops[i].env, key)
    ensures var t := ApplyAll(EMPTY, ops);
      && UniqueLive(t) && Embedded(t) && Linked(t)
      && |LiveOf(t, vault)| + |DeletedOf(t, vault)| == HistoryCount(t.history, vault)
  {
    forall v ensures HistoryMatches(EMPTY, v) { assert ChunksOf(EMPTY, v) == {}; }
    RunsKeepInv(EMPTY, ops, key);
    LiveAndDeletedMatchHistory(ApplyAll(EMPTY, ops), key, vault);
  }
}
