/** The ingest and read methods of the engine over the mutable store; each is one function of Ingest. */
module Engine {
  import opened Text
  import opened ChunkFormat
  import opened Store
  import opened Drafts
  import opened Ingest
  import opened Messages
  import Chunker

  /** r continued after ids were already inserted. */
  function Resume(ids: seq<nat>, r: Ingested): Ingested {
    r.(ids := ids + r.ids)
  }

  lemma ResumeInsert(ids: seq<nat>, id: nat, r: Ingested)
    ensures Resume(ids, r.(ids := [id] + r.ids)) == Resume(ids + [id], r)
  {
    assert ids + ([id] + r.ids) == (ids + [id]) + r.ids;
  }

  /** Size check, embedding and insert, for a row that is not there yet. */
  method StoreDraft(pool: Pool, env: Env, d: Draft) returns (ok: bool, id: nat)
    modifies pool
    ensures ok == Storable(old(pool.View()), env, d)
    ensures ok ==> id == old(pool.nextId)
    ensures pool.View() == if ok then WithChunk(old(pool.View()), d.row) else old(pool.View())
  {
    id := 0;
    if TooBig(env, d.plain) { return false, id; }
    if !env.embedOk(d.embedSrc) { return false, id; }
    ok, id := pool.InsertChunk(d.row, if env.insertOk(pool.nextId) then 0 else 1);
  }

  /** One step of the insert loop on its specification. */
  lemma DraftStep(t: Tables, env: Env, d: Draft, ds: seq<Draft>, seen: set<Digest>, ids: seq<nat>)
    ensures d.row.hash in seen ==> IngestDrafts(t, env, [d] + ds, seen) == IngestDrafts(t, env, ds, seen)
    ensures d.row.hash !in seen && d.sizeFirst && TooBig(env, d.plain) ==>
      IngestDrafts(t, env, [d] + ds, seen) == Ingested(t, [], false)
    ensures d.row.hash !in seen && !env.checkOk(d.row.hash) ==>
      IngestDrafts(t, env, [d] + ds, seen) == Ingested(t, [], false)
    ensures d.row.hash !in seen && !(d.sizeFirst && TooBig(env, d.plain)) && env.checkOk(d.row.hash) ==>
      Resume(ids, IngestDrafts(t, env, [d] + ds, seen)) ==
        if Exists(t, d) then Resume(ids, IngestDrafts(t, env, ds, seen + {d.row.hash}))
        else if !Storable(t, env, d) then Ingested(t, ids, false)
        else Resume(ids + [t.nextId], IngestDrafts(WithChunk(t, d.row), env, ds, seen + {d.row.hash}))
  {
    assert ([d] + ds)[1..] == ds;
    if Storable(t, env, d) {
      ResumeInsert(ids, t.nextId, IngestDrafts(WithChunk(t, d.row), env, ds, seen + {d.row.hash}));
    }
  }

  method IngestStructuredWork(pool: Pool, env: Env, inp: Input, work: seq<WorkItem>) returns (ids: seq<nat>, ok: bool)
    modifies pool
    ensures Ingested(pool.View(), ids, ok) == IngestDrafts(old(pool.View()), env, WorkDrafts(env, inp, work), {})
  {
    ids := [];
    var seen: set<Digest> := {};
    ghost var all := IngestDrafts(pool.View(), env, WorkDrafts(env, inp, work), {});
    var i := 0;
    assert work[0..] == work;
    while i < |work|
      invariant 0 <= i <= |work|
      invariant Resume(ids, IngestDrafts(pool.View(), env, WorkDrafts(env, inp, work[i..]), seen)) == all
    {
      var w := work[i];
      ghost var rest := WorkDrafts(env, inp, work[i + 1..]);
      assert work[i..][1..] == work[i + 1..];
      i := i + 1;
      if Blank(w.abs) && Blank(w.body) { continue; }
      var d := DraftOfWork(env, inp, w);
      DraftStep(pool.View(), env, d, rest, seen, ids);
      var h := ContentDedupKey(w);
      if h in seen { continue; }
      seen := seen + {h};
      var checked, exists' := pool.ChunkExistsHash(inp.vault, inp.user, h, env.checkOk(h));
      if !checked { return ids, false; }
      if exists' { continue; }
      var stored, id := StoreDraft(pool, env, d);
      if !stored { return ids, false; }
      ids := ids + [id];
    }
    ok := true;
  }

  method IngestTexts(pool: Pool, env: Env, inp: Input, segs: seq<string>) returns (ids: seq<nat>, ok: bool)
    modifies pool
    ensures Ingested(pool.View(), ids, ok) == IngestDrafts(old(pool.View()), env, TextDrafts(env, inp, segs), {})
  {
    ids := [];
    var seen: set<Digest> := {};
    ghost var all := IngestDrafts(pool.View(), env, TextDrafts(env, inp, segs), {});
    var i := 0;
    assert segs[0..] == segs;
    while i < |segs|
      invariant 0 <= i <= |segs|
      invariant Resume(ids, IngestDrafts(pool.View(), env, TextDrafts(env, inp, segs[i..]), seen)) == all
    {
      var f := TrimSpace(segs[i]);
      ghost var rest := TextDrafts(env, inp, segs[i + 1..]);
      assert segs[i..][1..] == segs[i + 1..];
      i := i + 1;
      if f == "" { continue; }
      var d := DraftOfText(env, inp, f);
      DraftStep(pool.View(), env, d, rest, seen, ids);
      var h := Sha256(ToLower(f));
      if h in seen { continue; }
      seen := seen + {h};
      if TooBig(env, f) { return ids, false; }
      var checked, exists' := pool.ChunkExistsHash(inp.vault, inp.user, h, env.checkOk(h));
      if !checked { return ids, false; }
      if exists' { continue; }
      var stored, id := StoreDraft(pool, env, d);
      if !stored { return ids, false; }
      ids := ids + [id];
    }
    ok := true;
  }

  method UpsertSourceDocument(pool: Pool, env: Env, inp: Input, text: string, title: string) returns (id: Option<nat>)
    modifies pool
    ensures var r := Upsert(old(pool.View()), env, inp, text, title);
      && id.Some? == r.Some?
      && (r.Some? ==> pool.View() == r.value.0 && id.value == r.value.1)
      && (r.None? ==> pool.View() == old(pool.View()))
  {
    if TooBig(env, text) { return None; }
    var h := Sha256(text);
    var ok, known := pool.GetSourceDocumentIDByHash(inp.vault, inp.user, h, env.lookupOk(h));
    if !ok { return None; }
    if known.Some? { return known; }
    var stored, fresh' := pool.InsertSourceDocument(DocOf(env, inp, text, title), env.insertOk(pool.nextId));
    id := if stored then Some(fresh') else None;
  }

  method AnyBlankBody(work: seq<WorkItem>) returns (need: bool)
    ensures need == NeedsSource(work)
  {
    for i := 0 to |work|
      invariant forall k :: 0 <= k < i ==> !Blank(work[k].body)
    {
      if Blank(work[i].body) { return true; }
    }
    need := false;
  }

  /** Sets the link on every item without a body of its own. */
  method LinkBlankBodies(work: seq<WorkItem>, id: nat, full: string) returns (linked: seq<WorkItem>)
    ensures linked == LinkAll(work, id, full)
  {
    linked := work;
    for i := 0 to |work|
      invariant |linked| == |work|
      invariant forall k :: 0 <= k < i ==> linked[k] == Linked1(work[k], id, full)
      invariant forall k :: i <= k < |work| ==> linked[k] == work[k]
    {
      if !Blank(work[i].body) { continue; }
      linked := linked[i := linked[i].(source := Some(id), sourceText := full)];
    }
  }

  method AttachSharedSource(pool: Pool, env: Env, inp: Input, work: seq<WorkItem>)
    returns (ok: bool, linked: seq<WorkItem>)
    modifies pool
    ensures var r := Attach(old(pool.View()), env, inp, work);
      && ok == r.Some?
      && (ok ==> pool.View() == r.value.0 && linked == r.value.1)
      && (!ok ==> pool.View() == old(pool.View()))
  {
    if inp.source.None? { return true, work; }
    var full := TrimSpace(inp.source.value.text);
    if full == "" { return true, work; }
    var need := AnyBlankBody(work);
    if !need { return true, work; }
    var id := UpsertSourceDocument(pool, env, inp, full, TrimSpace(inp.source.value.title));
    if id.None? { return false, work; }
    linked := LinkBlankBodies(work, id.value, full);
    ok := true;
  }

  method CollectInferred(inp: Input) returns (work: seq<WorkItem>)
    ensures work == InferredWork(inp, inp.facts)
  {
    work := [];
    var i := 0;
    assert inp.facts[0..] == inp.facts;
    while i < |inp.facts|
      invariant 0 <= i <= |inp.facts|
      invariant work + InferredWork(inp, inp.facts[i..]) == InferredWork(inp, inp.facts)
    {
      var f := TrimSpace(inp.facts[i]);
      assert inp.facts[i..][1..] == inp.facts[i + 1..];
      ghost var rest := InferredWork(inp, inp.facts[i + 1..]);
      i := i + 1;
      if f == "" { continue; }
      var kind := TrimSpace(inp.kind);
      var w := if Normal(inp.inferTarget) == "body" then WorkItem("", f, kind, inp.metadata, None, "")
               else WorkItem(f, "", kind, inp.metadata, None, "");
      assert work + ([w] + rest) == (work + [w]) + rest;
      work := work + [w];
    }
  }

  /** The message session of a request: its key as it came. */
  function SessionOf(inp: Input): SessionId {
    SessionId(inp.vault, inp.user, inp.sessionKey)
  }

  /** The three paths of a request, and the prune of the session's messages after a success. */
  method IngestRequest(
      pool: Pool, log: MessageLog, env: Env, inp: Input, size: int, overlap: int, keep: int, pruneOk: bool)
    returns (ids: seq<nat>, ok: bool)
    modifies pool, log
    ensures Ingested(pool.View(), ids, ok) == Ingest.Run(old(pool.View()), env, inp, size, overlap)
    ensures log.rows == if ok && pruneOk
                        then Pruned(old(log.rows), SessionOf(inp), if keep < 1 then 100 else keep)
                        else old(log.rows)
  {
    if env.encryption && env.dek == NO_KEY { return [], false; }
    var work := CollectExplicitStructuredWork(inp);
    if |work| > 0 {
      var attached, linked := AttachSharedSource(pool, env, inp, work);
      if !attached { return [], false; }
      ids, ok := IngestStructuredWork(pool, env, inp, linked);
    } else if inp.infer {
      var inferred := CollectInferred(inp);
      ids, ok := IngestStructuredWork(pool, env, inp, inferred);
      if !ok { return [], false; }
    } else {
      var sz, over := size, overlap;
      if sz < 1 { sz := 2000; }
      if over < 0 || over >= sz { over := 200; }
      var segs := Chunker.ChunkText(inp.text, sz, over);
      ids, ok := IngestTexts(pool, env, inp, segs);
    }
    if ok { log.Prune(SessionOf(inp), if keep < 1 then 100 else keep, pruneOk); }
  }

  /** None: locked, not found, or the payload cannot be opened. */
  method GetChunk(pool: Pool, env: Env, dek: Dek, vault: nat, id: nat) returns (r: Option<Read>)
    ensures r == GetChunkByID(pool.View(), env, dek, vault, id)
  {
    if env.encryption && dek == NO_KEY { return None; }
    var row := pool.GetChunkForVault(vault, id);
    if row.None? { return None; }
    var cb := PayloadToBody(pool.View(), env.codec, dek, row.value);
    if cb.None? { return None; }
    r := Some(ReadOf(row.value, cb.value));
  }
}
