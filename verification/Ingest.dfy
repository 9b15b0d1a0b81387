/** From an ingest request to rows: which path is taken, the shared source document, content keys, the
    stored form of each item, and what a later read of the chunk returns. */
module Ingest {
  import opened Text
  import opened ChunkFormat
  import opened Store
  import opened Drafts
  import Chunker

  datatype IngestItem = IngestItem(abs: string, text: string, body: string, kind: string, metadata: Metadata)
  datatype SourceDoc = SourceDoc(text: string, title: string)

  /** facts: what the language model extracts when infer is set. */
  datatype Input = Input(
    vault: nat, user: nat, sessionKey: string, text: string, abs: string, kind: string, metadata: Metadata,
    items: seq<IngestItem>, source: Option<SourceDoc>, infer: bool, inferTarget: string, facts: seq<string>)

  datatype WorkItem = WorkItem(
    abs: string, body: string, kind: string, metadata: Metadata, source: Option<nat>, sourceText: string)

  // ---- Work items ----

  function WorkOfItem(it: IngestItem): WorkItem {
    var b := TrimSpace(it.body);
    WorkItem(TrimSpace(it.abs), if b == "" then TrimSpace(it.text) else b, TrimSpace(it.kind), it.metadata, None, "")
  }

  function WorkOfItems(items: seq<IngestItem>): seq<WorkItem> {
    if items == [] then []
    else
      var w := WorkOfItem(items[|items| - 1]);
      var init := WorkOfItems(items[..|items| - 1]);
      if w.abs == "" && w.body == "" then init else init + [w]
  }

  /** The explicit work of a request; none when it has only blank items or only plain text. */
  function ExplicitWork(inp: Input): seq<WorkItem> {
    if inp.items != [] then WorkOfItems(inp.items)
    else
      var a, k := TrimSpace(inp.abs), TrimSpace(inp.kind);
      if a == "" && k == "" && inp.metadata == map[] then []
      else [WorkItem(a, TrimSpace(inp.text), k, inp.metadata, None, "")]
  }

  method CollectExplicitStructuredWork(inp: Input) returns (work: seq<WorkItem>)
    ensures work == ExplicitWork(inp)
  {
    if |inp.items| > 0 {
      work := [];
      for i := 0 to |inp.items|
        invariant work == WorkOfItems(inp.items[..i])
      {
        var it := inp.items[i];
        var b := TrimSpace(it.body);
        if b == "" { b := TrimSpace(it.text); }
        var w := WorkItem(TrimSpace(it.abs), b, TrimSpace(it.kind), it.metadata, None, "");
        ghost var longer := inp.items[..i + 1];
        assert longer[..|longer| - 1] == inp.items[..i] && longer[|longer| - 1] == it;
        if w.abs == "" && w.body == "" { continue; }
        work := work + [w];
      }
      assert inp.items[..|inp.items|] == inp.items;
      return;
    }
    var a, k, t := TrimSpace(inp.abs), TrimSpace(inp.kind), TrimSpace(inp.text);
    if a == "" && k == "" && |inp.metadata| == 0 { return []; }
    work := [WorkItem(a, t, k, inp.metadata, None, "")];
  }

  /** One work item for each extracted fact that is not blank, in the abstract or in the body. */
  function InferredWork(inp: Input, facts: seq<string>): seq<WorkItem> {
    if facts == [] then []
    else
      var f := TrimSpace(facts[0]);
      var rest := InferredWork(inp, facts[1..]);
      if f == "" then rest
      else
        var kind := TrimSpace(inp.kind);
        [if Normal(inp.inferTarget) == "body" then WorkItem("", f, kind, inp.metadata, None, "")
         else WorkItem(f, "", kind, inp.metadata, None, "")] + rest
  }

  predicate Tidy(w: WorkItem) {
    Trimmed(w.abs) && Trimmed(w.body) && Trimmed(w.kind)
  }

  lemma {:induction false} WorkOfItemsIsTidy(items: seq<IngestItem>)
    ensures forall w :: w in WorkOfItems(items) ==> Tidy(w) && w.source == None
    decreases |items|
  {
    if items != [] { WorkOfItemsIsTidy(items[..|items| - 1]); }
  }

  lemma {:induction false} InferredWorkIsTidy(inp: Input, facts: seq<string>)
    ensures forall w :: w in InferredWork(inp, facts) ==> Tidy(w) && w.source == None
    decreases |facts|
  {
    if facts != [] { InferredWorkIsTidy(inp, facts[1..]); }
  }

  // ---- The shared source document ----

  function Seal(env: Env, text: string): Payload {
    if env.encryption then Sealed(env.dek, text) else PlainText(text)
  }

  function DocOf(env: Env, inp: Input, text: string, title: string): DocRow {
    DocRow(inp.vault, inp.user, if title == "" then None else Some(title), Seal(env, text), Sha256(text))
  }

  /** upsertSourceDocument: the id of the one document with this content, inserted when new; None when it
      is too large, or the lookup or the insert fails. */
  function Upsert(t: Tables, env: Env, inp: Input, text: string, title: string): Option<(Tables, nat)> {
    var k := DocKey(inp.vault, inp.user, Sha256(text));
    if TooBig(env, text) || !env.lookupOk(k.hash) then None
    else if k in t.docIndex then Some((t, t.docIndex[k]))
    else if !env.insertOk(t.nextId) then None
    else Some((WithDoc(t, DocOf(env, inp, text, title)), t.nextId))
  }

  predicate NeedsSource(work: seq<WorkItem>) {
    exists i :: 0 <= i < |work| && Blank(work[i].body)
  }

  function Linked1(w: WorkItem, id: nat, full: string): WorkItem {
    if Blank(w.body) then w.(source := Some(id), sourceText := full) else w
  }

  function LinkAll(work: seq<WorkItem>, id: nat, full: string): (r: seq<WorkItem>)
    ensures |r| == |work| && forall i :: 0 <= i < |work| ==> r[i] == Linked1(work[i], id, full)
  {
    seq(|work|, i requires 0 <= i < |work| => Linked1(work[i], id, full))
  }

  function SourceText(inp: Input): string {
    if inp.source.None? then "" else TrimSpace(inp.source.value.text)
  }

  /** attachSharedSource: None when the document cannot be stored. */
  function Attach(t: Tables, env: Env, inp: Input, work: seq<WorkItem>): Option<(Tables, seq<WorkItem>)> {
    var full := SourceText(inp);
    if full == "" || !NeedsSource(work) then Some((t, work))
    else
      var r := Upsert(t, env, inp, full, TrimSpace(inp.source.value.title));
      if r.None? then None else Some((r.value.0, LinkAll(work, r.value.1, full)))
  }

  // ---- Rows ----

  /** The decimal text of a number stands for the text of a UUID. */
  function IdText(n: nat): string {
    if n < 10 then [('0' as int + n) as char] else IdText(n / 10) + [('0' as int + n % 10) as char]
  }

  function ContentDedupKey(w: WorkItem): Digest {
    Sha256(Normal(w.kind) + "\n" + Normal(w.abs) + "\n"
           + if w.source.Some? then IdText(w.source.value) else Normal(w.body))
  }

  predicate NeedsV2(w: WorkItem) {
    !Blank(w.abs) || !Blank(w.kind) || w.metadata != map[]
  }

  function StoredBody(w: WorkItem): string {
    if w.source.Some? then "" else w.body
  }

  function PlainOf(env: Env, w: WorkItem): string {
    if NeedsV2(w) then FormatChunkV2(env.codec, w.abs, StoredBody(w), w.kind, w.metadata) else StoredBody(w)
  }

  function TsvOf(w: WorkItem): string {
    if w.source.Some? && w.sourceText != "" then
      var ex := ExcerptRunes(w.sourceText, 2000);
      if TrimSpace(w.abs) == "" then ex else TrimSpace(w.abs) + "\n\n" + ex
    else LexicalSource(ChunkBody(w.abs, w.body, w.kind, w.metadata, 2))
  }

  function EmbedSourceOf(w: WorkItem): string {
    if TrimSpace(w.abs) != "" then TrimSpace(w.abs)
    else if w.source.Some? then ExcerptRunes(w.sourceText, 2000)
    else w.body
  }

  function SessionKeyOf(inp: Input): string {
    if TrimSpace(inp.sessionKey) == "" then "default" else TrimSpace(inp.sessionKey)
  }

  function RowOfWork(env: Env, inp: Input, w: WorkItem): ChunkRow {
    ChunkRow(inp.vault, inp.user, Seal(env, PlainOf(env, w)), ContentDedupKey(w), env.model,
             if NeedsV2(w) then 2 else 1, TsvOf(w), SessionKeyOf(inp), w.kind, w.metadata, w.source, false)
  }

  function DraftOfWork(env: Env, inp: Input, w: WorkItem): Draft {
    Draft(RowOfWork(env, inp, w), PlainOf(env, w), EmbedSourceOf(w), false)
  }

  function RowOfText(env: Env, inp: Input, f: string): ChunkRow {
    ChunkRow(inp.vault, inp.user, Seal(env, f), Sha256(ToLower(f)), env.model, 1, f, SessionKeyOf(inp), "", map[], None,
             false)
  }

  function DraftOfText(env: Env, inp: Input, f: string): Draft {
    Draft(RowOfText(env, inp, f), f, f, true)
  }

  predicate BlankItem(w: WorkItem) {
    Blank(w.abs) && Blank(w.body)
  }

  function WorkDrafts(env: Env, inp: Input, work: seq<WorkItem>): seq<Draft> {
    if work == [] then []
    else if BlankItem(work[0]) then WorkDrafts(env, inp, work[1..])
    else [DraftOfWork(env, inp, work[0])] + WorkDrafts(env, inp, work[1..])
  }

  function TextDrafts(env: Env, inp: Input, segs: seq<string>): seq<Draft> {
    if segs == [] then []
    else
      var f := TrimSpace(segs[0]);
      if f == "" then TextDrafts(env, inp, segs[1..])
      else [DraftOfText(env, inp, f)] + TextDrafts(env, inp, segs[1..])
  }

  lemma {:induction false} WorkDraftsAreOfWork(env: Env, inp: Input, work: seq<WorkItem>)
    ensures forall d :: d in WorkDrafts(env, inp, work) ==>
      exists w :: w in work && !BlankItem(w) && d == DraftOfWork(env, inp, w)
    ensures forall w :: w in work && !BlankItem(w) ==> DraftOfWork(env, inp, w) in WorkDrafts(env, inp, work)
    decreases |work|
  {
    if work != [] {
      WorkDraftsAreOfWork(env, inp, work[1..]);
      assert work == [work[0]] + work[1..];
      forall d | d in WorkDrafts(env, inp, work)
        ensures exists w :: w in work && !BlankItem(w) && d == DraftOfWork(env, inp, w)
      {
        if d in WorkDrafts(env, inp, work[1..]) {
          var w :| w in work[1..] && !BlankItem(w) && d == DraftOfWork(env, inp, w);
          assert w in work;
        } else {
          assert work[0] in work;
        }
      }
    }
  }

  lemma {:induction false} TextDraftsForUser(env: Env, inp: Input, segs: seq<string>)
    ensures ForUser(TextDrafts(env, inp, segs), inp.vault, inp.user)
    ensures forall d :: d in TextDrafts(env, inp, segs) ==> d.row.source == None
    decreases |segs|
  {
    if segs != [] { TextDraftsForUser(env, inp, segs[1..]); }
  }

  // ---- Reading a chunk back ----

  /** What a read returns, the creation time aside. */
  datatype Read = Read(
    text: string, abs: string, kind: string, metadata: Metadata, source: Option<nat>, schemaVer: int,
    user: nat, model: nat, sessionKey: string)

  function ReadOf(c: ChunkRow, cb: ChunkBody): Read {
    Read(cb.body, cb.abs, cb.kind, cb.metadata, c.source, c.schemaVer, c.user, c.model, c.sessionKey)
  }

  /** payloadToChunkBody: the parsed text, completed from the row's columns and the source document. */
  function PayloadToBody(t: Tables, codec: Codec, dek: Dek, c: ChunkRow): Option<ChunkBody> {
    var plain := OpenPayload(c.payload, dek);
    if plain.None? then None
    else
      var cb := ParseChunkPlaintext(codec, plain.value);
      var cb1 := if !Blank(c.kind) && Blank(cb.kind) then cb.(kind := c.kind) else cb;
      var cb2 := cb1.(metadata := cb1.metadata + c.metadata);
      if c.source.None? then Some(cb2)
      else if c.source.value !in t.docs || t.docs[c.source.value].vault != c.vault then None
      else
        var full := OpenPayload(t.docs[c.source.value].payload, dek);
        if full.None? then None
        else Some(if Blank(cb2.body) then cb2.(body := full.value) else cb2)
  }

  /** GetChunkByID for a session that holds dek. */
  function GetChunkByID(t: Tables, env: Env, dek: Dek, vault: nat, id: nat): Option<Read> {
    if env.encryption && dek == NO_KEY then None
    else if !Deletable(t, vault, id) then None
    else
      var c := t.chunks[id];
      var cb := PayloadToBody(t, env.codec, dek, c);
      if cb.None? then None else Some(ReadOf(c, cb.value))
  }

  // ---- The whole request ----

  /** Legacy segments after the caller's clamp. */
  function SegmentsOf(inp: Input, size: int, overlap: int): seq<string> {
    var sz := Chunker.ClampSize(size);
    Chunker.Segments(inp.text, sz, Chunker.ClampOverlap(sz, overlap))
  }

  /** Which drafts a request comes to, after the shared source has been attached. */
  function Plan(t: Tables, env: Env, inp: Input, size: int, overlap: int): Option<(Tables, seq<Draft>)> {
    var work := ExplicitWork(inp);
    if work != [] then
      var a := Attach(t, env, inp, work);
      if a.None? then None else Some((a.value.0, WorkDrafts(env, inp, a.value.1)))
    else if inp.infer then Some((t, WorkDrafts(env, inp, InferredWork(inp, inp.facts))))
    else Some((t, TextDrafts(env, inp, SegmentsOf(inp, size, overlap))))
  }

  predicate Infers(inp: Input) {
    ExplicitWork(inp) == [] && inp.infer
  }

  /** A request that stops half-way reports the ids it has stored, except on the infer path. */
  function Run(t: Tables, env: Env, inp: Input, size: int, overlap: int): Ingested {
    if env.encryption && env.dek == NO_KEY then Ingested(t, [], false)
    else
      var p := Plan(t, env, inp, size, overlap);
      if p.None? then Ingested(t, [], false)
      else
        var r := IngestDrafts(p.value.0, env, p.value.1, {});
        if r.ok || !Infers(inp) then r else r.(ids := [])
  }
}
