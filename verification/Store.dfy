/** The memory tables: chunks, embeddings, ingest history and source documents. Each method of Pool is one
    store call; users and embedding models are compared for equality only, so they are numbers. */
module Store {
  import opened Text
  import opened ChunkFormat
  import SessionModel

  type Dek = SessionModel.Dek
  const NO_KEY: Dek := SessionModel.NoKey

  /** Exactly one of body_text and ciphertext is set. Sealing is authenticated: only its key opens it. */
  datatype Payload = PlainText(text: string) | Sealed(key: Dek, plain: string)

  function OpenPayload(p: Payload, dek: Dek): Option<string> {
    match p
    case PlainText(text) => Some(text)
    case Sealed(key, plain) => if dek != NO_KEY && dek == key then Some(plain) else None
  }

  datatype ChunkRow = ChunkRow(
    vault: nat, user: nat, payload: Payload, hash: Digest, model: nat, schemaVer: int, tsv: string,
    sessionKey: string, kind: string, metadata: Metadata, source: Option<nat>, deleted: bool)

  datatype DocRow = DocRow(vault: nat, user: nat, title: Option<string>, payload: Payload, hash: Digest)

  /** The columns of the unique index on source_documents. */
  datatype DocKey = DocKey(vault: nat, user: nat, hash: Digest)

  datatype HistoryRow = Added(vault: nat, chunk: nat)

  /** nextId is above every id in use, standing for fresh UUIDs. */
  datatype Tables = Tables(
    chunks: map<nat, ChunkRow>,
    embeddings: map<nat, nat>,
    history: seq<HistoryRow>,
    docs: map<nat, DocRow>,
    docIndex: map<DocKey, nat>,
    nextId: nat)

  const EMPTY: Tables := Tables(map[], map[], [], map[], map[], 1)

  predicate LiveKey(t: Tables, vault: nat, user: nat, hash: Digest) {
    exists id :: id in t.chunks && IsLive(t.chunks[id], vault, user, hash)
  }

  predicate IsLive(c: ChunkRow, vault: nat, user: nat, hash: Digest) {
    c.vault == vault && c.user == user && c.hash == hash && !c.deleted
  }

  // ---- The effect of each statement ----

  function WithChunk(t: Tables, row: ChunkRow): Tables {
    var id := t.nextId;
    t.(chunks := t.chunks[id := row], embeddings := t.embeddings[id := row.model],
       history := t.history + [Added(row.vault, id)], nextId := id + 1)
  }

  function WithDoc(t: Tables, d: DocRow): Tables {
    var id := t.nextId;
    t.(docs := t.docs[id := d], docIndex := t.docIndex[DocKey(d.vault, d.user, d.hash) := id], nextId := id + 1)
  }

  predicate Deletable(t: Tables, vault: nat, id: nat) {
    id in t.chunks && t.chunks[id].vault == vault && !t.chunks[id].deleted
  }

  function WithDeleted(t: Tables, id: nat, embeddingToo: bool): Tables
    requires id in t.chunks
  {
    t.(chunks := t.chunks[id := t.chunks[id].(deleted := true)],
       embeddings := if embeddingToo then t.embeddings - {id} else t.embeddings)
  }

  class Pool {
    var chunks: map<nat, ChunkRow>
    var embeddings: map<nat, nat>
    var history: seq<HistoryRow>
    var docs: map<nat, DocRow>
    var docIndex: map<DocKey, nat>
    var nextId: nat

    constructor ()
      ensures View() == EMPTY
    {
      chunks, embeddings, history, docs, docIndex, nextId := map[], map[], [], map[], map[], 1;
    }

    function View(): Tables reads this {
      Tables(chunks, embeddings, history, docs, docIndex, nextId)
    }

    /** Three statements in one transaction; failAt 1, 2 or 3 makes that statement fail, 4 the commit. */
    method InsertChunk(row: ChunkRow, failAt: nat) returns (ok: bool, id: nat)
      modifies this
      ensures ok == !(1 <= failAt <= 4)
      ensures ok ==> id == old(nextId)
      ensures View() == if ok then WithChunk(old(View()), row) else old(View())
    {
      var chunks0, embeddings0, history0 := chunks, embeddings, history;  // begin
      id := nextId;
      ok := failAt != 1;
      if ok {
        chunks := chunks[id := row];
        ok := failAt != 2;
      }
      if ok {
        embeddings := embeddings[id := row.model];
        ok := failAt != 3;
      }
      if ok {
        history := history + [Added(row.vault, id)];
        ok := failAt != 4;
      }
      if ok {
        nextId := id + 1;
      } else {
        chunks, embeddings, history := chunks0, embeddings0, history0;  // rollback
      }
    }

    /** queryOk: whether the query works. */
    method ChunkExistsHash(vault: nat, user: nat, hash: Digest, queryOk: bool) returns (ok: bool, found: bool)
      ensures ok == queryOk && found == (queryOk && LiveKey(View(), vault, user, hash))
    {
      ok := queryOk;
      found := ok && exists id :: id in chunks && IsLive(chunks[id], vault, user, hash);
    }

    method GetChunkForVault(vault: nat, id: nat) returns (row: Option<ChunkRow>)
      ensures row == if Deletable(View(), vault, id) then Some(chunks[id]) else None
    {
      row := if id in chunks && chunks[id].vault == vault && !chunks[id].deleted then Some(chunks[id]) else None;
    }

    /** Two statements without a transaction; the result of the second is ignored. */
    method SoftDeleteChunk(vault: nat, id: nat, embeddingOk: bool) returns (found: bool)
      modifies this
      ensures found == Deletable(old(View()), vault, id)
      ensures View() == if found then WithDeleted(old(View()), id, embeddingOk) else old(View())
    {
      found := id in chunks && chunks[id].vault == vault && !chunks[id].deleted;
      if !found { return; }
      chunks := chunks[id := chunks[id].(deleted := true)];
      if embeddingOk { embeddings := embeddings - {id}; }
    }

    method GetSourceDocumentIDByHash(vault: nat, user: nat, hash: Digest, queryOk: bool)
      returns (ok: bool, id: Option<nat>)
      ensures ok == queryOk
      ensures ok ==>
        id == if DocKey(vault, user, hash) in docIndex then Some(docIndex[DocKey(vault, user, hash)]) else None
    {
      var k := DocKey(vault, user, hash);
      ok := queryOk;
      id := if ok && k in docIndex then Some(docIndex[k]) else None;
    }

    /** The unique index refuses a second document with the same key; the statement may also fail. */
    method InsertSourceDocument(d: DocRow, statementOk: bool) returns (ok: bool, id: nat)
      modifies this
      ensures ok == (statementOk && DocKey(d.vault, d.user, d.hash) !in old(docIndex))
      ensures ok ==> id == old(nextId)
      ensures View() == if ok then WithDoc(old(View()), d) else old(View())
    {
      var k := DocKey(d.vault, d.user, d.hash);
      ok := statementOk && k !in docIndex;
      id := nextId;
      if ok {
        docs := docs[id := d];
        docIndex := docIndex[k := id];
        nextId := id + 1;
      }
    }

    /** GROUP BY user_id over the live chunks of a vault, then the running total. */
    method StatsForVault(vault: nat) returns (total: nat, byUser: map<nat, nat>)
      ensures total == |LiveOf(View(), vault)| == Sum(byUser)
      ensures forall u :: u in byUser <==> u in UsersOf(View(), vault)
      ensures forall u :: u in byUser ==> byUser[u] == |LiveOfUser(View(), vault, u)|
    {
      var t := View();
      var left := UsersOf(t, vault);
      ghost var done: set<nat> := {};
      total, byUser := 0, map[];
      TallyNone(t, vault);
      while left != {}
        invariant done == UsersOf(t, vault) - left && left <= UsersOf(t, vault)
        invariant Tallied(t, vault, done, byUser, total)
        decreases |left|
      {
        var u :| u in left;
        var n := |LiveOfUser(t, vault, u)|;
        TallyOne(t, vault, done, byUser, total, u);
        left, done := left - {u}, done + {u};
        assert done == UsersOf(t, vault) - left;
        byUser, total := byUser[u := n], total + n;
      }
      TallyAll(t, vault, byUser, total);
    }
  }

  /** byUser and total count the live chunks of the users in done. */
  ghost predicate Tallied(t: Tables, vault: nat, done: set<nat>, byUser: map<nat, nat>, total: nat) {
    && byUser.Keys == done
    && (forall u :: u in byUser ==> byUser[u] == |LiveOfUser(t, vault, u)|)
    && total == |LiveOfUsers(t, vault, done)| == Sum(byUser)
  }

  lemma TallyNone(t: Tables, vault: nat)
    ensures Tallied(t, vault, {}, map[], 0)
  {
  }

  lemma TallyAll(t: Tables, vault: nat, byUser: map<nat, nat>, total: nat)
    requires Tallied(t, vault, UsersOf(t, vault), byUser, total)
    ensures total == |LiveOf(t, vault)|
  {
    AllUsers(t, vault);
  }

  lemma TallyOne(t: Tables, vault: nat, done: set<nat>, byUser: map<nat, nat>, total: nat, u: nat)
    requires Tallied(t, vault, done, byUser, total) && u !in done
    ensures var n := |LiveOfUser(t, vault, u)|; Tallied(t, vault, done + {u}, byUser[u := n], total + n)
  {
    AddUser(t, vault, done, u);
    SumInsert(byUser, u, |LiveOfUser(t, vault, u)|);
  }

  /** The sum of the values of a map. */
  ghost function Sum(m: map<nat, nat>): nat
    decreases |m|
  {
    if m == map[] then 0
    else
      var k :| k in m;
      assert |m - {k}| < |m| by { SmallerWithout(m, k); }
      m[k] + Sum(m - {k})
  }

  lemma SmallerWithout(m: map<nat, nat>, k: nat)
    requires k in m
    ensures |m - {k}| < |m|
  {
    assert m == (m - {k})[k := m[k]];
  }

  lemma {:induction false} SumInsert(m: map<nat, nat>, k: nat, n: nat)
    requires k !in m
    ensures Sum(m[k := n]) == Sum(m) + n
    decreases |m|
  {
    var m' := m[k := n];
    assert k in m';
    var j :| j in m' && Sum(m') == m'[j] + Sum(m' - {j});
    if j == k {
      assert m' - {j} == m;
    } else {
      SmallerWithout(m, j);
      assert m' - {j} == (m - {j})[k := n];
      SumInsert(m - {j}, k, n);
      SumInsert(m - {j}, j, m[j]);
      assert (m - {j})[j := m[j]] == m;
    }
  }

  /** The users with at least one live chunk in the vault. */
  function UsersOf(t: Tables, vault: nat): set<nat> {
    set id | id in LiveOf(t, vault) :: t.chunks[id].user
  }

  lemma AllUsers(t: Tables, vault: nat)
    ensures LiveOfUsers(t, vault, UsersOf(t, vault)) == LiveOf(t, vault)
  {
  }

  function LiveOf(t: Tables, vault: nat): set<nat> {
    set id | id in t.chunks && t.chunks[id].vault == vault && !t.chunks[id].deleted
  }

  function DeletedOf(t: Tables, vault: nat): set<nat> {
    set id | id in t.chunks && t.chunks[id].vault == vault && t.chunks[id].deleted
  }

  function LiveOfUser(t: Tables, vault: nat, user: nat): set<nat> {
    set id | id in t.chunks && t.chunks[id].vault == vault && !t.chunks[id].deleted && t.chunks[id].user == user
  }

  function LiveOfUsers(t: Tables, vault: nat, users: set<nat>): set<nat> {
    set id | id in t.chunks && t.chunks[id].vault == vault && !t.chunks[id].deleted && t.chunks[id].user in users
  }

  lemma AddUser(t: Tables, vault: nat, users: set<nat>, u: nat)
    requires u !in users
    ensures |LiveOfUsers(t, vault, users + {u})| == |LiveOfUsers(t, vault, users)| + |LiveOfUser(t, vault, u)|
  {
    assert LiveOfUsers(t, vault, users + {u}) == LiveOfUsers(t, vault, users) + LiveOfUser(t, vault, u);
    assert LiveOfUsers(t, vault, users) !! LiveOfUser(t, vault, u);
  }

  // ---- The invariant of the tables ----

  predicate SameLiveKey(a: ChunkRow, b: ChunkRow) {
    !a.deleted && !b.deleted && a.vault == b.vault && a.user == b.user && a.hash == b.hash
  }

  /** At most one live chunk for each (vault, user, content hash). */
  predicate UniqueLive(t: Tables) {
    forall i, j :: i in t.chunks && j in t.chunks && SameLiveKey(t.chunks[i], t.chunks[j]) ==> i == j
  }

  /** Every live chunk has its embedding, made with the chunk's model. */
  predicate Embedded(t: Tables) {
    forall i :: i in t.chunks && !t.chunks[i].deleted ==> i in t.embeddings && t.embeddings[i] == t.chunks[i].model
  }

  predicate LinkOk(t: Tables, c: ChunkRow) {
    c.source.Some? ==>
      c.source.value in t.docs && t.docs[c.source.value].vault == c.vault && t.docs[c.source.value].user == c.user
  }

  /** Every source link is to an existing document of the same vault and user. */
  predicate Linked(t: Tables) {
    forall i :: i in t.chunks ==> LinkOk(t, t.chunks[i])
  }

  predicate Below(t: Tables) {
    && (forall i :: i in t.chunks ==> i < t.nextId)
    && (forall i :: i in t.docs ==> i < t.nextId)
  }

  /** The index names each document, which opens to the text its hash is of. */
  predicate DocsOk(t: Tables, key: Dek) {
    forall k :: k in t.docIndex ==>
      t.docIndex[k] in t.docs && DocOk(t.docs[t.docIndex[k]], k, key)
  }

  predicate DocOk(d: DocRow, k: DocKey, key: Dek) {
    && k == DocKey(d.vault, d.user, d.hash)
    && OpenPayload(d.payload, key) == Some(d.hash.preimage)
  }

  function HistoryCount(h: seq<HistoryRow>, vault: nat): nat {
    if h == [] then 0
    else (if h[|h| - 1].vault == vault then 1 else 0) + HistoryCount(h[..|h| - 1], vault)
  }

  function ChunksOf(t: Tables, vault: nat): set<nat> {
    set id | id in t.chunks && t.chunks[id].vault == vault
  }

  /** The history has one row for every chunk a vault ever stored, deleted or not. */
  predicate HistoryMatches(t: Tables, vault: nat) {
    HistoryCount(t.history, vault) == |ChunksOf(t, vault)|
  }

  ghost predicate Inv(t: Tables, key: Dek) {
    && UniqueLive(t) && Embedded(t) && Linked(t) && Below(t) && DocsOk(t, key)
    && forall v {:trigger HistoryMatches(t, v)} :: HistoryMatches(t, v)
  }

  /** The live and the soft-deleted chunks of a vault together are as many as its history rows. */
  lemma LiveAndDeletedMatchHistory(t: Tables, key: Dek, vault: nat)
    requires Inv(t, key)
    ensures |LiveOf(t, vault)| + |DeletedOf(t, vault)| == HistoryCount(t.history, vault)
  {
    assert HistoryMatches(t, vault);
    assert ChunksOf(t, vault) == LiveOf(t, vault) + DeletedOf(t, vault);
    assert LiveOf(t, vault) !! DeletedOf(t, vault);
  }

  lemma HistoryAfterInsert(t: Tables, row: ChunkRow, v: nat)
    requires Below(t) && HistoryMatches(t, v)
    ensures HistoryMatches(WithChunk(t, row), v)
  {
    var t' := WithChunk(t, row);
    assert t'.history[..|t'.history| - 1] == t.history;
    if row.vault == v {
      assert ChunksOf(t', v) == ChunksOf(t, v) + {t.nextId};
      assert t.nextId !in ChunksOf(t, v);
    } else {
      assert ChunksOf(t', v) == ChunksOf(t, v);
    }
  }

  /** Inserting a chunk whose key is not live and whose link is good keeps the invariant. */
  lemma InsertKeepsInv(t: Tables, key: Dek, row: ChunkRow)
    requires Inv(t, key) && LinkOk(t, row) && !row.deleted
    requires !LiveKey(t, row.vault, row.user, row.hash)
    ensures Inv(WithChunk(t, row), key)
  {
    var t' := WithChunk(t, row);
    forall v ensures HistoryMatches(t', v) {
      assert HistoryMatches(t, v);
      HistoryAfterInsert(t, row, v);
    }
    assert forall i :: i in t.chunks ==> !IsLive(t.chunks[i], row.vault, row.user, row.hash);
    assert UniqueLive(t');
  }

  lemma DocKeepsInv(t: Tables, key: Dek, d: DocRow)
    requires Inv(t, key) && DocOk(d, DocKey(d.vault, d.user, d.hash), key)
    ensures Inv(WithDoc(t, d), key)
  {
    var t' := WithDoc(t, d);
    assert forall i :: i in t.chunks ==> LinkOk(t, t.chunks[i]) && LinkOk(t', t'.chunks[i]);
    forall v ensures HistoryMatches(t', v) {
      assert HistoryMatches(t, v);
      assert ChunksOf(t', v) == ChunksOf(t, v);
    }
  }

  lemma DeleteKeepsInv(t: Tables, key: Dek, id: nat, embeddingToo: bool)
    requires Inv(t, key) && id in t.chunks
    ensures Inv(WithDeleted(t, id, embeddingToo), key)
  {
    var t' := WithDeleted(t, id, embeddingToo);
    assert forall i :: i in t.chunks ==> LinkOk(t, t.chunks[i]) && LinkOk(t', t'.chunks[i]);
    forall v ensures HistoryMatches(t', v) {
      assert HistoryMatches(t, v);
      assert ChunksOf(t', v) == ChunksOf(t, v);
    }
  }
}
