/** The insert loop that structured, inferred and legacy ingest share: a list of rows to store, each with
    its content key, is deduplicated against itself and against the live chunks. */
module Drafts {
  import opened Text
  import opened ChunkFormat
  import opened Store

  /** One row about to be stored. sizeFirst: legacy chunks are size-checked before the duplicate check,
      structured ones after it. */
  datatype Draft = Draft(row: ChunkRow, plain: string, embedSrc: string, sizeFirst: bool)

  /** What the request runs under. The providers and the store may fail: the embedding of a text, the check
      for a live content key, the lookup of a document, the insert of a row. */
  datatype Env = Env(
    codec: Codec, encryption: bool, dek: Dek, maxBodyBytes: int, model: nat,
    embedOk: string -> bool, checkOk: Digest -> bool, lookupOk: Digest -> bool, insertOk: nat -> bool)

  predicate TooBig(env: Env, plain: string) {
    env.maxBodyBytes > 0 && Utf8Len(plain) > env.maxBodyBytes
  }

  datatype Ingested = Ingested(tables: Tables, ids: seq<nat>, ok: bool)

  predicate Exists(t: Tables, d: Draft) {
    LiveKey(t, d.row.vault, d.row.user, d.row.hash)
  }

  /** Whether the steps after the duplicate check go through for the next id. */
  predicate Storable(t: Tables, env: Env, d: Draft) {
    !TooBig(env, d.plain) && env.embedOk(d.embedSrc) && env.insertOk(t.nextId)
  }

  /** seen: the content keys met earlier in this request. */
  function IngestDrafts(t: Tables, env: Env, ds: seq<Draft>, seen: set<Digest>): Ingested
    decreases |ds|
  {
    if ds == [] then Ingested(t, [], true)
    else
      var d := ds[0];
      var seen' := seen + {d.row.hash};
      if d.row.hash in seen then IngestDrafts(t, env, ds[1..], seen)
      else if d.sizeFirst && TooBig(env, d.plain) then Ingested(t, [], false)
      else if !env.checkOk(d.row.hash) then Ingested(t, [], false)
      else if Exists(t, d) then IngestDrafts(t, env, ds[1..], seen')
      else if !Storable(t, env, d) then Ingested(t, [], false)
      else
        var r := IngestDrafts(WithChunk(t, d.row), env, ds[1..], seen');
        r.(ids := [t.nextId] + r.ids)
  }

  /** All drafts of a request are live rows for one vault and user. */
  predicate ForUser(ds: seq<Draft>, vault: nat, user: nat) {
    forall d :: d in ds ==> d.row.vault == vault && d.row.user == user && !d.row.deleted
  }

  function LiveHashes(t: Tables, vault: nat, user: nat): set<Digest> {
    set id | id in t.chunks && t.chunks[id].vault == vault && t.chunks[id].user == user && !t.chunks[id].deleted
      :: t.chunks[id].hash
  }

  lemma LiveHashesAre(t: Tables, vault: nat, user: nat, h: Digest)
    ensures h in LiveHashes(t, vault, user) <==> LiveKey(t, vault, user, h)
  {
    if LiveKey(t, vault, user, h) {
      var id :| id in t.chunks && IsLive(t.chunks[id], vault, user, h);
      assert t.chunks[id].hash in LiveHashes(t, vault, user);
    }
  }

  lemma LiveHashesAfterInsert(t: Tables, row: ChunkRow)
    requires Below(t) && !row.deleted
    ensures LiveHashes(WithChunk(t, row), row.vault, row.user) == LiveHashes(t, row.vault, row.user) + {row.hash}
  {
    var t' := WithChunk(t, row);
    var before, after := LiveHashes(t, row.vault, row.user), LiveHashes(t', row.vault, row.user);
    forall h | h in before ensures h in after {
      var id :| id in t.chunks && t.chunks[id].vault == row.vault && t.chunks[id].user == row.user
                && !t.chunks[id].deleted && t.chunks[id].hash == h;
      assert t'.chunks[id] == t.chunks[id];
    }
    assert t'.chunks[t.nextId] == row;
    forall h | h in after ensures h in before + {row.hash} {
      var id :| id in t'.chunks && t'.chunks[id].vault == row.vault && t'.chunks[id].user == row.user
                && !t'.chunks[id].deleted && t'.chunks[id].hash == h;
      if id != t.nextId { assert t.chunks[id].hash in before; }
    }
  }

  /** The distinct content keys of the drafts. */
  function Keys(ds: seq<Draft>): set<Digest> {
    set d | d in ds :: d.row.hash
  }

  lemma KeysCons(ds: seq<Draft>)
    requires ds != []
    ensures Keys(ds) == {ds[0].row.hash} + Keys(ds[1..])
  {
    assert ds == [ds[0]] + ds[1..];
    assert ds[0].row.hash in Keys(ds);
    forall h | h in Keys(ds[1..]) ensures h in Keys(ds) {
      var d :| d in ds[1..] && d.row.hash == h;
      assert d in ds;
    }
  }

  lemma ForUserTail(ds: seq<Draft>, vault: nat, user: nat)
    requires ds != [] && ForUser(ds, vault, user)
    ensures ForUser(ds[1..], vault, user) && ds[0] in ds
  {
  }

  lemma NewKeysStep<T>(keys: set<T>, rest: set<T>, live: set<T>, h: T)
    requires keys == {h} + rest
    ensures h in live ==> |keys - live| == |rest - live| && live + keys == live + rest
    ensures h !in live ==> |keys - live| == |rest - (live + {h})| + 1 && live + keys == (live + {h}) + rest
  {
    if h in live {
      assert keys - live == rest - live;
      assert live + keys == live + rest;
    } else {
      assert keys - live == (rest - (live + {h})) + {h};
      assert live + keys == (live + {h}) + rest;
    }
  }

  /** r, started from t, holds one new id for each key of ds that was not live, and all of them are live in it. */
  predicate Counted(t: Tables, r: Ingested, ds: seq<Draft>, vault: nat, user: nat) {
    && |r.ids| == |Keys(ds) - LiveHashes(t, vault, user)|
    && LiveHashes(r.tables, vault, user) == LiveHashes(t, vault, user) + Keys(ds)
  }

  lemma CountedSkip(t: Tables, r: Ingested, ds: seq<Draft>, vault: nat, user: nat)
    requires ds != [] && ds[0].row.hash in LiveHashes(t, vault, user)
    requires Counted(t, r, ds[1..], vault, user)
    ensures Counted(t, r, ds, vault, user)
  {
    KeysCons(ds);
    NewKeysStep(Keys(ds), Keys(ds[1..]), LiveHashes(t, vault, user), ds[0].row.hash);
  }

  lemma CountedInsert(t: Tables, r: Ingested, ds: seq<Draft>, vault: nat, user: nat)
    requires ds != [] && ds[0].row.hash !in LiveHashes(t, vault, user)
    requires Below(t) && ForUser(ds, vault, user)
    requires Counted(WithChunk(t, ds[0].row), r, ds[1..], vault, user)
    ensures Counted(t, r.(ids := [t.nextId] + r.ids), ds, vault, user)
  {
    ForUserTail(ds, vault, user);
    KeysCons(ds);
    LiveHashesAfterInsert(t, ds[0].row);
    NewKeysStep(Keys(ds), Keys(ds[1..]), LiveHashes(t, vault, user), ds[0].row.hash);
  }

  /** A successful request inserts one chunk for each distinct key that was not live (and not seen), and
      leaves every key of its drafts live. */
  lemma {:induction false} CountsNewKeys(t: Tables, env: Env, ds: seq<Draft>, seen: set<Digest>, vault: nat, user: nat)
    requires Below(t) && ForUser(ds, vault, user) && seen <= LiveHashes(t, vault, user)
    requires IngestDrafts(t, env, ds, seen).ok
    ensures Counted(t, IngestDrafts(t, env, ds, seen), ds, vault, user)
    decreases |ds|
  {
    if ds == [] {
      assert Keys(ds) == {};
      assert LiveHashes(t, vault, user) + {} == LiveHashes(t, vault, user);
    } else {
      var d, h := ds[0], ds[0].row.hash;
      ForUserTail(ds, vault, user);
      LiveHashesAre(t, vault, user, h);
      if h in seen {
        CountsNewKeys(t, env, ds[1..], seen, vault, user);
        CountedSkip(t, IngestDrafts(t, env, ds[1..], seen), ds, vault, user);
      } else if Exists(t, d) {
        CountsNewKeys(t, env, ds[1..], seen + {h}, vault, user);
        CountedSkip(t, IngestDrafts(t, env, ds[1..], seen + {h}), ds, vault, user);
      } else {
        var t1 := WithChunk(t, d.row);
        LiveHashesAfterInsert(t, d.row);
        CountsNewKeys(t1, env, ds[1..], seen + {h}, vault, user);
        CountedInsert(t, IngestDrafts(t1, env, ds[1..], seen + {h}), ds, vault, user);
      }
    }
  }

  /** Running the same drafts again, once all their keys are live, stores nothing and succeeds. */
  lemma {:induction false} RepeatStoresNothing(
      t: Tables, t': Tables, env: Env, ds: seq<Draft>, seen: set<Digest>, vault: nat, user: nat)
    requires ForUser(ds, vault, user) && Keys(ds) <= LiveHashes(t', vault, user)
    requires IngestDrafts(t, env, ds, seen).ok
    ensures IngestDrafts(t', env, ds, seen) == Ingested(t', [], true)
    decreases |ds|
  {
    if ds != [] {
      var h := ds[0].row.hash;
      ForUserTail(ds, vault, user);
      KeysCons(ds);
      LiveHashesAre(t', vault, user, h);
      if h in seen {
        RepeatStoresNothing(t, t', env, ds[1..], seen, vault, user);
      } else if Exists(t, ds[0]) {
        RepeatStoresNothing(t, t', env, ds[1..], seen + {h}, vault, user);
      } else {
        RepeatStoresNothing(WithChunk(t, ds[0].row), t', env, ds[1..], seen + {h}, vault, user);
      }
    }
  }

  /** Later inserts leave earlier rows, and all documents, alone. */
  predicate Grows(t: Tables, t': Tables) {
    && t'.docs == t.docs && t'.docIndex == t.docIndex && t.nextId <= t'.nextId
    && forall id :: id in t.chunks ==> id in t'.chunks && t'.chunks[id] == t.chunks[id]
  }

  predicate StoredFrom(t: Tables, ds: seq<Draft>, id: nat) {
    id in t.chunks && exists d :: d in ds && t.chunks[id] == d.row
  }

  /** Every id returned is a fresh row holding one of the drafts, whether or not the request succeeded. */
  lemma {:induction false} ReturnsStoredRows(t: Tables, env: Env, ds: seq<Draft>, seen: set<Digest>)
    requires Below(t)
    ensures var r := IngestDrafts(t, env, ds, seen);
      && Grows(t, r.tables) && Below(r.tables)
      && (forall id :: id in r.ids ==> id >= t.nextId && StoredFrom(r.tables, ds, id))
    decreases |ds|
  {
    if ds != [] {
      var d, h := ds[0], ds[0].row.hash;
      assert d in ds;
      var r := IngestDrafts(t, env, ds, seen);
      if h in seen {
        ReturnsStoredRows(t, env, ds[1..], seen);
        WidenStored(r, ds);
      } else if (d.sizeFirst && TooBig(env, d.plain)) || !env.checkOk(h) {
      } else if Exists(t, d) {
        ReturnsStoredRows(t, env, ds[1..], seen + {h});
        WidenStored(r, ds);
      } else if Storable(t, env, d) {
        var t1 := WithChunk(t, d.row);
        var r1 := IngestDrafts(t1, env, ds[1..], seen + {h});
        ReturnsStoredRows(t1, env, ds[1..], seen + {h});
        WidenStored(r1, ds);
        assert t1.chunks[t.nextId] == d.row && StoredFrom(r.tables, ds, t.nextId);
      }
    }
  }

  lemma WidenStored(r: Ingested, ds: seq<Draft>)
    requires ds != [] && forall id :: id in r.ids ==> StoredFrom(r.tables, ds[1..], id)
    ensures forall id :: id in r.ids ==> StoredFrom(r.tables, ds, id)
  {
    forall id | id in r.ids ensures StoredFrom(r.tables, ds, id) {
      var d :| d in ds[1..] && r.tables.chunks[id] == d.row;
      assert d in ds;
    }
  }

  /** The table invariant survives any request, successful or cut short. */
  lemma {:induction false} DraftsKeepInv(t: Tables, env: Env, ds: seq<Draft>, seen: set<Digest>, key: Dek)
    requires Inv(t, key)
    requires forall d :: d in ds ==> LinkOk(t, d.row) && !d.row.deleted
    ensures Inv(IngestDrafts(t, env, ds, seen).tables, key)
    decreases |ds|
  {
    if ds != [] {
      var d, h := ds[0], ds[0].row.hash;
      assert d in ds;
      if h in seen {
        DraftsKeepInv(t, env, ds[1..], seen, key);
      } else if (d.sizeFirst && TooBig(env, d.plain)) || !env.checkOk(h) {
      } else if Exists(t, d) {
        DraftsKeepInv(t, env, ds[1..], seen + {h}, key);
      } else if Storable(t, env, d) {
        InsertKeepsInv(t, key, d.row);
        DraftsKeepInv(WithChunk(t, d.row), env, ds[1..], seen + {h}, key);
      }
    }
  }
}
