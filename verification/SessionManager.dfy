/** The session manager and its table as the mutable objects of the original. Each method is proved
    to do exactly what SessionModel says, so the theorems there speak about these objects. */
module SessionManager {
  import opened Text
  import opened SessionModel

  /** The `sessions` table. */
  class SessionTable {
    var rows: map<Digest, Row>

    constructor ()
      ensures rows == map[]
    {
      rows := map[];
    }

    method Insert(th: Digest, vault: nat, now: Time, expiresAt: Time, maxUntil: Time, insertOk: bool)
      returns (ok: bool)
      modifies this
      ensures ok == (insertOk && th !in old(rows))
      ensures rows == if ok then old(rows)[th := Row(vault, now, now, expiresAt, maxUntil)] else old(rows)
    {
      ok := insertOk && th !in rows;
      if ok { rows := rows[th := Row(vault, now, now, expiresAt, maxUntil)]; }
    }

    method Get(th: Digest) returns (row: Option<Row>)
      ensures row == if th in rows then Some(rows[th]) else None
    {
      row := if th in rows then Some(rows[th]) else None;
    }

    /** UPDATE ... WHERE token_hash = th: no row, no effect; max_until is never rewritten. */
    method Touch(th: Digest, lastSeen: Time, expiresAt: Time)
      modifies this
      ensures rows == if th in old(rows)
                      then old(rows)[th := old(rows)[th].(lastSeen := lastSeen, expiresAt := expiresAt)]
                      else old(rows)
    {
      if th in rows {
        rows := rows[th := rows[th].(lastSeen := lastSeen, expiresAt := expiresAt)];
      }
    }

    method Delete(th: Digest)
      modifies this
      ensures rows == old(rows) - {th}
    {
      rows := rows - {th};
    }

    method PurgeVault(vault: nat)
      modifies this
      ensures rows == map h | h in old(rows) && old(rows)[h].vault != vault :: old(rows)[h]
    {
      rows := map h | h in rows && rows[h].vault != vault :: rows[h];
    }
  }

  /** VaultState: one object shared by the manager and the boot code. */
  class SharedKey {
    var id: nat
    var dek: Dek

    constructor ()
      ensures id == 0 && dek == NoKey
    {
      id, dek := 0, NoKey;
    }

    /** The first key to arrive stays. */
    method FillIfEmpty(vault: nat, key: Dek)
      modifies this
      ensures View() == if old(dek) == NoKey && key != NoKey then VaultKey(vault, key) else old(View())
    {
      if dek == NoKey && key != NoKey {
        dek := key;
        id := vault;
      }
    }

    function View(): VaultKey reads this { VaultKey(id, dek) }
  }

  /** One in-memory session; Touch updates lastSeen and expiresAt in place. */
  class Session {
    var expiresAt: Time
    var lastSeen: Time
    const vault: nat
    const dek: Dek
    const maxUntil: Time
    const idle: int
    const tokenHash: Digest

    constructor (e: Entry, tokenHash: Digest)
      ensures View() == e && this.tokenHash == tokenHash
    {
      vault, dek, idle := e.vault, e.dek, e.idle;
      expiresAt, maxUntil, lastSeen := e.expiresAt, e.maxUntil, e.lastSeen;
      this.tokenHash := tokenHash;
    }

    function View(): Entry reads this { Entry(vault, dek, expiresAt, maxUntil, lastSeen, idle) }
  }

  class Manager {
    var sessions: map<string, Session>
    const lifetimes: Lifetimes
    const table: SessionTable
    const state: SharedKey
    ghost var cache: map<string, Entry>  // the values of the sessions

    /** Each session carries the digest of its token, so no two tokens share a session object. */
    ghost predicate Valid()
      reads this, sessions.Values
    {
      && cache.Keys == sessions.Keys
      && (forall t :: t in sessions ==> sessions[t].tokenHash == Sha256(t))
      && (forall t :: t in sessions ==> cache[t] == sessions[t].View())
    }

    ghost function Abs(): Machine
      reads this, table, state
    {
      Machine(cache, table.rows, state.View())
    }

    constructor (lifetimes: Lifetimes, table: SessionTable, state: SharedKey)
      ensures Valid() && sessions == map[]
      ensures this.lifetimes == lifetimes && this.table == table && this.state == state
      ensures Abs() == Machine(map[], table.rows, state.View())
    {
      this.sessions, this.lifetimes, this.table, this.state := map[], lifetimes, table, state;
      this.cache := map[];
    }

    /** Only the session of one token may have been replaced, by a new object. */
    twostate predicate KeepsOthers(before: map<string, Session>, token: string)
      reads this
    {
      forall t :: t in sessions ==>
        (t in before && sessions[t] == before[t]) || (t == token && fresh(sessions[t]))
    }

    method Remember(token: string, s: Session)
      requires Valid() && s.tokenHash == Sha256(token)
      modifies this
      ensures Valid()
      ensures sessions == old(sessions)[token := s] && cache == old(cache)[token := s.View()]
    {
      sessions := sessions[token := s];
      cache := cache[token := s.View()];
    }

    method Forget(token: string)
      requires Valid()
      modifies this
      ensures Valid()
      ensures sessions == old(sessions) - {token} && cache == old(cache) - {token}
    {
      sessions := sessions - {token};
      cache := cache - {token};
    }

    /** Updates a session in place; it is shared with every caller that was handed it. */
    method Refresh(token: string, now: Time)
      requires Valid() && token in sessions
      modifies this`cache, sessions[token]
      ensures Valid()
      ensures cache == old(cache)[token := old(cache)[token].(lastSeen := now, expiresAt := now + sessions[token].idle)]
    {
      var s := sessions[token];
      s.lastSeen := now;
      s.expiresAt := now + s.idle;
      cache := cache[token := s.View()];
    }

    /** The random token is a parameter. */
    method CreateSession(token: string, vault: nat, dek: Dek, now: Time, insertOk: bool) returns (ok: bool)
      requires Valid()
      modifies this, table, state
      ensures Valid()
      ensures (Abs(), ok) == Create(old(Abs()), lifetimes, token, vault, dek, now, insertOk)
      ensures KeepsOthers(old(sessions), token)
    {
      var th := Sha256(token);
      var expiresAt := now + lifetimes.idle;
      var maxUntil := now + lifetimes.max;
      ok := table.Insert(th, vault, now, expiresAt, maxUntil, insertOk);
      if ok {
        var s := new Session(Entry(vault, dek, expiresAt, maxUntil, now, lifetimes.idle), th);
        Remember(token, s);
        state.FillIfEmpty(vault, dek);
      }
    }

    /** Extends a session in place and writes its new times through. */
    method RefreshHeld(token: string, now: Time)
      requires Valid() && token in sessions
      modifies this`cache, sessions[token], table
      ensures Valid()
      ensures var e := old(cache)[token].(lastSeen := now, expiresAt := now + sessions[token].idle);
        cache == old(cache)[token := e] && sessions[token].View() == e
      ensures var th, rows := Sha256(token), old(table.rows);
        table.rows == if th in rows
                      then rows[th := rows[th].(lastSeen := now, expiresAt := now + sessions[token].idle)]
                      else rows
    {
      Refresh(token, now);
      table.Touch(Sha256(token), sessions[token].lastSeen, sessions[token].expiresAt);
    }

    /** The critical section and write-through of Touch, for a session the cache holds. */
    method ExtendHeld(token: string, now: Time) returns (granted: Option<Session>)
      requires Valid() && token in sessions
      modifies this, sessions.Values, table
      ensures Valid()
      ensures var (m, g) := Extend(old(Abs()), token, now);
        && Abs() == m
        && granted.Some? == g.Granted?
        && (g.Granted? ==> granted.value.View() == g.session && token in sessions && sessions[token] == granted.value)
      ensures sessions == if granted.Some? then old(sessions) else old(sessions) - {token}
    {
      var s := sessions[token];
      if now > s.maxUntil || now - s.lastSeen > s.idle {
        Forget(token);
        table.Delete(Sha256(token));
        return None;
      }
      RefreshHeld(token, now);
      granted := Some(s);
    }

    method Touch(token: string, now: Time) returns (granted: Option<Session>, err: AuthError)
      requires Valid()
      modifies this, sessions.Values, table
      ensures Valid()
      ensures var (m, g) := SessionModel.Touch(old(Abs()), lifetimes, token, now);
        && Abs() == m
        && granted.Some? == g.Granted?
        && (g.Granted? ==> granted.value.View() == g.session)
        && (g.Denied? ==> err == g.err)
      ensures granted.Some? ==> token in sessions && sessions[token] == granted.value
      ensures KeepsOthers(old(sessions), token)
    {
      granted, err := None, ErrUnauthorized;
      if token == "" { return; }
      if token !in sessions {
        var th := Sha256(token);
        var row := table.Get(th);
        if row.None? { return; }
        if now > row.value.maxUntil || now - row.value.lastSeen > lifetimes.idle {
          table.Delete(th);
          err := ErrVaultLocked;
          return;
        }
        var filled := new Session(Filled(row.value, lifetimes, state.dek), th);
        Remember(token, filled);
      }
      granted := ExtendHeld(token, now);
      err := ErrVaultLocked;
    }

    method Invalidate(token: string)
      requires Valid()
      modifies this, table
      ensures Valid()
      ensures Abs() == SessionModel.Invalidate(old(Abs()), token)
      ensures sessions == old(sessions) - {token}
    {
      Forget(token);
      table.Delete(Sha256(token));
    }

    method InvalidateAll()
      requires Valid()
      modifies this
      ensures Valid()
      ensures Abs() == SessionModel.InvalidateAll(old(Abs()))
    {
      sessions := map[];
      cache := map[];
    }
  }
}
