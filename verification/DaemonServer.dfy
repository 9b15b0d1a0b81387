/** The boot code and the credential handlers as methods over the shared objects; each is one step of Daemon. */
module DaemonServer {
  import opened Text
  import opened SessionModel
  import opened SessionManager
  import opened Daemon

  /** The tables that survive a restart. */
  class Disk {
    var vault: Option<Vault>
    var actions: map<Digest, ActionRow>
    const table: SessionTable

    constructor (table: SessionTable)
      ensures vault == None && actions == map[] && this.table == table
    {
      vault, actions, this.table := None, map[], table;
    }
  }

  /** assertEncryptionMode: a vault row fixes the encryption setting for ever. */
  method AssertEncryptionMode(disk: Disk, encryption: bool, readOk: bool) returns (ok: bool)
    ensures ok <==> readOk && (disk.vault.None? || disk.vault.value.encrypted == encryption)
  {
    if !readOk { return false; }
    ok := disk.vault.None? || disk.vault.value.encrypted == encryption;
  }

  /** initAuthMode: purges rows or fills the shared key, according to the vault's mode. */
  method BootAuthMode(disk: Disk, state: SharedKey, password: Option<string>, io: Io) returns (ok: bool)
    requires state.id == 0 && state.dek == NoKey
    modifies disk.table, state
    ensures var r := InitAuthMode(disk.vault, old(disk.table.rows), password, io);
      && ok == r.Some?
      && (ok ==> disk.table.rows == r.value.0 && state.View() == r.value.1)
      && (!ok ==> disk.table.rows == old(disk.table.rows))
  {
    if !io.vaultOk { return false; }
    if disk.vault.None? { return true; }
    var v := disk.vault.value;
    state.id := v.id;
    if v.authMode == "session" || v.authMode == "" {
      if !io.writeOk { return false; }
      disk.table.PurgeVault(v.id);
      return true;
    } else if v.authMode == "auto_unlock" {
      if !v.encrypted { return true; }
      if password.None? || v.wrapped.None? { return false; }
      var dek := Unwrap(v.wrapped.value, password.value);
      if dek.None? { return false; }
      state.dek := dek.value;
      return true;
    }
    return false;
  }

  class Server {
    const encryption: bool
    const disk: Disk
    const sess: Manager

    ghost predicate Valid()
      reads this, sess, sess.sessions.Values
    {
      sess.table == disk.table && sess.Valid()
    }

    ghost function View(): World
      reads this, disk, sess, sess.table, sess.state
    {
      var m := sess.Abs();
      World(disk.vault, m.rows, disk.actions, Some(Process(encryption, m.cache, m.state)))
    }

    constructor (encryption: bool, disk: Disk, sess: Manager)
      requires sess.table == disk.table && sess.Valid()
      ensures this.encryption == encryption && this.disk == disk && this.sess == sess && Valid()
    {
      this.encryption, this.disk, this.sess := encryption, disk, sess;
    }

    method VaultInit(password: string, authMode: string, newId: nat, newDek: Dek, io: Io) returns (code: nat)
      requires Valid()
      modifies disk
      ensures Valid()
      ensures (View(), Status(code)) == InitStep(old(View()), password, authMode, newId, newDek, io)
    {
      if !io.vaultOk { return 500; }
      if disk.vault.Some? { return 409; }
      if encryption && Blank(password) { return 400; }
      var mode := if TrimSpace(authMode) == "" then "session" else TrimSpace(authMode);
      if mode != "session" && mode != "auto_unlock" { return 400; }
      if !io.writeOk { return 500; }
      var wrapped := if encryption then Some(Wrapped(password, newDek)) else None;
      ghost var before := View();
      disk.vault := Some(Vault(newId, encryption, mode, wrapped));
      assert View() == before.(vault := disk.vault);
      code := 201;
    }

    method VaultUnlock(password: string, token: string, now: Time, io: Io) returns (code: nat)
      requires Valid()
      modifies sess, sess.table, sess.state
      ensures Valid()
      ensures (View(), Status(code)) == UnlockStep(old(View()), sess.lifetimes, password, token, now, io)
    {
      if !io.vaultOk || disk.vault.None? { return 404; }
      var v := disk.vault.value;
      if v.authMode == "api_keys" { return 409; }
      var dek := NoKey;
      if v.encrypted {
        if Blank(password) { return 400; }
        if v.wrapped.None? { return 500; }
        var unwrapped := Unwrap(v.wrapped.value, password);
        if unwrapped.None? { return 401; }
        dek := unwrapped.value;
      }
      var ok := sess.CreateSession(token, v.id, dek, now, io.writeOk);
      code := if ok then 200 else 500;
    }

    method VaultLock(h: Headers) returns (code: nat)
      requires Valid()
      modifies sess, sess.table
      ensures Valid()
      ensures (View(), Status(code)) == LockStep(old(View()), h)
    {
      var token := SessionFromRequest(h);
      if token == "" { return 401; }
      sess.Invalidate(token);
      code := 204;
    }

    /** sess.Touch as one step of the daemon. */
    method TouchSession(token: string, now: Time) returns (g: Grant)
      requires Valid()
      modifies sess, sess.sessions.Values, sess.table
      ensures Valid()
      ensures (View(), g) == TouchStep(old(View()), sess.lifetimes, token, now)
    {
      var granted, err := sess.Touch(token, now);
      g := if granted.Some? then Granted(granted.value.View()) else Denied(err);
    }

    method ActionTokenVault(raw: string, now: Time) returns (vault: Option<nat>)
      ensures vault == if ActionLive(View(), raw, now) then Some(disk.actions[Sha256(raw)].vault) else None
    {
      if Sha256(raw) in disk.actions && disk.actions[Sha256(raw)].expiresAt > now {
        return Some(disk.actions[Sha256(raw)].vault);
      }
      return None;
    }

    method RequireVaultAuth(h: Headers, now: Time, io: Io) returns (r: Response)
      requires Valid()
      modifies sess, sess.sessions.Values, sess.table
      ensures Valid()
      ensures (View(), r) == AuthorizeStep(old(View()), sess.lifetimes, h, now, io)
    {
      if h.bearer.Some? {
        var raw := TrimSpace(h.bearer.value);
        var g := TouchSession(raw, now);
        if g.Granted? { return Authorized(g.session.vault, g.session.dek); }
        if !io.tokenOk { return BackendFailed; }
        var vid := ActionTokenVault(raw, now);
        if vid.None? { return AuthFailed(ErrUnauthorized); }
        if !io.vaultOk { return BackendFailed; }
        if disk.vault.None? || disk.vault.value.id != vid.value || disk.vault.value.encrypted {
          return AuthFailed(ErrUnauthorized);
        }
        return Authorized(vid.value, NoKey);
      }
      var token := SessionFromRequest(h);
      if token == "" { return AuthFailed(ErrUnauthorized); }
      var g := TouchSession(token, now);
      r := if g.Denied? then AuthFailed(g.err) else Authorized(g.session.vault, g.session.dek);
    }

    method MintActionToken(h: Headers, raw: string, now: Time, expiresAt: Time, io: Io) returns (r: Response)
      requires Valid()
      modifies disk, sess, sess.sessions.Values, sess.table
      ensures Valid()
      ensures (View(), r) == MintActionStep(old(View()), sess.lifetimes, h, raw, now, expiresAt, io)
    {
      var token := SessionFromRequest(h);
      if token == "" { return AuthFailed(ErrUnauthorized); }
      var g := TouchSession(token, now);
      if g.Denied? { return AuthFailed(g.err); }
      var vid := g.session.vault;
      if io.vaultOk && disk.vault.Some? && disk.vault.value.id == vid && disk.vault.value.encrypted {
        return Status(400);
      }
      if !io.writeOk { return Status(500); }
      disk.actions := disk.actions[Sha256(raw) := ActionRow(vid, expiresAt)];
      r := Status(201);
    }
  }

  /** gvsvd start-up: nothing of the previous process survives but the disk. */
  method Start(disk: Disk, lifetimes: Lifetimes, encryption: bool, password: Option<string>, io: Io)
    returns (server: Option<Server>)
    modifies disk.table
    ensures var w0 := World(disk.vault, old(disk.table.rows), disk.actions, None);
      var (w, r) := BootStep(w0, encryption, password, io);
      && server.Some? == (r == Status(200))
      && (server.Some? ==> fresh(server.value) && server.value.Valid() && server.value.disk == disk
                           && server.value.sess.lifetimes == lifetimes && server.value.View() == w)
      && (server.None? ==> disk.table.rows == w.rows)
  {
    var ok := AssertEncryptionMode(disk, encryption, io.vaultOk);
    if !ok { return None; }
    var state := new SharedKey();
    ok := BootAuthMode(disk, state, password, io);
    if !ok { return None; }
    var sess := new Manager(lifetimes, disk.table, state);
    var s := new Server(encryption, disk, sess);
    server := Some(s);
  }
}
