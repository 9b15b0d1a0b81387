/** The daemon across restarts: the vault row, the sessions and action-token tables that survive a
    restart, and the process state that does not. Every handler that creates, uses or revokes a
    credential is one event; so is a boot. */
module Daemon {
  import opened Text
  import opened SessionModel

  /** The data key wrapped under a password: authenticated encryption, so only that password opens it. */
  datatype Wrapped = Wrapped(password: string, dek: Dek)

  function Unwrap(w: Wrapped, password: string): Option<Dek> {
    if w.password == password then Some(w.dek) else None
  }

  datatype Vault = Vault(id: nat, encrypted: bool, authMode: string, wrapped: Option<Wrapped>)

  datatype ActionRow = ActionRow(vault: nat, expiresAt: Time)

  datatype Process = Process(encryption: bool, cache: map<string, Entry>, state: VaultKey)

  /** proc is None while the daemon is down or has refused to start. */
  datatype World = World(
    vault: Option<Vault>,
    rows: map<Digest, Row>,
    actions: map<Digest, ActionRow>,
    proc: Option<Process>)

  const EMPTY: World := World(None, map[], map[], None)

  /** bearer: the Authorization header after its "Bearer " prefix, if it has one. */
  datatype Headers = Headers(bearer: Option<string>, ghostSession: string)

  /** Which store calls of an event work, those of the session manager's Touch and Invalidate aside: reads of
      the vault row, lookups of action tokens, and inserts or purges. */
  datatype Io = Io(vaultOk: bool, tokenOk: bool, writeOk: bool)

  const ALL_OK: Io := Io(true, true, true)

  datatype Event =
    | Boot(encryption: bool, password: Option<string>, io: Io)
    | Init(initPassword: string, authMode: string, newId: nat, newDek: Dek, io: Io)
    | Unlock(unlockPassword: string, token: string, now: Time, io: Io)
    | Lock(headers: Headers)
    | MintAction(headers: Headers, raw: string, now: Time, expiresAt: Time, io: Io)
    | Authorize(headers: Headers, now: Time, io: Io)

  /** Status carries the HTTP code of the handler's answer. */
  datatype Response =
    | Down
    | Refused
    | Status(code: nat)
    | Authorized(vault: nat, dek: Dek)
    | AuthFailed(err: AuthError)
    | BackendFailed

  // ---- Boot ----

  function MachineOf(w: World): Machine
    requires w.proc.Some?
  {
    Machine(w.proc.value.cache, w.rows, w.proc.value.state)
  }

  function WithMachine(w: World, m: Machine): World
    requires w.proc.Some?
  {
    w.(rows := m.rows, proc := Some(w.proc.value.(cache := m.cache, state := m.state)))
  }

  function Fresh(encryption: bool, state: VaultKey): Option<Process> {
    Some(Process(encryption, map[], state))
  }

  function PurgeVault(rows: map<Digest, Row>, vault: nat): map<Digest, Row> {
    map h | h in rows && rows[h].vault != vault :: rows[h]
  }

  /** initAuthMode on the table and the shared key: None when the daemon refuses to start. */
  function InitAuthMode(vault: Option<Vault>, rows: map<Digest, Row>, password: Option<string>, io: Io)
    : Option<(map<Digest, Row>, VaultKey)>
  {
    if !io.vaultOk then None
    else if vault.None? then Some((rows, VaultKey(0, NoKey)))
    else
      var v := vault.value;
      if v.authMode == "session" || v.authMode == "" then
        if io.writeOk then Some((PurgeVault(rows, v.id), VaultKey(v.id, NoKey))) else None
      else if v.authMode == "auto_unlock" then
        if !v.encrypted then Some((rows, VaultKey(v.id, NoKey)))
        else if password.None? || v.wrapped.None? then None
        else
          var dek := Unwrap(v.wrapped.value, password.value);
          if dek.None? then None else Some((rows, VaultKey(v.id, dek.value)))
      else None
  }

  function BootStep(w: World, encryption: bool, password: Option<string>, io: Io): (World, Response) {
    if !io.vaultOk then (w.(proc := None), Refused)
    else if w.vault.Some? && w.vault.value.encrypted != encryption then (w.(proc := None), Refused)
    else
      var r := InitAuthMode(w.vault, w.rows, password, io);
      if r.None? then (w.(proc := None), Refused)
      else (w.(rows := r.value.0, proc := Fresh(encryption, r.value.1)), Status(200))
  }

  // ---- Handlers ----

  function SessionFromRequest(h: Headers): string {
    if h.ghostSession != "" then h.ghostSession
    else if h.bearer.Some? then TrimSpace(h.bearer.value)
    else ""
  }

  function InitStep(w: World, password: string, authMode: string, newId: nat, newDek: Dek, io: Io): (World, Response)
    requires w.proc.Some?
  {
    var mode := if TrimSpace(authMode) == "" then "session" else TrimSpace(authMode);
    if !io.vaultOk then (w, Status(500))
    else if w.vault.Some? then (w, Status(409))
    else if w.proc.value.encryption && Blank(password) then (w, Status(400))
    else if mode != "session" && mode != "auto_unlock" then (w, Status(400))
    else if !io.writeOk then (w, Status(500))
    else
      var wrapped := if w.proc.value.encryption then Some(Wrapped(password, newDek)) else None;
      (w.(vault := Some(Vault(newId, w.proc.value.encryption, mode, wrapped))), Status(201))
  }

  function MintSession(w: World, lt: Lifetimes, vault: nat, dek: Dek, token: string, now: Time, insertOk: bool)
    : (World, Response)
    requires w.proc.Some?
  {
    var (m, ok) := Create(MachineOf(w), lt, token, vault, dek, now, insertOk);
    (WithMachine(w, m), Status(if ok then 200 else 500))
  }

  function UnlockStep(w: World, lt: Lifetimes, password: string, token: string, now: Time, io: Io): (World, Response)
    requires w.proc.Some?
  {
    if !io.vaultOk || w.vault.None? then (w, Status(404))
    else
      var v := w.vault.value;
      if v.authMode == "api_keys" then (w, Status(409))
      else if !v.encrypted then MintSession(w, lt, v.id, NoKey, token, now, io.writeOk)
      else if Blank(password) then (w, Status(400))
      else if v.wrapped.None? then (w, Status(500))
      else
        var dek := Unwrap(v.wrapped.value, password);
        if dek.None? then (w, Status(401)) else MintSession(w, lt, v.id, dek.value, token, now, io.writeOk)
  }

  function LockStep(w: World, h: Headers): (World, Response)
    requires w.proc.Some?
  {
    var token := SessionFromRequest(h);
    if token == "" then (w, Status(401))
    else (WithMachine(w, Invalidate(MachineOf(w), token)), Status(204))
  }

  function TouchStep(w: World, lt: Lifetimes, token: string, now: Time): (World, Grant)
    requires w.proc.Some?
  {
    var (m, g) := Touch(MachineOf(w), lt, token, now);
    (WithMachine(w, m), g)
  }

  /** A failing read of the vault row lets the mint go on; the token opens nothing on an encrypted vault. */
  function MintActionStep(w: World, lt: Lifetimes, h: Headers, raw: string, now: Time, expiresAt: Time, io: Io)
    : (World, Response)
    requires w.proc.Some?
  {
    var token := SessionFromRequest(h);
    if token == "" then (w, AuthFailed(ErrUnauthorized))
    else
      var (w1, g) := TouchStep(w, lt, token, now);
      if g.Denied? then (w1, AuthFailed(g.err))
      else if io.vaultOk && w1.vault.Some? && w1.vault.value.id == g.session.vault && w1.vault.value.encrypted then
        (w1, Status(400))
      else if !io.writeOk then (w1, Status(500))
      else (w1.(actions := w1.actions[Sha256(raw) := ActionRow(g.session.vault, expiresAt)]), Status(201))
  }

  predicate ActionLive(w: World, raw: string, now: Time) {
    Sha256(raw) in w.actions && w.actions[Sha256(raw)].expiresAt > now
  }

  /** requireVaultAuth: a session first, then (for a bearer, on a plaintext vault) an action token. */
  function AuthorizeStep(w: World, lt: Lifetimes, h: Headers, now: Time, io: Io): (World, Response)
    requires w.proc.Some?
  {
    if h.bearer.Some? then
      var raw := TrimSpace(h.bearer.value);
      var (w1, g) := TouchStep(w, lt, raw, now);
      if g.Granted? then (w1, Authorized(g.session.vault, g.session.dek))
      else if !io.tokenOk then (w1, BackendFailed)
      else if !ActionLive(w1, raw, now) then (w1, AuthFailed(ErrUnauthorized))
      else
        var vid := w1.actions[Sha256(raw)].vault;
        if !io.vaultOk then (w1, BackendFailed)
        else if w1.vault.None? || w1.vault.value.id != vid || w1.vault.value.encrypted then
          (w1, AuthFailed(ErrUnauthorized))
        else (w1, Authorized(vid, NoKey))
    else
      var token := SessionFromRequest(h);
      if token == "" then (w, AuthFailed(ErrUnauthorized))
      else
        var (w1, g) := TouchStep(w, lt, token, now);
        if g.Denied? then (w1, AuthFailed(g.err)) else (w1, Authorized(g.session.vault, g.session.dek))
  }

  function Step(w: World, lt: Lifetimes, e: Event): (World, Response) {
    if e.Boot? then BootStep(w, e.encryption, e.password, e.io)
    else if w.proc.None? then (w, Down)
    else
      match e
      case Init(p, mode, id, dek, io) => InitStep(w, p, mode, id, dek, io)
      case Unlock(p, token, now, io) => UnlockStep(w, lt, p, token, now, io)
      case Lock(h) => LockStep(w, h)
      case MintAction(h, raw, now, exp, io) => MintActionStep(w, lt, h, raw, now, exp, io)
      case Authorize(h, now, io) => AuthorizeStep(w, lt, h, now, io)
  }

  function Run(w: World, lt: Lifetimes, es: seq<Event>): (World, seq<Response>)
    decreases |es|
  {
    if es == [] then (w, [])
    else
      var (w1, r) := Step(w, lt, es[0]);
      var (w2, rs) := Run(w1, lt, es[1..]);
      (w2, [r] + rs)
  }

  // ---- What every run keeps ----

  /** What the random sources deliver: tokens are 64 hex digits, data keys 32 bytes. */
  predicate Sourced(e: Event) {
    && (e.Unlock? ==> e.token != "")
    && (e.Init? ==> e.newDek != NoKey)
  }

  predicate AllSourced(es: seq<Event>) {
    forall i :: 0 <= i < |es| ==> Sourced(es[i])
  }

  /** The key every session of the vault must carry: its data key, or none on a plaintext vault. */
  function VaultDek(v: Vault): Dek {
    if v.encrypted && v.wrapped.Some? then v.wrapped.value.dek else NoKey
  }

  predicate DiskOk(w: World) {
    match w.vault
    case None => w.rows == map[] && w.actions == map[]
    case Some(v) =>
      && (forall h :: h in w.rows ==> w.rows[h].vault == v.id)
      && (v.encrypted ==> VaultDek(v) != NoKey)
      && (v.authMode == "session" || v.authMode == "auto_unlock")
  }

  predicate ProcOk(w: World, lt: Lifetimes)
    requires w.proc.Some?
  {
    var p := w.proc.value;
    && Coupled(MachineOf(w), lt)
    && (w.vault.None? ==> p.state.dek == NoKey)
    && (w.vault.Some? ==>
          var k := VaultDek(w.vault.value);
          && p.encryption == w.vault.value.encrypted
          && (p.state.dek == NoKey || p.state.dek == k)
          && (w.rows != map[] ==> p.state.dek == k)
          && (forall t :: t in p.cache ==> p.cache[t].dek == k))
  }

  predicate Inv(w: World, lt: Lifetimes) {
    DiskOk(w) && (w.proc.Some? ==> ProcOk(w, lt))
  }

  lemma TouchKeepsInv(w: World, lt: Lifetimes, token: string, now: Time)
    requires Inv(w, lt) && w.proc.Some?
    ensures var (w', g) := TouchStep(w, lt, token, now);
      && Inv(w', lt)
      && (g.Granted? ==>
            w.vault.Some? && g.session.vault == w.vault.value.id && g.session.dek == VaultDek(w.vault.value))
  {
    var m := MachineOf(w);
    StepRefinesTable(m, lt, OpTouch(token, now));
  }

  lemma MintKeepsInv(w: World, lt: Lifetimes, token: string, now: Time, insertOk: bool)
    requires Inv(w, lt) && w.proc.Some? && w.vault.Some? && token != ""
    ensures Inv(MintSession(w, lt, w.vault.value.id, VaultDek(w.vault.value), token, now, insertOk).0, lt)
  {
    StepRefinesTable(MachineOf(w), lt, OpCreate(token, w.vault.value.id, VaultDek(w.vault.value), now, insertOk));
  }

  lemma InitKeepsInv(w: World, lt: Lifetimes, e: Event)
    requires Inv(w, lt) && w.proc.Some? && e.Init? && Sourced(e)
    ensures Inv(InitStep(w, e.initPassword, e.authMode, e.newId, e.newDek, e.io).0, lt)
  {
    assert MachineOf(InitStep(w, e.initPassword, e.authMode, e.newId, e.newDek, e.io).0) == MachineOf(w);
  }

  lemma LockKeepsInv(w: World, lt: Lifetimes, h: Headers)
    requires Inv(w, lt) && w.proc.Some?
    ensures Inv(LockStep(w, h).0, lt)
  {
    StepRefinesTable(MachineOf(w), lt, OpInvalidate(SessionFromRequest(h)));
  }

  lemma MintActionKeepsInv(w: World, lt: Lifetimes, h: Headers, raw: string, now: Time, expiresAt: Time, io: Io)
    requires Inv(w, lt) && w.proc.Some?
    ensures Inv(MintActionStep(w, lt, h, raw, now, expiresAt, io).0, lt)
  {
    var token := SessionFromRequest(h);
    TouchKeepsInv(w, lt, token, now);
    var (w1, g) := TouchStep(w, lt, token, now);
    assert Inv(w1, lt) && w1.proc.Some?;
    var w2 := w1.(actions := w1.actions[Sha256(raw) := ActionRow(0, expiresAt)]);
    assert MachineOf(w2) == MachineOf(w1);
  }

  lemma UnlockKeepsInv(w: World, lt: Lifetimes, password: string, token: string, now: Time, io: Io)
    requires Inv(w, lt) && w.proc.Some? && token != ""
    ensures Inv(UnlockStep(w, lt, password, token, now, io).0, lt)
  {
    if w.vault.Some? { MintKeepsInv(w, lt, token, now, io.writeOk); }
  }

  lemma AuthorizeKeepsInv(w: World, lt: Lifetimes, h: Headers, now: Time, io: Io)
    requires Inv(w, lt) && w.proc.Some?
    ensures Inv(AuthorizeStep(w, lt, h, now, io).0, lt)
  {
    TouchKeepsInv(w, lt, if h.bearer.Some? then TrimSpace(h.bearer.value) else SessionFromRequest(h), now);
  }

  lemma BootKeepsInv(w: World, lt: Lifetimes, encryption: bool, password: Option<string>, io: Io)
    requires Inv(w, lt)
    ensures Inv(BootStep(w, encryption, password, io).0, lt)
  {
  }

  lemma StepKeepsInv(w: World, lt: Lifetimes, e: Event)
    requires Inv(w, lt) && Sourced(e)
    ensures Inv(Step(w, lt, e).0, lt)
  {
    if e.Boot? {
      BootKeepsInv(w, lt, e.encryption, e.password, e.io);
    } else if w.proc.Some? {
      match e
      case Init(_, _, _, _, _) => InitKeepsInv(w, lt, e);
      case Unlock(p, token, now, io) => UnlockKeepsInv(w, lt, p, token, now, io);
      case Lock(h) => LockKeepsInv(w, lt, h);
      case MintAction(h, raw, now, exp, io) => MintActionKeepsInv(w, lt, h, raw, now, exp, io);
      case Authorize(h, now, io) => AuthorizeKeepsInv(w, lt, h, now, io);
    }
  }

  lemma {:induction false} RunKeepsInv(w: World, lt: Lifetimes, es: seq<Event>)
    requires Inv(w, lt) && AllSourced(es)
    ensures Inv(Run(w, lt, es).0, lt)
    decreases |es|
  {
    if es != [] {
      StepKeepsInv(w, lt, es[0]);
      RunKeepsInv(Step(w, lt, es[0]).0, lt, es[1..]);
    }
  }

  // ---- Every accepted request carries the vault's key ----

  /** The engine's refusal to work without a key on an encrypted deployment. */
  predicate EngineRefuses(encryption: bool, dek: Dek) {
    encryption && dek == NoKey
  }

  predicate CarriesVaultKey(w: World, r: Response) {
    r.Authorized? ==>
      && w.proc.Some? && w.vault.Some?
      && r.vault == w.vault.value.id
      && r.dek == VaultDek(w.vault.value)
      && (w.vault.value.encrypted ==> r.dek != NoKey)
      && !EngineRefuses(w.proc.value.encryption, r.dek)
  }

  lemma AuthorizeStepCarriesKey(w: World, lt: Lifetimes, h: Headers, now: Time, io: Io)
    requires Inv(w, lt) && w.proc.Some?
    ensures CarriesVaultKey(w, AuthorizeStep(w, lt, h, now, io).1)
  {
    TouchKeepsInv(w, lt, if h.bearer.Some? then TrimSpace(h.bearer.value) else SessionFromRequest(h), now);
  }

  /** After any run, boots included, a granted request is for the one vault and holds its data key,
      so the engine never refuses it. */
  lemma AuthorizedCarriesVaultKey(lt: Lifetimes, es: seq<Event>, h: Headers, now: Time, io: Io)
    requires AllSourced(es)
    ensures var w := Run(EMPTY, lt, es).0; CarriesVaultKey(w, Step(w, lt, Authorize(h, now, io)).1)
  {
    var w := Run(EMPTY, lt, es).0;
    assert Inv(w, lt) by { RunKeepsInv(EMPTY, lt, es); }
    AuthorizeInInvCarriesKey(w, lt, h, now, io);
  }

  lemma AuthorizeInInvCarriesKey(w: World, lt: Lifetimes, h: Headers, now: Time, io: Io)
    requires Inv(w, lt)
    ensures CarriesVaultKey(w, Step(w, lt, Authorize(h, now, io)).1)
  {
    StepOfAuthorize(w, lt, h, now, io);
    if w.proc.Some? { AuthorizeStepCarriesKey(w, lt, h, now, io); }
  }

  lemma StepOfAuthorize(w: World, lt: Lifetimes, h: Headers, now: Time, io: Io)
    ensures Step(w, lt, Authorize(h, now, io)) == if w.proc.None? then (w, Down) else AuthorizeStep(w, lt, h, now, io)
  {
  }

  // ---- The encryption setting is for ever ----

  lemma StepKeepsVault(w: World, lt: Lifetimes, e: Event)
    requires w.vault.Some?
    ensures Step(w, lt, e).0.vault == w.vault
  {
  }

  lemma {:induction false} RunKeepsVault(w: World, lt: Lifetimes, es: seq<Event>)
    requires w.vault.Some?
    ensures Run(w, lt, es).0.vault == w.vault
    decreases |es|
  {
    if es != [] {
      StepKeepsVault(w, lt, es[0]);
      RunKeepsVault(Step(w, lt, es[0]).0, lt, es[1..]);
    }
  }

  /** Once a vault exists, no later run, whatever it boots with, changes it or serves it under the other
      encryption setting. */
  lemma EncryptionIsForEver(lt: Lifetimes, es: seq<Event>, fs: seq<Event>)
    requires AllSourced(es) && AllSourced(fs) && Run(EMPTY, lt, es).0.vault.Some?
    ensures var v := Run(EMPTY, lt, es).0.vault;
      var w := Run(Run(EMPTY, lt, es).0, lt, fs).0;
      w.vault == v && (w.proc.Some? ==> w.proc.value.encryption == v.value.encrypted)
  {
    var w1 := Run(EMPTY, lt, es).0;
    RunKeepsInv(EMPTY, lt, es);
    RunKeepsVault(w1, lt, fs);
    RunKeepsInv(w1, lt, fs);
  }

  // ---- session mode: a restart revokes every session ----

  predicate MintsToken(e: Event, token: string) {
    e.Unlock? && e.token == token
  }

  predicate Rowless(w: World, v: Option<Vault>, token: string) {
    Sha256(token) !in w.rows && w.vault == v
  }

  lemma TouchKeepsRowless(w: World, lt: Lifetimes, t: string, now: Time, token: string)
    requires Inv(w, lt) && w.proc.Some? && Rowless(w, w.vault, token)
    ensures Rowless(TouchStep(w, lt, t, now).0, w.vault, token)
  {
    StepRefinesTable(MachineOf(w), lt, OpTouch(t, now));
  }

  lemma AuthorizeKeepsRowless(w: World, lt: Lifetimes, h: Headers, now: Time, io: Io, token: string)
    requires Inv(w, lt) && w.proc.Some? && Rowless(w, w.vault, token)
    ensures Rowless(AuthorizeStep(w, lt, h, now, io).0, w.vault, token)
  {
    TouchKeepsRowless(w, lt, if h.bearer.Some? then TrimSpace(h.bearer.value) else SessionFromRequest(h), now, token);
  }

  lemma MintActionKeepsRowless(
      w: World, lt: Lifetimes, h: Headers, raw: string, now: Time, exp: Time, io: Io, token: string)
    requires Inv(w, lt) && w.proc.Some? && Rowless(w, w.vault, token)
    ensures Rowless(MintActionStep(w, lt, h, raw, now, exp, io).0, w.vault, token)
  {
    TouchKeepsRowless(w, lt, SessionFromRequest(h), now, token);
  }

  lemma UnlockKeepsRowless(w: World, lt: Lifetimes, password: string, t: string, now: Time, io: Io, token: string)
    requires w.proc.Some? && Rowless(w, w.vault, token) && t != token
    ensures Rowless(UnlockStep(w, lt, password, t, now, io).0, w.vault, token)
  {
  }

  lemma StepKeepsRowless(w: World, lt: Lifetimes, e: Event, token: string)
    requires Inv(w, lt) && !MintsToken(e, token) && w.vault.Some? && Rowless(w, w.vault, token)
    ensures Rowless(Step(w, lt, e).0, w.vault, token)
  {
    if !e.Boot? && w.proc.Some? {
      match e
      case Init(_, _, _, _, _) =>
      case Unlock(p, t, now, io) => UnlockKeepsRowless(w, lt, p, t, now, io, token);
      case Lock(h) =>
      case MintAction(h, raw, now, exp, io) => MintActionKeepsRowless(w, lt, h, raw, now, exp, io, token);
      case Authorize(h, now, io) => AuthorizeKeepsRowless(w, lt, h, now, io, token);
    }
  }

  lemma {:induction false} RunKeepsRowless(w: World, lt: Lifetimes, es: seq<Event>, token: string)
    requires Inv(w, lt) && AllSourced(es) && w.vault.Some?
    requires forall i :: 0 <= i < |es| ==> !MintsToken(es[i], token)
    requires Rowless(w, w.vault, token)
    ensures Rowless(Run(w, lt, es).0, w.vault, token)
    decreases |es|
  {
    if es != [] {
      StepKeepsInv(w, lt, es[0]);
      StepKeepsRowless(w, lt, es[0], token);
      RunKeepsRowless(Step(w, lt, es[0]).0, lt, es[1..], token);
    }
  }

  /** On a `session` vault, a token minted before a boot and not after it opens no session ever again,
      in whatever run follows. As a bearer it is still accepted exactly when the vault is plaintext and
      the same string is a live action token: those survive the restart. */
  lemma SessionBootRevokesTokens(
      w: World, lt: Lifetimes, encryption: bool, password: Option<string>, io: Io, es: seq<Event>,
      token: string, now: Time, later: Io)
    requires Inv(w, lt) && w.vault.Some? && w.vault.value.authMode == "session"
    requires BootStep(w, encryption, password, io).1 == Status(200)
    requires AllSourced(es) && forall i :: 0 <= i < |es| ==> !MintsToken(es[i], token)
    requires Run(BootStep(w, encryption, password, io).0, lt, es).0.proc.Some?
    requires Trimmed(token) && token != ""
    ensures var w' := Run(BootStep(w, encryption, password, io).0, lt, es).0;
      && Step(w', lt, Authorize(Headers(None, token), now, later)).1 == AuthFailed(ErrUnauthorized)
      && (Step(w', lt, Authorize(Headers(Some(token), ""), now, later)).1.Authorized? <==>
            && later.tokenOk && later.vaultOk
            && !w.vault.value.encrypted && ActionLive(w', token, now)
            && w'.actions[Sha256(token)].vault == w.vault.value.id)
  {
    BootKeepsInv(w, lt, encryption, password, io);
    var w1 := BootStep(w, encryption, password, io).0;
    RunKeepsInv(w1, lt, es);
    RunKeepsRowless(w1, lt, es, token);
    var w' := Run(w1, lt, es).0;
    TrimIsIdentityOnTrimmed(token);
    StepRefinesTable(MachineOf(w'), lt, OpTouch(token, now));
  }

  const DEMO: seq<Event> := [
    Boot(false, None, ALL_OK),
    Init("", "session", 1, Key(1), ALL_OK),
    Unlock("", "s", 0, ALL_OK),
    MintAction(Headers(None, "s"), "a", 0, 9, ALL_OK),
    Boot(false, None, ALL_OK)]

  /** The world after DEMO: the session row is gone, the action token is not. */
  const AFTER_DEMO: World :=
    World(Some(Vault(1, false, "session", None)), map[], map[Sha256("a") := ActionRow(1, 9)],
          Some(Process(false, map[], VaultKey(1, NoKey))))

  lemma DemoWithSession(lt: Lifetimes) returns (w: World)
    ensures w == Run(EMPTY, lt, DEMO[..3]).0
    ensures w.vault == AFTER_DEMO.vault && w.actions == map[]
    ensures w.proc == Some(Process(false, map["s" := Entry(1, NoKey, lt.idle, lt.max, 0, lt.idle)], VaultKey(0, NoKey)))
    ensures w.rows == map[Sha256("s") := Row(1, 0, 0, lt.idle, lt.max)]
  {
    TrimIsIdentityOnTrimmed("session");
    var w1 := Step(EMPTY, lt, DEMO[0]).0;
    assert w1 == World(None, map[], map[], Some(Process(false, map[], VaultKey(0, NoKey))));
    var w2 := Step(w1, lt, DEMO[1]).0;
    assert w2 == w1.(vault := AFTER_DEMO.vault);
    w := Step(w2, lt, DEMO[2]).0;
    RunCons(w2, lt, DEMO[2], []);
    RunCons(w1, lt, DEMO[1], [DEMO[2]]);
    RunCons(EMPTY, lt, DEMO[0], [DEMO[1], DEMO[2]]);
    assert DEMO[..3] == [DEMO[0]] + ([DEMO[1]] + ([DEMO[2]] + []));
  }

  lemma DemoMintsAction(w: World, lt: Lifetimes)
    requires lt.idle >= 0 && lt.max >= 0
    requires w.vault == AFTER_DEMO.vault && w.actions == map[]
    requires w.proc ==
      Some(Process(false, map["s" := Entry(1, NoKey, lt.idle, lt.max, 0, lt.idle)], VaultKey(0, NoKey)))
    requires forall h :: h in w.rows ==> w.rows[h].vault == 1
    ensures var w' := Step(w, lt, DEMO[3]).0;
      && w'.vault == w.vault && w'.actions == AFTER_DEMO.actions && w'.proc.Some?
      && forall h :: h in w'.rows ==> w'.rows[h].vault == 1
  {
    assert SessionFromRequest(Headers(None, "s")) == "s";
    assert TouchStep(w, lt, "s", 0).1 == Granted(Entry(1, NoKey, lt.idle, lt.max, 0, lt.idle));
  }

  lemma DemoReboots(w: World, lt: Lifetimes)
    requires w.vault == AFTER_DEMO.vault && w.actions == AFTER_DEMO.actions
    requires forall h :: h in w.rows ==> w.rows[h].vault == 1
    ensures Step(w, lt, DEMO[4]).0 == AFTER_DEMO
  {
    assert PurgeVault(w.rows, 1) == map[];
  }

  lemma DemoReachesAfterDemo(lt: Lifetimes)
    requires lt.idle >= 0 && lt.max >= 0
    ensures Run(EMPTY, lt, DEMO).0 == AFTER_DEMO && AllSourced(DEMO)
  {
    var w3 := DemoWithSession(lt);
    DemoMintsAction(w3, lt);
    var w4 := Step(w3, lt, DEMO[3]).0;
    DemoReboots(w4, lt);
    RunCons(w4, lt, DEMO[4], []);
    RunCons(w3, lt, DEMO[3], [DEMO[4]]);
    RunAppend(EMPTY, lt, DEMO[..3], [DEMO[3], DEMO[4]]);
    assert DEMO == DEMO[..3] + ([DEMO[3]] + ([DEMO[4]] + []));
  }

  /** The documentation says a restart invalidates all outstanding bearers in `session` mode; an action
      token on a plaintext vault is one it does not. */
  lemma ActionTokenOutlivesSessionBoot(lt: Lifetimes)
    requires lt.idle >= 0 && lt.max >= 0
    ensures AllSourced(DEMO)
    ensures var w := Run(EMPTY, lt, DEMO).0;
      && Step(w, lt, Authorize(Headers(Some("s"), ""), 1, ALL_OK)).1 == AuthFailed(ErrUnauthorized)
      && Step(w, lt, Authorize(Headers(Some("a"), ""), 1, ALL_OK)).1 == Authorized(1, NoKey)
  {
    DemoReachesAfterDemo(lt);
    TrimIsIdentityOnTrimmed("s");
    TrimIsIdentityOnTrimmed("a");
    StepOfAuthorize(AFTER_DEMO, lt, Headers(Some("s"), ""), 1, ALL_OK);
    StepOfAuthorize(AFTER_DEMO, lt, Headers(Some("a"), ""), 1, ALL_OK);
  }

  lemma {:induction false} RunAppend(w: World, lt: Lifetimes, es: seq<Event>, fs: seq<Event>)
    ensures Run(w, lt, es + fs).0 == Run(Run(w, lt, es).0, lt, fs).0
    decreases |es|
  {
    if es == [] {
      assert es + fs == fs;
    } else {
      assert es + fs == [es[0]] + (es[1..] + fs) && es == [es[0]] + es[1..];
      RunCons(w, lt, es[0], es[1..] + fs);
      RunCons(w, lt, es[0], es[1..]);
      RunAppend(Step(w, lt, es[0]).0, lt, es[1..], fs);
    }
  }

  lemma RunCons(w: World, lt: Lifetimes, e: Event, es: seq<Event>)
    ensures Run(w, lt, [e] + es).0 == Run(Step(w, lt, e).0, lt, es).0
  {
    assert ([e] + es)[1..] == es;
  }

  // ---- auto_unlock: a restart changes nothing a client can see ----

  /** Same disk and same configuration; caches and unlock state may differ. */
  predicate SameDisk(w1: World, w2: World) {
    && w1.vault == w2.vault && w1.rows == w2.rows && w1.actions == w2.actions
    && w1.proc.Some? == w2.proc.Some?
    && (w1.proc.Some? ==> w1.proc.value.encryption == w2.proc.value.encryption)
  }

  lemma TouchBisim(w1: World, w2: World, lt: Lifetimes, token: string, now: Time)
    requires Inv(w1, lt) && Inv(w2, lt) && SameDisk(w1, w2) && w1.proc.Some?
    ensures var (v1, g1) := TouchStep(w1, lt, token, now); var (v2, g2) := TouchStep(w2, lt, token, now);
      SameDisk(v1, v2) && g1 == g2 && v1.proc.Some?
  {
    StepRefinesTable(MachineOf(w1), lt, OpTouch(token, now));
    StepRefinesTable(MachineOf(w2), lt, OpTouch(token, now));
    TouchKeepsInv(w1, lt, token, now);
    TouchKeepsInv(w2, lt, token, now);
    TouchKeepsIdle(MachineOf(w1), lt, token, now);
    TouchKeepsIdle(MachineOf(w2), lt, token, now);
  }

  lemma TouchKeepsIdle(m: Machine, lt: Lifetimes, token: string, now: Time)
    requires Coupled(m, lt)
    ensures var g := Touch(m, lt, token, now).1; g.Granted? ==> g.session.idle == lt.idle
  {
  }

  lemma AuthorizeBisim(w1: World, w2: World, lt: Lifetimes, h: Headers, now: Time, io: Io)
    requires Inv(w1, lt) && Inv(w2, lt) && SameDisk(w1, w2) && w1.proc.Some?
    ensures var (v1, r1) := AuthorizeStep(w1, lt, h, now, io); var (v2, r2) := AuthorizeStep(w2, lt, h, now, io);
      SameDisk(v1, v2) && r1 == r2
  {
    TouchBisim(w1, w2, lt, if h.bearer.Some? then TrimSpace(h.bearer.value) else SessionFromRequest(h), now);
  }

  lemma MintActionBisim(w1: World, w2: World, lt: Lifetimes, h: Headers, raw: string, now: Time, exp: Time, io: Io)
    requires Inv(w1, lt) && Inv(w2, lt) && SameDisk(w1, w2) && w1.proc.Some?
    ensures var (v1, r1) := MintActionStep(w1, lt, h, raw, now, exp, io);
      var (v2, r2) := MintActionStep(w2, lt, h, raw, now, exp, io);
      SameDisk(v1, v2) && r1 == r2
  {
    TouchBisim(w1, w2, lt, SessionFromRequest(h), now);
  }

  lemma MintSessionBisim(
      w1: World, w2: World, lt: Lifetimes, vault: nat, dek: Dek, token: string, now: Time, insertOk: bool)
    requires SameDisk(w1, w2) && w1.proc.Some?
    ensures var (v1, r1) := MintSession(w1, lt, vault, dek, token, now, insertOk);
      var (v2, r2) := MintSession(w2, lt, vault, dek, token, now, insertOk);
      SameDisk(v1, v2) && r1 == r2
  {
  }

  lemma UnlockBisim(w1: World, w2: World, lt: Lifetimes, password: string, token: string, now: Time, io: Io)
    requires SameDisk(w1, w2) && w1.proc.Some?
    ensures var (v1, r1) := UnlockStep(w1, lt, password, token, now, io);
      var (v2, r2) := UnlockStep(w2, lt, password, token, now, io);
      SameDisk(v1, v2) && r1 == r2
  {
    if w1.vault.Some? {
      var v := w1.vault.value;
      MintSessionBisim(w1, w2, lt, v.id, NoKey, token, now, io.writeOk);
      if v.wrapped.Some? { MintSessionBisim(w1, w2, lt, v.id, v.wrapped.value.dek, token, now, io.writeOk); }
    }
  }

  lemma StepBisim(w1: World, w2: World, lt: Lifetimes, e: Event)
    requires Inv(w1, lt) && Inv(w2, lt) && SameDisk(w1, w2)
    ensures var (v1, r1) := Step(w1, lt, e); var (v2, r2) := Step(w2, lt, e);
      SameDisk(v1, v2) && r1 == r2
  {
    if !e.Boot? && w1.proc.Some? {
      match e
      case Init(_, _, _, _, _) =>
      case Unlock(p, token, now, io) => UnlockBisim(w1, w2, lt, p, token, now, io);
      case Lock(h) =>
      case MintAction(h, raw, now, exp, io) => MintActionBisim(w1, w2, lt, h, raw, now, exp, io);
      case Authorize(h, now, io) => AuthorizeBisim(w1, w2, lt, h, now, io);
    }
  }

  lemma {:induction false} RunBisim(w1: World, w2: World, lt: Lifetimes, es: seq<Event>)
    requires Inv(w1, lt) && Inv(w2, lt) && SameDisk(w1, w2) && AllSourced(es)
    ensures Run(w1, lt, es).1 == Run(w2, lt, es).1
    decreases |es|
  {
    if es != [] {
      StepBisim(w1, w2, lt, es[0]);
      StepKeepsInv(w1, lt, es[0]);
      StepKeepsInv(w2, lt, es[0]);
      RunBisim(Step(w1, lt, es[0]).0, Step(w2, lt, es[0]).0, lt, es[1..]);
    }
  }

  /** On an `auto_unlock` vault a successful boot changes no later response, data keys included. */
  lemma AutoUnlockBootIsUnobservable(
      w: World, lt: Lifetimes, encryption: bool, password: Option<string>, io: Io, es: seq<Event>)
    requires Inv(w, lt) && w.proc.Some? && w.vault.Some? && w.vault.value.authMode == "auto_unlock"
    requires BootStep(w, encryption, password, io).1 == Status(200)
    requires AllSourced(es)
    ensures Run(BootStep(w, encryption, password, io).0, lt, es).1 == Run(w, lt, es).1
  {
    BootKeepsInv(w, lt, encryption, password, io);
    RunBisim(BootStep(w, encryption, password, io).0, w, lt, es);
  }
}
