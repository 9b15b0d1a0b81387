/** Which credentials open the vault: the password of its creation, a session until it is locked, an action
    token until it expires. */
module CredentialLaws {
  import opened Text
  import opened SessionModel
  import opened Daemon

  // ---- The password ----

  /** The request that created the vault, if one of the run did. */
  function FirstInit(w: World, lt: Lifetimes, es: seq<Event>): Option<Event>
    decreases |es|
  {
    if es == [] then None
    else if es[0].Init? && Daemon.Step(w, lt, es[0]).1 == Status(201) then Some(es[0])
    else FirstInit(Daemon.Step(w, lt, es[0]).0, lt, es[1..])
  }

  /** v is as the request e asked for it: on an encrypted vault its key can be had with e's password only. */
  predicate VaultOfInit(v: Vault, e: Event) {
    && e.Init? && v.id == e.newId
    && v.authMode == (if TrimSpace(e.authMode) == "" then "session" else TrimSpace(e.authMode))
    && (if v.encrypted then !Blank(e.initPassword) && v.wrapped == Some(Wrapped(e.initPassword, e.newDek))
        else v.wrapped == None)
  }

  lemma StepMakesVault(w: World, lt: Lifetimes, e: Event)
    requires w.vault.None?
    ensures var (w', r) := Daemon.Step(w, lt, e);
      if e.Init? && r == Status(201) then w'.vault.Some? && VaultOfInit(w'.vault.value, e) else w'.vault.None?
  {
  }

  /** The vault of a run is that of the one request that created it. */
  lemma {:induction false} VaultIsOfInit(w: World, lt: Lifetimes, es: seq<Event>)
    requires w.vault.None?
    ensures var v, e := Daemon.Run(w, lt, es).0.vault, FirstInit(w, lt, es);
      v.Some? == e.Some? && (v.Some? ==> VaultOfInit(v.value, e.value))
    decreases |es|
  {
    if es != [] {
      StepMakesVault(w, lt, es[0]);
      var w1 := Daemon.Step(w, lt, es[0]).0;
      if w1.vault.Some? { RunKeepsVault(w1, lt, es[1..]); } else { VaultIsOfInit(w1, lt, es[1..]); }
    }
  }

  /** A session of the vault with this key is stored and cached for the token. */
  predicate OpensWith(w: World, token: string, vault: nat, dek: Dek) {
    && w.proc.Some? && token in w.proc.value.cache && Sha256(token) in w.rows
    && w.proc.value.cache[token].vault == vault && w.proc.value.cache[token].dek == dek
    && w.rows[Sha256(token)].vault == vault
  }

  /** Only the password of the creation e answers 200, and opens with the key made then; others change nothing. */
  predicate UnlockAnswer(w: World, e: Event, p: string, token: string, w': World, r: Response)
    requires e.Init?
  {
    && (r == Status(200) <==> p == e.initPassword)
    && (r == Status(200) ==> OpensWith(w', token, e.newId, e.newDek))
    && (r == Status(401) <==> p != e.initPassword && !Blank(p))
    && (r == Status(400) <==> Blank(p))
    && (r != Status(200) ==> w' == w)
  }

  /** After any run, an encrypted vault is unlocked by exactly the password of the request that created it, and
      then the new session holds the key made at the creation. Any other password changes nothing. */
  lemma UnlockNeedsThePassword(lt: Lifetimes, es: seq<Event>, p: string, token: string, now: Time)
    requires AllSourced(es) && token != ""
    requires var w := Daemon.Run(EMPTY, lt, es).0;
      w.proc.Some? && w.vault.Some? && w.vault.value.encrypted && Sha256(token) !in w.rows
    ensures FirstInit(EMPTY, lt, es).Some? && FirstInit(EMPTY, lt, es).value.Init?
    ensures var w, e := Daemon.Run(EMPTY, lt, es).0, FirstInit(EMPTY, lt, es).value;
      var (w', r) := Daemon.Step(w, lt, Unlock(p, token, now, ALL_OK));
      UnlockAnswer(w, e, p, token, w', r)
  {
    VaultIsOfInit(EMPTY, lt, es);
    var w := Daemon.Run(EMPTY, lt, es).0;
    RunKeepsInv(EMPTY, lt, es);
    var e := FirstInit(EMPTY, lt, es).value;
    assert VaultOfInit(w.vault.value, e);
    UnlockOfWrapped(w, lt, e, p, token, now);
  }

  lemma UnlockOfWrapped(w: World, lt: Lifetimes, e: Event, p: string, token: string, now: Time)
    requires Inv(w, lt) && w.proc.Some? && w.vault.Some? && w.vault.value.encrypted && VaultOfInit(w.vault.value, e)
    requires token != "" && Sha256(token) !in w.rows
    ensures var (w', r) := Daemon.Step(w, lt, Unlock(p, token, now, ALL_OK));
      UnlockAnswer(w, e, p, token, w', r)
  {
    assert w.vault.value.authMode != "api_keys";
  }

  /** A plaintext vault needs no password. */
  lemma PlaintextUnlocksFreely(w: World, lt: Lifetimes, p: string, token: string, now: Time)
    requires Inv(w, lt) && w.proc.Some? && w.vault.Some? && !w.vault.value.encrypted
    requires token != "" && Sha256(token) !in w.rows
    ensures var (w', r) := Daemon.Step(w, lt, Unlock(p, token, now, ALL_OK));
      r == Status(200) && OpensWith(w', token, w.vault.value.id, NoKey)
  {
    assert w.vault.value.authMode != "api_keys";
  }

  // ---- Locking ----

  /** Lock answers 204 and removes the presented session and no other; in whatever run follows the token opens
      nothing unless it is minted again. */
  lemma LockIsFinal(w: World, lt: Lifetimes, h: Headers, es: seq<Event>, now: Time, io: Io)
    requires Inv(w, lt) && w.proc.Some? && w.vault.Some? && SessionFromRequest(h) != "" && AllSourced(es)
    requires forall i :: 0 <= i < |es| ==> !MintsToken(es[i], SessionFromRequest(h))
    requires Daemon.Run(Daemon.Step(w, lt, Lock(h)).0, lt, es).0.proc.Some?
    ensures var (w1, r) := Daemon.Step(w, lt, Lock(h));
      r == Status(204) && w1.rows == w.rows - {Sha256(SessionFromRequest(h))}
    ensures var w' := Daemon.Run(Daemon.Step(w, lt, Lock(h)).0, lt, es).0;
      Daemon.Step(w', lt, Authorize(Headers(None, SessionFromRequest(h)), now, io)).1 == AuthFailed(ErrUnauthorized)
  {
    var token := SessionFromRequest(h);
    var w1 := Daemon.Step(w, lt, Lock(h)).0;
    StepKeepsInv(w, lt, Lock(h));
    RunKeepsInv(w1, lt, es);
    RunKeepsRowless(w1, lt, es, token);
    RowlessIsRefused(Daemon.Run(w1, lt, es).0, lt, token, now, io);
  }

  lemma RowlessIsRefused(w: World, lt: Lifetimes, token: string, now: Time, io: Io)
    requires Inv(w, lt) && w.proc.Some? && Rowless(w, w.vault, token) && token != ""
    ensures TouchStep(w, lt, token, now).1 == Denied(ErrUnauthorized)
    ensures Daemon.Step(w, lt, Authorize(Headers(None, token), now, io)).1 == AuthFailed(ErrUnauthorized)
  {
    StepRefinesTable(MachineOf(w), lt, OpTouch(token, now));
  }

  // ---- Action tokens ----

  predicate MintsAction(e: Event, raw: string) {
    e.MintAction? && e.raw == raw
  }

  lemma StepKeepsAction(w: World, lt: Lifetimes, e: Event, raw: string)
    requires Sha256(raw) in w.actions && !MintsAction(e, raw)
    ensures var w' := Daemon.Step(w, lt, e).0;
      Sha256(raw) in w'.actions && w'.actions[Sha256(raw)] == w.actions[Sha256(raw)]
  {
  }

  lemma {:induction false} RunKeepsAction(w: World, lt: Lifetimes, es: seq<Event>, raw: string)
    requires Sha256(raw) in w.actions && forall i :: 0 <= i < |es| ==> !MintsAction(es[i], raw)
    ensures var w' := Daemon.Run(w, lt, es).0;
      Sha256(raw) in w'.actions && w'.actions[Sha256(raw)] == w.actions[Sha256(raw)]
    decreases |es|
  {
    if es != [] {
      StepKeepsAction(w, lt, es[0], raw);
      RunKeepsAction(Daemon.Step(w, lt, es[0]).0, lt, es[1..], raw);
    }
  }

  /** A mint that answers 201 stores the token for the one vault. */
  lemma MintStores(w: World, lt: Lifetimes, e: Event)
    requires Inv(w, lt) && w.proc.Some? && e.MintAction? && Daemon.Step(w, lt, e).1 == Status(201)
    ensures var w1 := Daemon.Step(w, lt, e).0;
      && w.vault.Some? && w1.vault == w.vault && w1.rows.Keys <= w.rows.Keys
      && Sha256(e.raw) in w1.actions
      && w1.actions[Sha256(e.raw)] == ActionRow(w.vault.value.id, e.expiresAt)
  {
    TouchKeepsInv(w, lt, SessionFromRequest(e.headers), e.now);
  }

  lemma BearerOfAction(w: World, lt: Lifetimes, raw: string, now: Time)
    requires Inv(w, lt) && w.proc.Some? && w.vault.Some? && Trimmed(raw) && raw != ""
    requires Rowless(w, w.vault, raw) && Sha256(raw) in w.actions
    requires w.actions[Sha256(raw)].vault == w.vault.value.id
    ensures var r := Daemon.Step(w, lt, Authorize(Headers(Some(raw), ""), now, ALL_OK)).1;
      if now < w.actions[Sha256(raw)].expiresAt && !w.vault.value.encrypted
      then r == Authorized(w.vault.value.id, NoKey) else r == AuthFailed(ErrUnauthorized)
  {
    TrimIsIdentityOnTrimmed(raw);
    RowlessIsRefused(w, lt, raw, now, ALL_OK);
    StepOfAuthorize(w, lt, Headers(Some(raw), ""), now, ALL_OK);
  }

  /** An action token, minted and not minted again, opens a plaintext vault before its expiry and never from
      then on, whatever happens in between, restarts included; an encrypted vault it never opens. */
  lemma ActionTokenOpensUntilExpiry(w: World, lt: Lifetimes, e: Event, es: seq<Event>, now: Time)
    requires Inv(w, lt) && w.proc.Some? && e.MintAction? && Daemon.Step(w, lt, e).1 == Status(201)
    requires Trimmed(e.raw) && e.raw != "" && Sha256(e.raw) !in w.rows && AllSourced(es)
    requires forall i :: 0 <= i < |es| ==> !MintsAction(es[i], e.raw) && !MintsToken(es[i], e.raw)
    requires Daemon.Run(Daemon.Step(w, lt, e).0, lt, es).0.proc.Some?
    ensures w.vault.Some?
    ensures var w' := Daemon.Run(Daemon.Step(w, lt, e).0, lt, es).0;
      var r := Daemon.Step(w', lt, Authorize(Headers(Some(e.raw), ""), now, ALL_OK)).1;
      if now < e.expiresAt && !w.vault.value.encrypted then r == Authorized(w.vault.value.id, NoKey)
      else r == AuthFailed(ErrUnauthorized)
  {
    MintStores(w, lt, e);
    var w1 := Daemon.Step(w, lt, e).0;
    StepKeepsInv(w, lt, e);
    RunKeepsInv(w1, lt, es);
    RunKeepsVault(w1, lt, es);
    RunKeepsRowless(w1, lt, es, e.raw);
    RunKeepsAction(w1, lt, es, e.raw);
    BearerOfAction(Daemon.Run(w1, lt, es).0, lt, e.raw, now);
  }

  // ---- Creation ----

  /** What the answer to a request for a vault is, and that only 201 changes anything. */
  lemma InitAnswers(w: World, lt: Lifetimes, p: string, mode: string, newId: nat, newDek: Dek)
    requires w.proc.Some?
    ensures var (w', r) := Daemon.Step(w, lt, Init(p, mode, newId, newDek, ALL_OK));
      var m := TrimSpace(mode);
      && (r == Status(409) <==> w.vault.Some?)
      && (r == Status(400) <==> w.vault.None? && ((w.proc.value.encryption && Blank(p))
                                                  || (m != "" && m != "session" && m != "auto_unlock")))
      && (r == Status(201) <==> r != Status(409) && r != Status(400))
      && (r == Status(201) ==> w'.vault.Some? && w'.vault.value.encrypted == w.proc.value.encryption)
      && (r != Status(201) ==> w' == w)
  {
  }

  // ---- Restart ----

  /** The start succeeds with the right configuration and password only; in auto_unlock mode it puts the key in
      memory and keeps the sessions, in session mode it purges them. */
  predicate BootAnswer(w: World, e: Event, encryption: bool, password: Option<string>, w': World, r: Response)
    requires w.vault.Some? && e.Init?
  {
    var v, auto := w.vault.value, w.vault.value.authMode == "auto_unlock";
    && (r == Status(200) <==> v.encrypted == encryption && (auto && v.encrypted ==> password == Some(e.initPassword)))
    && (r != Status(200) ==> r == Refused && w'.proc.None? && w'.rows == w.rows)
    && (r == Status(200) ==>
          && w'.rows == (if auto then w.rows else map[]) && w'.proc.Some?
          && w'.proc.value.encryption == encryption && w'.proc.value.cache == map[]
          && w'.proc.value.state == VaultKey(v.id, if auto && v.encrypted then e.newDek else NoKey))
  }

  /** After any run the daemon starts again exactly when it is configured as the vault is, and, in auto_unlock mode
      with encryption, with the password of the vault's creation; then the vault's key is in memory in that
      mode and in no other, and the sessions are kept in that mode and in no other. */
  lemma BootNeedsThePassword(lt: Lifetimes, es: seq<Event>, encryption: bool, password: Option<string>)
    requires AllSourced(es) && Daemon.Run(EMPTY, lt, es).0.vault.Some?
    ensures FirstInit(EMPTY, lt, es).Some? && FirstInit(EMPTY, lt, es).value.Init?
    ensures var w, e := Daemon.Run(EMPTY, lt, es).0, FirstInit(EMPTY, lt, es).value;
      var (w', r) := Daemon.Step(w, lt, Boot(encryption, password, ALL_OK));
      BootAnswer(w, e, encryption, password, w', r)
  {
    VaultIsOfInit(EMPTY, lt, es);
    RunKeepsInv(EMPTY, lt, es);
    var w := Daemon.Run(EMPTY, lt, es).0;
    assert VaultOfInit(w.vault.value, FirstInit(EMPTY, lt, es).value);
    BootOfVault(w, lt, FirstInit(EMPTY, lt, es).value, encryption, password);
  }

  lemma BootOfVault(w: World, lt: Lifetimes, e: Event, encryption: bool, password: Option<string>)
    requires Inv(w, lt) && w.vault.Some? && VaultOfInit(w.vault.value, e)
    ensures var (w', r) := BootStep(w, encryption, password, ALL_OK);
      BootAnswer(w, e, encryption, password, w', r)
  {
    var v := w.vault.value;
    if v.authMode == "session" {
      InitOfSessionMode(w, lt);
    } else {
      InitOfAutoUnlock(v, e, w.rows, password);
    }
  }

  lemma InitOfSessionMode(w: World, lt: Lifetimes)
    requires Inv(w, lt) && w.vault.Some? && w.vault.value.authMode == "session"
    ensures forall p :: InitAuthMode(w.vault, w.rows, p, ALL_OK) == Some((map[], VaultKey(w.vault.value.id, NoKey)))
  {
    assert PurgeVault(w.rows, w.vault.value.id) == map[];
  }

  lemma InitOfAutoUnlock(v: Vault, e: Event, rows: map<Digest, Row>, password: Option<string>)
    requires VaultOfInit(v, e) && v.authMode == "auto_unlock"
    ensures InitAuthMode(Some(v), rows, password, ALL_OK) ==
      if !v.encrypted then Some((rows, VaultKey(v.id, NoKey)))
      else if password == Some(e.initPassword) then Some((rows, VaultKey(v.id, e.newDek)))
      else None
  {
  }

  // ---- Sessions ----

  /** A session that the manager accepts opens the vault, as a bearer and in the session header alike, with the
      vault and key of the session; and nothing else does where there is no such action token. */
  lemma SessionOpens(w: World, lt: Lifetimes, token: string, now: Time, io: Io)
    requires w.proc.Some? && Trimmed(token) && token != ""
    ensures var g := TouchStep(w, lt, token, now).1;
      var inHeader := Daemon.Step(w, lt, Authorize(Headers(None, token), now, io)).1;
      var asBearer := Daemon.Step(w, lt, Authorize(Headers(Some(token), ""), now, io)).1;
      && inHeader == (if g.Granted? then Authorized(g.session.vault, g.session.dek) else AuthFailed(g.err))
      && (g.Granted? ==> asBearer == inHeader)
      && (g.Denied? && Sha256(token) !in w.actions && io.tokenOk ==> asBearer == AuthFailed(ErrUnauthorized))
      && (g.Denied? && !io.tokenOk ==> asBearer == BackendFailed)
  {
    TrimIsIdentityOnTrimmed(token);
  }

  /** An unlock that answers 200 gives a token that opens the vault with its key exactly within idle and max of
      the unlock. */
  lemma UnlockedOpensInTime(
      w: World, lt: Lifetimes, p: string, token: string, born: Time, now: Time, io: Io, later: Io)
    requires Inv(w, lt) && w.proc.Some? && w.vault.Some? && Trimmed(token) && token != ""
    requires Daemon.Step(w, lt, Unlock(p, token, born, io)).1 == Status(200)
    ensures var r := Daemon.Step(Daemon.Step(w, lt, Unlock(p, token, born, io)).0, lt,
                                 Authorize(Headers(None, token), now, later)).1;
      r == if now - born <= lt.max && now - born <= lt.idle
           then Authorized(w.vault.value.id, VaultDek(w.vault.value)) else AuthFailed(ErrVaultLocked)
  {
    var w1 := Daemon.Step(w, lt, Unlock(p, token, born, io)).0;
    UnlockedIsCached(w, lt, p, token, born, io);
    SessionOpens(w1, lt, token, now, later);
  }

  lemma UnlockedIsCached(w: World, lt: Lifetimes, p: string, token: string, born: Time, io: Io)
    requires Inv(w, lt) && w.proc.Some? && w.vault.Some? && token != ""
    requires Daemon.Step(w, lt, Unlock(p, token, born, io)).1 == Status(200)
    ensures var w1 := Daemon.Step(w, lt, Unlock(p, token, born, io)).0;
      && w1.proc.Some? && token in w1.proc.value.cache
      && w1.proc.value.cache[token] == Entry(w.vault.value.id, VaultDek(w.vault.value), born + lt.idle, born + lt.max,
                                             born, lt.idle)
  {
  }

  /** Space around a bearer does not matter, and the session header wins over a bearer where a session is needed. */
  lemma BearerIsTrimmed(w: World, lt: Lifetimes, b: string, raw: string, now: Time, expiresAt: Time, io: Io)
    requires w.proc.Some?
    ensures Daemon.Step(w, lt, Authorize(Headers(Some(b), ""), now, io))
            == Daemon.Step(w, lt, Authorize(Headers(Some(TrimSpace(b)), ""), now, io))
    ensures Daemon.Step(w, lt, Lock(Headers(Some(b), ""))) == Daemon.Step(w, lt, Lock(Headers(Some(TrimSpace(b)), "")))
    ensures Daemon.Step(w, lt, MintAction(Headers(Some(b), ""), raw, now, expiresAt, io))
            == Daemon.Step(w, lt, MintAction(Headers(Some(TrimSpace(b)), ""), raw, now, expiresAt, io))
  {
    TrimIsIdentityOnTrimmed(TrimSpace(b));
  }

  lemma SessionHeaderWins(
      w: World, lt: Lifetimes, b: string, token: string, raw: string, now: Time, expiresAt: Time, io: Io)
    requires w.proc.Some? && token != ""
    ensures Daemon.Step(w, lt, Lock(Headers(Some(b), token))) == Daemon.Step(w, lt, Lock(Headers(None, token)))
    ensures Daemon.Step(w, lt, MintAction(Headers(Some(b), token), raw, now, expiresAt, io))
            == Daemon.Step(w, lt, MintAction(Headers(None, token), raw, now, expiresAt, io))
  {
  }

  /** With an accepted session an action token is refused on an encrypted vault and stored on a plaintext one;
      without one nothing is stored. */
  lemma MintAnswers(w: World, lt: Lifetimes, h: Headers, raw: string, now: Time, expiresAt: Time)
    requires Inv(w, lt) && w.proc.Some?
    ensures var g := TouchStep(w, lt, SessionFromRequest(h), now).1;
      var (w', r) := Daemon.Step(w, lt, MintAction(h, raw, now, expiresAt, ALL_OK));
      && (g.Denied? ==> r == AuthFailed(g.err) && w'.actions == w.actions)
      && (g.Granted? ==> w.vault.Some?)
      && (g.Granted? && w.vault.value.encrypted ==> r == Status(400) && w'.actions == w.actions)
      && (g.Granted? && !w.vault.value.encrypted ==>
            r == Status(201) && w'.actions == w.actions[Sha256(raw) := ActionRow(w.vault.value.id, expiresAt)])
  {
    TouchKeepsInv(w, lt, SessionFromRequest(h), now);
  }
}
