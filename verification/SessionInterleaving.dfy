/** Touch, CreateSession and Invalidate as the critical sections they really are, run by any number of
    threads in any order, with InvalidateAll and restarts between them and with store writes that may fail.
    In-memory sessions are heap objects: two threads may hold the same one, or two different ones for
    one token. The clock does not run back, but a thread goes on with the time at which it began; a
    restart may come with other lifetimes. */
module SessionInterleaving {
  import opened Text
  import opened SessionModel

  /** One Session object; the token and maxUntil are fixed at allocation. */
  datatype Obj = Obj(token: string, maxUntil: Time, lastSeen: Time)

  /** The lifetimes columns of one row, keyed by token since hashing is injective. */
  datatype Stored = Stored(lastSeen: Time, maxUntil: Time)

  /** Where a thread is. Line numbers refer to internal/auth/session.go. */
  datatype Thread =
    | Starting(token: string, now: Time)                       // Touch, before 150
    | Missed(token: string, now: Time)                         // 154: not in the cache
    | RowLive(token: string, now: Time, row: Stored)           // 163: row read, not expired
    | Holding(token: string, now: Time, ref: nat)              // 187: has a session object
    | Deleting(token: string)                                  // 164, 192, 200, 220: row delete pending
    | Accepted(token: string, ref: nat)                        // 208: before the arguments are read
    | Writing(token: string, lastSeen: Time)                   // 209: before the UPDATE
    | Minting(token: string, now: Time)                        // CreateSession, before 116
    | Minted(token: string, now: Time)                         // 121: row inserted, cache not filled
    | Revoking(token: string)                                  // Invalidate, before 216

  /** When a token was minted, and the max lifetime of the process that minted it. */
  datatype Birth = Birth(at: Time, max: int)

  /** One acceptance, under the idle lifetime of the process that accepted. */
  datatype Acceptance = Acceptance(token: string, at: Time, idle: int)

  /** lt: the lifetimes of the running process. clock: the latest time at which a request began. created and
      accepted are the history: the birth of each token, and every acceptance in order. */
  datatype State = State(
    lt: Lifetimes,
    clock: Time,
    objs: seq<Obj>,
    cache: map<string, nat>,
    rows: map<string, Stored>,
    threads: map<nat, Thread>,
    created: map<string, Birth>,
    accepted: seq<Acceptance>)

  datatype Step =
    | Begin(id: nat, thread: Thread)
    | Advance(id: nat, storeOk: bool)    // one critical section or one statement of thread id
    | ClearCache                         // InvalidateAll
    // all threads, objects in the cache and (session mode) rows are gone
    | Restart(purge: bool, lt: Lifetimes)

  function Init(lt: Lifetimes, clock: Time): State {
    State(lt, clock, [], map[], map[], map[], map[], [])
  }

  /** Within both lifetimes at the time now. */
  predicate Alive(limit: Time, seen: Time, idle: int, now: Time) {
    now <= limit && now - seen <= idle
  }

  predicate IsStart(t: Thread) {
    t.Starting? || t.Minting? || t.Revoking?
  }

  predicate Enabled(s: State, st: Step) {
    match st
    case Begin(id, t) =>
      id !in s.threads && IsStart(t) && t.token != "" && (t.Revoking? || t.now >= s.clock)
    // a fresh random token was never minted before
    case Advance(id, _) => id in s.threads && (s.threads[id].Minting? ==> s.threads[id].token !in s.created)
    case ClearCache => true
    case Restart(_, _) => true
  }

  function Goto(s: State, id: nat, t: Thread): State {
    s.(threads := s.threads[id := t])
  }

  function Finish(s: State, id: nat): State {
    s.(threads := s.threads - {id})
  }

  predicate Expired(o: Obj, idle: int, now: Time) {
    !Alive(o.maxUntil, o.lastSeen, idle, now)
  }

  /** One atomic section of one thread. */
  function Section(s: State, id: nat, storeOk: bool): State
    requires id in s.threads
    requires s.threads[id].Holding? || s.threads[id].Accepted? ==> s.threads[id].ref < |s.objs|
  {
    match s.threads[id]
    case Starting(t, now) =>
      if t in s.cache then Goto(s, id, Holding(t, now, s.cache[t])) else Goto(s, id, Missed(t, now))
    case Missed(t, now) =>
      if !storeOk || t !in s.rows then Finish(s, id)
      else if !Alive(s.rows[t].maxUntil, s.rows[t].lastSeen, s.lt.idle, now) then Goto(s, id, Deleting(t))
      else Goto(s, id, RowLive(t, now, s.rows[t]))
    case RowLive(t, now, row) =>
      var p := |s.objs|;
      Goto(s.(objs := s.objs + [Obj(t, row.maxUntil, row.lastSeen)], cache := s.cache[t := p]), id, Holding(t, now, p))
    case Holding(t, now, p) =>
      var o := s.objs[p];
      if Expired(o, s.lt.idle, now) then Goto(s.(cache := s.cache - {t}), id, Deleting(t))
      else
        var log := s.accepted + [Acceptance(t, now, s.lt.idle)];
        Goto(s.(objs := s.objs[p := o.(lastSeen := now)], accepted := log), id, Accepted(t, p))
    case Deleting(t) => Finish(if storeOk then s.(rows := s.rows - {t}) else s, id)
    case Accepted(t, p) => Goto(s, id, Writing(t, s.objs[p].lastSeen))
    case Writing(t, seen) =>
      Finish(if storeOk && t in s.rows then s.(rows := s.rows[t := s.rows[t].(lastSeen := seen)]) else s, id)
    case Minting(t, now) =>
      if !storeOk || t in s.rows then Finish(s, id)
      else Goto(s.(rows := s.rows[t := Stored(now, now + s.lt.max)], created := s.created[t := Birth(now, s.lt.max)]),
                id, Minted(t, now))
    case Minted(t, now) =>
      Finish(s.(objs := s.objs + [Obj(t, now + s.lt.max, now)], cache := s.cache[t := |s.objs|]), id)
    case Revoking(t) => Goto(s.(cache := s.cache - {t}), id, Deleting(t))
  }

  function Apply(s: State, st: Step): (s': State)
    requires Enabled(s, st) && RefsOk(s)
    ensures RefsOk(s')
  {
    match st
    case Begin(id, t) => Goto(if t.Revoking? then s else s.(clock := t.now), id, t)
    case Advance(id, ok) => SectionKeeps(s, id, ok); Section(s, id, ok)
    case ClearCache => s.(cache := map[])
    case Restart(purge, lt) =>
      s.(lt := lt, cache := map[], threads := map[], rows := if purge then map[] else s.rows)
  }

  // ---- The invariant ----

  predicate ThreadOk(s: State, t: Thread) {
    t.Holding? || t.Accepted? ==> t.ref < |s.objs| && s.objs[t.ref].token == t.token
  }

  /** Every reference held by a thread or the cache is to an object of that token. */
  predicate RefsOk(s: State) {
    && (forall id :: id in s.threads ==> ThreadOk(s, s.threads[id]))
    && (forall t :: t in s.cache ==> s.cache[t] < |s.objs| && s.objs[s.cache[t]].token == t)
  }

  ghost predicate AcceptedAt(log: seq<Acceptance>, token: string, u: Time) {
    exists idle: int :: Acceptance(token, u, idle) in log
  }

  /** u is the creation of the token or one of its acceptances so far. */
  ghost predicate Witnessed(s: State, token: string, u: Time) {
    token in s.created && (u == s.created[token].at || AcceptedAt(s.accepted, token, u))
  }

  /** A pair of stored lifetimes is genuine: the limit is the creation's, the last use one that happened. */
  ghost predicate Genuine(s: State, token: string, seen: Time, limit: Time) {
    Witnessed(s, token, seen) && limit == s.created[token].at + s.created[token].max
  }

  ghost predicate HistoryOf(s: State, t: Thread) {
    match t
    case RowLive(tok, now, row) =>
      Genuine(s, tok, row.lastSeen, row.maxUntil) && Alive(row.maxUntil, row.lastSeen, s.lt.idle, now)
    case Writing(tok, seen) => Witnessed(s, tok, seen)
    case Minted(tok, now) => tok in s.created && s.created[tok] == Birth(now, s.lt.max)
    case _ => true
  }

  ghost predicate StoredOk(s: State) {
    && (forall t :: t in s.rows ==> Genuine(s, t, s.rows[t].lastSeen, s.rows[t].maxUntil))
    && (forall p :: 0 <= p < |s.objs| ==> Genuine(s, s.objs[p].token, s.objs[p].lastSeen, s.objs[p].maxUntil))
    && (forall id :: id in s.threads ==> HistoryOf(s, s.threads[id]))
  }

  /** The k-th acceptance respects both lifetimes: it is within the max of the process that minted the token,
      and within the idle of the process that accepted it since the creation or an earlier acceptance. */
  ghost predicate Justified(s: State, k: nat)
    requires k < |s.accepted|
  {
    var a := s.accepted[k];
    && a.token in s.created
    && a.at <= s.created[a.token].at + s.created[a.token].max
    && exists u :: JustifiedBy(s, k, u)
  }

  ghost predicate JustifiedBy(s: State, k: nat, u: Time)
    requires k < |s.accepted| && s.accepted[k].token in s.created
  {
    var a := s.accepted[k];
    a.at - u <= a.idle && (u == s.created[a.token].at || AcceptedAt(s.accepted[..k], a.token, u))
  }

  ghost predicate Inv(s: State) {
    && RefsOk(s) && StoredOk(s)
    && forall k :: 0 <= k < |s.accepted| ==> Justified(s, k)
  }

  // ---- Preservation ----

  /** History only grows. */
  predicate Extends(s: State, s': State) {
    && (forall t :: t in s.created ==> t in s'.created && s'.created[t] == s.created[t])
    && s.accepted <= s'.accepted
  }

  lemma GenuineExtends(s: State, s': State)
    requires Extends(s, s') && s'.lt == s.lt
    ensures forall t, u {:trigger Witnessed(s, t, u)} :: Witnessed(s, t, u) ==> Witnessed(s', t, u)
    ensures forall t, u, m {:trigger Genuine(s, t, u, m)} :: Genuine(s, t, u, m) ==> Genuine(s', t, u, m)
    ensures forall th {:trigger HistoryOf(s, th)} :: HistoryOf(s, th) ==> HistoryOf(s', th)
  {
    assert forall a :: a in s.accepted ==> a in s'.accepted;
  }

  lemma JustifiedExtends(s: State, s': State)
    requires Extends(s, s')
    ensures forall k :: 0 <= k < |s.accepted| && Justified(s, k) ==> Justified(s', k)
  {
    forall k | 0 <= k < |s.accepted| && Justified(s, k)
      ensures Justified(s', k)
    {
      assert s'.accepted[k] == s.accepted[k] && s'.accepted[..k] == s.accepted[..k];
      var u :| JustifiedBy(s, k, u);
      assert JustifiedBy(s', k, u);
    }
  }

  lemma AcceptIsJustified(s: State, id: nat)
    requires Inv(s) && id in s.threads && s.threads[id].Holding?
    requires !Expired(s.objs[s.threads[id].ref], s.lt.idle, s.threads[id].now)
    ensures Justified(Section(s, id, true), |s.accepted|)
  {
    var s' := Section(s, id, true);
    var o := s.objs[s.threads[id].ref];
    assert Genuine(s, o.token, o.lastSeen, o.maxUntil);
    assert s'.accepted[..|s.accepted|] == s.accepted;
    assert JustifiedBy(s', |s.accepted|, o.lastSeen);
  }

  /** Moving one thread on, once whatever it now holds is in order. */
  lemma GotoKeeps(s: State, id: nat, t: Thread)
    requires RefsOk(s) && ThreadOk(s, t)
    ensures RefsOk(Goto(s, id, t))
    ensures StoredOk(s) && HistoryOf(s, t) ==> StoredOk(Goto(s, id, t))
  {
    assert forall h {:trigger HistoryOf(s, h)} :: HistoryOf(s, h) ==> HistoryOf(Goto(s, id, t), h);
  }

  lemma FinishKeeps(s: State, id: nat)
    requires RefsOk(s)
    ensures RefsOk(Finish(s, id))
    ensures StoredOk(s) ==> StoredOk(Finish(s, id))
  {
    assert forall h {:trigger HistoryOf(s, h)} :: HistoryOf(s, h) ==> HistoryOf(Finish(s, id), h);
  }

  function Alloc(s: State, o: Obj): State {
    s.(objs := s.objs + [o], cache := s.cache[o.token := |s.objs|])
  }

  lemma AllocKeeps(s: State, o: Obj)
    requires RefsOk(s)
    ensures RefsOk(Alloc(s, o))
    ensures StoredOk(s) && Genuine(s, o.token, o.lastSeen, o.maxUntil) ==> StoredOk(Alloc(s, o))
  {
    if StoredOk(s) { GenuineExtends(s, Alloc(s, o)); }
  }

  function Accept(s: State, p: nat, now: Time): State
    requires p < |s.objs|
  {
    s.(objs := s.objs[p := s.objs[p].(lastSeen := now)],
       accepted := s.accepted + [Acceptance(s.objs[p].token, now, s.lt.idle)])
  }

  lemma AcceptKeeps(s: State, p: nat, now: Time)
    requires RefsOk(s) && p < |s.objs|
    ensures RefsOk(Accept(s, p, now))
    ensures StoredOk(s) ==> StoredOk(Accept(s, p, now))
  {
    var s' := Accept(s, p, now);
    if StoredOk(s) {
      GenuineExtends(s, s');
      assert Genuine(s, s.objs[p].token, s.objs[p].lastSeen, s.objs[p].maxUntil);
      assert Acceptance(s.objs[p].token, now, s.lt.idle) in s'.accepted;
    }
  }

  lemma UncacheKeeps(s: State, token: string)
    requires RefsOk(s)
    ensures RefsOk(s.(cache := s.cache - {token}))
    ensures StoredOk(s) ==> StoredOk(s.(cache := s.cache - {token}))
  {
    if StoredOk(s) { GenuineExtends(s, s.(cache := s.cache - {token})); }
  }

  lemma RowsKeep(s: State, rows: map<string, Stored>)
    requires RefsOk(s)
    ensures RefsOk(s.(rows := rows))
    ensures StoredOk(s) && (forall t :: t in rows ==> Genuine(s, t, rows[t].lastSeen, rows[t].maxUntil))
      ==> StoredOk(s.(rows := rows))
  {
    if StoredOk(s) { GenuineExtends(s, s.(rows := rows)); }
  }

  function Mint(s: State, token: string, now: Time): State {
    s.(rows := s.rows[token := Stored(now, now + s.lt.max)], created := s.created[token := Birth(now, s.lt.max)])
  }

  lemma MintKeeps(s: State, token: string, now: Time)
    requires RefsOk(s) && token !in s.created
    ensures Kept(s, Mint(s, token, now))
  {
    if StoredOk(s) { GenuineExtends(s, Mint(s, token, now)); }
  }

  ghost predicate Kept(s: State, s': State) {
    RefsOk(s') && Extends(s, s') && s'.lt == s.lt && (StoredOk(s) ==> StoredOk(s'))
  }

  lemma StartingKeeps(s: State, id: nat, storeOk: bool)
    requires RefsOk(s) && Enabled(s, Advance(id, storeOk)) && s.threads[id].Starting?
    ensures ThreadOk(s, s.threads[id]) && Kept(s, Section(s, id, storeOk))
  {
    var t, now := s.threads[id].token, s.threads[id].now;
    GotoKeeps(s, id, if t in s.cache then Holding(t, now, s.cache[t]) else Missed(t, now));
  }

  lemma MissedKeeps(s: State, id: nat, storeOk: bool)
    requires RefsOk(s) && Enabled(s, Advance(id, storeOk)) && s.threads[id].Missed?
    ensures ThreadOk(s, s.threads[id]) && Kept(s, Section(s, id, storeOk))
  {
    var t, now := s.threads[id].token, s.threads[id].now;
    if t in s.rows && storeOk {
      var row := s.rows[t];
      var live := Alive(row.maxUntil, row.lastSeen, s.lt.idle, now);
      GotoKeeps(s, id, if live then RowLive(t, now, row) else Deleting(t));
    } else {
      FinishKeeps(s, id);
    }
  }

  lemma RowLiveKeeps(s: State, id: nat, storeOk: bool)
    requires RefsOk(s) && Enabled(s, Advance(id, storeOk)) && s.threads[id].RowLive?
    ensures ThreadOk(s, s.threads[id]) && Kept(s, Section(s, id, storeOk))
  {
    var th := s.threads[id];
    var o := Obj(th.token, th.row.maxUntil, th.row.lastSeen);
    assert StoredOk(s) ==> HistoryOf(s, th);
    AllocKeeps(s, o);
    GotoKeeps(Alloc(s, o), id, Holding(th.token, th.now, |s.objs|));
  }

  lemma HoldingKeeps(s: State, id: nat, storeOk: bool)
    requires RefsOk(s) && Enabled(s, Advance(id, storeOk)) && s.threads[id].Holding?
    ensures ThreadOk(s, s.threads[id]) && Kept(s, Section(s, id, storeOk))
  {
    var th := s.threads[id];
    assert ThreadOk(s, th);
    if Expired(s.objs[th.ref], s.lt.idle, th.now) {
      UncacheKeeps(s, th.token);
      GotoKeeps(s.(cache := s.cache - {th.token}), id, Deleting(th.token));
    } else {
      AcceptKeeps(s, th.ref, th.now);
      GotoKeeps(Accept(s, th.ref, th.now), id, Thread.Accepted(th.token, th.ref));
    }
  }

  lemma DeletingKeeps(s: State, id: nat, storeOk: bool)
    requires RefsOk(s) && Enabled(s, Advance(id, storeOk)) && s.threads[id].Deleting?
    ensures ThreadOk(s, s.threads[id]) && Kept(s, Section(s, id, storeOk))
  {
    var t := s.threads[id].token;
    if storeOk {
      RowsKeep(s, s.rows - {t});
      FinishKeeps(s.(rows := s.rows - {t}), id);
    } else {
      FinishKeeps(s, id);
    }
  }

  lemma AcceptedKeeps(s: State, id: nat, storeOk: bool)
    requires RefsOk(s) && Enabled(s, Advance(id, storeOk)) && s.threads[id].Accepted?
    ensures ThreadOk(s, s.threads[id]) && Kept(s, Section(s, id, storeOk))
  {
    var th := s.threads[id];
    assert ThreadOk(s, th);
    if StoredOk(s) { assert Genuine(s, th.token, s.objs[th.ref].lastSeen, s.objs[th.ref].maxUntil); }
    GotoKeeps(s, id, Writing(th.token, s.objs[th.ref].lastSeen));
  }

  lemma WritingKeeps(s: State, id: nat, storeOk: bool)
    requires RefsOk(s) && Enabled(s, Advance(id, storeOk)) && s.threads[id].Writing?
    ensures ThreadOk(s, s.threads[id]) && Kept(s, Section(s, id, storeOk))
  {
    var t, seen := s.threads[id].token, s.threads[id].lastSeen;
    if storeOk && t in s.rows {
      var rows := s.rows[t := s.rows[t].(lastSeen := seen)];
      if StoredOk(s) {
        assert HistoryOf(s, s.threads[id]) && Genuine(s, t, s.rows[t].lastSeen, s.rows[t].maxUntil);
      }
      RowsKeep(s, rows);
      FinishKeeps(s.(rows := rows), id);
    } else {
      FinishKeeps(s, id);
    }
  }

  lemma MintingKeeps(s: State, id: nat, storeOk: bool)
    requires RefsOk(s) && Enabled(s, Advance(id, storeOk)) && s.threads[id].Minting?
    ensures ThreadOk(s, s.threads[id]) && Kept(s, Section(s, id, storeOk))
  {
    var t, now := s.threads[id].token, s.threads[id].now;
    if !storeOk || t in s.rows {
      FinishKeeps(s, id);
    } else {
      var s1 := Mint(s, t, now);
      MintKeeps(s, t, now);
      GotoKeeps(s1, id, Minted(t, now));
      assert Section(s, id, storeOk) == Goto(s1, id, Minted(t, now));
    }
  }

  lemma MintedKeeps(s: State, id: nat, storeOk: bool)
    requires RefsOk(s) && Enabled(s, Advance(id, storeOk)) && s.threads[id].Minted?
    ensures ThreadOk(s, s.threads[id]) && Kept(s, Section(s, id, storeOk))
  {
    var th := s.threads[id];
    var o := Obj(th.token, th.now + s.lt.max, th.now);
    assert StoredOk(s) ==> HistoryOf(s, th);
    AllocKeeps(s, o);
    assert Section(s, id, storeOk) == Finish(Alloc(s, o), id);
    FinishKeeps(Alloc(s, o), id);
  }

  lemma RevokingKeeps(s: State, id: nat, storeOk: bool)
    requires RefsOk(s) && Enabled(s, Advance(id, storeOk)) && s.threads[id].Revoking?
    ensures ThreadOk(s, s.threads[id]) && Kept(s, Section(s, id, storeOk))
  {
    var t := s.threads[id].token;
    UncacheKeeps(s, t);
    GotoKeeps(s.(cache := s.cache - {t}), id, Deleting(t));
  }

  /** Each section keeps the references and the stored lifetimes in order, and only adds to the history. */
  lemma SectionKeeps(s: State, id: nat, storeOk: bool)
    requires RefsOk(s) && Enabled(s, Advance(id, storeOk))
    ensures ThreadOk(s, s.threads[id]) && Kept(s, Section(s, id, storeOk))
  {
    match s.threads[id]
    case Starting(_, _) => StartingKeeps(s, id, storeOk);
    case Missed(_, _) => MissedKeeps(s, id, storeOk);
    case RowLive(_, _, _) => RowLiveKeeps(s, id, storeOk);
    case Holding(_, _, _) => HoldingKeeps(s, id, storeOk);
    case Deleting(_) => DeletingKeeps(s, id, storeOk);
    case Accepted(_, _) => AcceptedKeeps(s, id, storeOk);
    case Writing(_, _) => WritingKeeps(s, id, storeOk);
    case Minting(_, _) => MintingKeeps(s, id, storeOk);
    case Minted(_, _) => MintedKeeps(s, id, storeOk);
    case Revoking(_) => RevokingKeeps(s, id, storeOk);
  }

  lemma EnvironmentKeeps(s: State, st: Step)
    requires RefsOk(s) && Enabled(s, st) && !st.Advance?
    ensures var s' := Apply(s, st);
      RefsOk(s') && Extends(s, s') && (StoredOk(s) ==> StoredOk(s')) && s'.accepted == s.accepted
  {
    if st.Begin? {
      var s1 := if st.thread.Revoking? then s else s.(clock := st.thread.now);
      if StoredOk(s) { GenuineExtends(s, s1); }
      GotoKeeps(s1, st.id, st.thread);
    } else if st.ClearCache? {
      if StoredOk(s) { GenuineExtends(s, s.(cache := map[])); }
    } else {
      RestartKeeps(s, st.purge, st.lt);
    }
  }

  lemma RestartKeeps(s: State, purge: bool, lt: Lifetimes)
    requires RefsOk(s)
    ensures var s' := Apply(s, Restart(purge, lt)); RefsOk(s') && (StoredOk(s) ==> StoredOk(s'))
  {
    var s' := Apply(s, Restart(purge, lt));
    assert forall t, u, m {:trigger Genuine(s, t, u, m)} :: Genuine(s, t, u, m) ==> Genuine(s', t, u, m);
  }

  lemma AdvanceKeepsJustified(s: State, id: nat, storeOk: bool)
    requires Inv(s) && Enabled(s, Advance(id, storeOk))
    ensures var s' := Apply(s, Advance(id, storeOk));
      forall k :: |s.accepted| <= k < |s'.accepted| ==> Justified(s', k)
  {
    SectionKeeps(s, id, storeOk);
    var th := s.threads[id];
    if th.Holding? && !Expired(s.objs[th.ref], s.lt.idle, th.now) { AcceptIsJustified(s, id); }
  }

  lemma StepKeepsInv(s: State, st: Step)
    requires Inv(s) && Enabled(s, st)
    ensures Inv(Apply(s, st))
  {
    var s' := Apply(s, st);
    if st.Advance? {
      SectionKeeps(s, st.id, st.storeOk);
      AdvanceKeepsJustified(s, st.id, st.storeOk);
    } else {
      EnvironmentKeeps(s, st);
    }
    JustifiedExtends(s, s');
    forall k | 0 <= k < |s'.accepted| ensures Justified(s', k) {
      if k < |s.accepted| { assert Justified(s, k); }
    }
  }

  // ---- Runs ----

  predicate ValidRun(s: State, steps: seq<Step>)
    requires RefsOk(s)
    decreases |steps|
  {
    steps == [] || (Enabled(s, steps[0]) && ValidRun(Apply(s, steps[0]), steps[1..]))
  }

  function Run(s: State, steps: seq<Step>): (s': State)
    requires RefsOk(s) && ValidRun(s, steps)
    ensures RefsOk(s')
    decreases |steps|
  {
    if steps == [] then s else Run(Apply(s, steps[0]), steps[1..])
  }

  lemma {:induction false} RunKeepsInv(s: State, steps: seq<Step>)
    requires Inv(s) && ValidRun(s, steps)
    ensures Inv(Run(s, steps))
    decreases |steps|
  {
    if steps != [] {
      StepKeepsInv(s, steps[0]);
      RunKeepsInv(Apply(s, steps[0]), steps[1..]);
    }
  }

  /** Lifetime safety under every interleaving, with any store failures, cache clears and restarts. */
  lemma EveryAcceptanceIsJustified(lt: Lifetimes, clock: Time, steps: seq<Step>)
    requires ValidRun(Init(lt, clock), steps)
    ensures var s := Run(Init(lt, clock), steps);
      forall k :: 0 <= k < |s.accepted| ==> Justified(s, k)
  {
    RunKeepsInv(Init(lt, clock), steps);
  }

  // ---- When a token is gone for good ----

  predicate Revoked(s: State, token: string) {
    token in s.created && token !in s.cache && token !in s.rows
  }

  predicate NoNewAcceptance(s: State, s': State, token: string) {
    |s.accepted| <= |s'.accepted| && forall k :: |s.accepted| <= k < |s'.accepted| ==> s'.accepted[k].token != token
  }

  /** A thread that is about to accept: it holds a live session object, or has read a live row (and rows are
      passed on only when they are live). */
  predicate InFlight(s: State, t: Thread)
    requires ThreadOk(s, t)
  {
    t.RowLive? || (t.Holding? && !Expired(s.objs[t.ref], s.lt.idle, t.now))
  }

  /** A time at which the cache may still be asked for the token: now, or that of a request that has begun. */
  ghost predicate CanLookUp(s: State, token: string, t: Time) {
    t == s.clock || exists id :: id in s.threads && s.threads[id] == Starting(token, t)
  }

  /** The time of a request that has begun and may still read the row. */
  ghost predicate CanRead(s: State, token: string, t: Time) {
    exists id :: id in s.threads && (s.threads[id] == Starting(token, t) || s.threads[id] == Missed(token, t))
  }

  /** A pending write-through of the time seen. */
  predicate WillWrite(s: State, token: string, t: Thread, seen: Time)
    requires ThreadOk(s, t)
  {
    t.token == token && ((t.Writing? && t.lastSeen == seen) || (t.Accepted? && s.objs[t.ref].lastSeen == seen))
  }

  /** A last use that the row has, or may get from a pending write-through. */
  ghost predicate MayHold(s: State, token: string, seen: Time)
    requires RefsOk(s) && token in s.rows
  {
    s.rows[token].lastSeen == seen || exists id :: id in s.threads && WillWrite(s, token, s.threads[id], seen)
  }

  ghost predicate NoneInFlight(s: State, token: string)
    requires RefsOk(s)
  {
    forall id :: id in s.threads && s.threads[id].token == token ==> !InFlight(s, s.threads[id])
  }

  /** The cached object has expired at every time at which it may still be looked up. */
  ghost predicate CacheDead(s: State, token: string)
    requires RefsOk(s)
  {
    token in s.cache ==> forall t :: CanLookUp(s, token, t) ==> Expired(s.objs[s.cache[token]], s.lt.idle, t)
  }

  /** So will the object of a creation that has not filled the cache yet. */
  ghost predicate MintDead(s: State, token: string) {
    forall id, t ::
      id in s.threads && s.threads[id].token == token && s.threads[id].Minted? && CanLookUp(s, token, t) ==>
        !Alive(s.threads[id].now + s.lt.max, s.threads[id].now, s.lt.idle, t)
  }

  /** The row is past its limit, and is dead at the time of every request that may still read it, whatever
      is written through before. Its idle lifetime alone does not kill it: a restart may bring a longer one. */
  ghost predicate RowDead(s: State, token: string)
    requires RefsOk(s)
  {
    token in s.rows ==>
      && s.clock > s.rows[token].maxUntil
      && forall t, seen :: CanRead(s, token, t) && MayHold(s, token, seen) ==>
           !Alive(s.rows[token].maxUntil, seen, s.lt.idle, t)
  }

  ghost predicate Gone(s: State, token: string)
    requires RefsOk(s)
  {
    token in s.created && NoneInFlight(s, token) && CacheDead(s, token) && MintDead(s, token) && RowDead(s, token)
  }

  // ---- A token that is gone stays gone ----

  /** A thread may move on to t without bringing the token back. */
  ghost predicate Harmless(s: State, token: string, t: Thread)
    requires RefsOk(s) && ThreadOk(s, t)
  {
    t.token == token ==>
      && !t.Minted? && !InFlight(s, t)
      && (t.Starting? ==> t.now == s.clock)
      && (t.Missed? ==> CanRead(s, token, t.now))
      && (token in s.rows && t.Writing? ==> MayHold(s, token, t.lastSeen))
      && (token in s.rows && t.Accepted? ==> MayHold(s, token, s.objs[t.ref].lastSeen))
  }

  lemma GotoLookups(s: State, id: nat, t: Thread, token: string)
    requires t.token == token && t.Starting? ==> t.now == s.clock
    ensures forall u :: CanLookUp(Goto(s, id, t), token, u) ==> CanLookUp(s, token, u)
  {
    var s' := Goto(s, id, t);
    forall u | CanLookUp(s', token, u) ensures CanLookUp(s, token, u) {
      if u != s.clock {
        var i :| i in s'.threads && s'.threads[i] == Starting(token, u);
        assert i != id && s.threads[i] == Starting(token, u);
      }
    }
  }

  lemma GotoReads(s: State, id: nat, t: Thread, token: string)
    requires RefsOk(s) && ThreadOk(s, t) && Harmless(s, token, t)
    ensures forall u :: CanRead(Goto(s, id, t), token, u) ==> CanRead(s, token, u) || u == s.clock
  {
    var s' := Goto(s, id, t);
    forall u | CanRead(s', token, u) ensures CanRead(s, token, u) || u == s.clock {
      var i :| i in s'.threads && (s'.threads[i] == Starting(token, u) || s'.threads[i] == Missed(token, u));
      assert i != id ==> s.threads[i] == s'.threads[i];
    }
  }

  lemma GotoWrites(s: State, id: nat, t: Thread, token: string)
    requires RefsOk(s) && ThreadOk(s, t) && Harmless(s, token, t) && token in s.rows && RefsOk(Goto(s, id, t))
    ensures forall seen :: MayHold(Goto(s, id, t), token, seen) ==> MayHold(s, token, seen)
  {
    var s' := Goto(s, id, t);
    forall seen | MayHold(s', token, seen) ensures MayHold(s, token, seen) {
      if s.rows[token].lastSeen != seen {
        var i :| i in s'.threads && WillWrite(s', token, s'.threads[i], seen);
        if i != id { assert WillWrite(s, token, s.threads[i], seen); }
      }
    }
  }

  lemma GotoGone(s: State, id: nat, t: Thread, token: string)
    requires RefsOk(s) && ThreadOk(s, t) && Gone(s, token) && Harmless(s, token, t)
    ensures RefsOk(Goto(s, id, t)) && Gone(Goto(s, id, t), token)
  {
    var s' := Goto(s, id, t);
    GotoKeeps(s, id, t);
    GotoLookups(s, id, t, token);
    GotoReads(s, id, t, token);
    if token in s.rows { GotoWrites(s, id, t, token); }
    assert NoneInFlight(s', token) by {
      forall i | i in s'.threads && s'.threads[i].token == token ensures !InFlight(s', s'.threads[i]) {
        if i != id { assert s'.threads[i] == s.threads[i] && ThreadOk(s, s.threads[i]); }
      }
    }
  }

  lemma FinishGone(s: State, id: nat, token: string)
    requires RefsOk(s) && Gone(s, token)
    ensures RefsOk(Finish(s, id)) && Gone(Finish(s, id), token)
  {
    var s' := Finish(s, id);
    FinishKeeps(s, id);
    forall u | CanLookUp(s', token, u) ensures CanLookUp(s, token, u) {}
    forall u | CanRead(s', token, u) ensures CanRead(s, token, u) {}
    if token in s.rows {
      forall seen | MayHold(s', token, seen) ensures MayHold(s, token, seen) {
        if s.rows[token].lastSeen != seen {
          var i :| i in s'.threads && WillWrite(s', token, s'.threads[i], seen);
          assert WillWrite(s, token, s.threads[i], seen);
        }
      }
    }
    assert NoneInFlight(s', token) by {
      forall i | i in s'.threads && s'.threads[i].token == token ensures !InFlight(s', s'.threads[i]) {
        assert s'.threads[i] == s.threads[i] && ThreadOk(s, s.threads[i]);
      }
    }
  }

  /** The objects of the token are the same, and those of others may change or be added. */
  predicate SameObjects(s: State, s': State, token: string) {
    |s.objs| <= |s'.objs| && forall p :: 0 <= p < |s.objs| && s.objs[p].token == token ==> s'.objs[p] == s.objs[p]
  }

  /** Changes to other tokens, and to the history, do not bring this one back. */
  lemma OthersGone(s: State, s': State, token: string)
    requires RefsOk(s) && RefsOk(s') && Gone(s, token) && SameObjects(s, s', token)
    requires s'.lt == s.lt && s'.clock == s.clock && s'.threads == s.threads && token in s'.created
    requires token in s'.cache ==> token in s.cache && s'.cache[token] == s.cache[token]
    requires token in s'.rows ==> token in s.rows && s'.rows[token] == s.rows[token]
    ensures Gone(s', token)
  {
    assert forall u :: CanLookUp(s', token, u) ==> CanLookUp(s, token, u);
    assert forall u :: CanRead(s', token, u) ==> CanRead(s, token, u);
    if token in s'.rows {
      forall seen | MayHold(s', token, seen) ensures MayHold(s, token, seen) {
        if s.rows[token].lastSeen != seen {
          var i :| i in s'.threads && WillWrite(s', token, s'.threads[i], seen);
          assert ThreadOk(s, s.threads[i]);
          assert WillWrite(s, token, s.threads[i], seen);
        }
      }
    }
    assert NoneInFlight(s', token) by {
      forall i | i in s'.threads && s'.threads[i].token == token ensures !InFlight(s', s'.threads[i]) {
        assert ThreadOk(s, s.threads[i]);
      }
    }
  }

  /** A later clock only makes more of it expired. */
  lemma ClockGone(s: State, now: Time, token: string)
    requires RefsOk(s) && Gone(s, token) && now >= s.clock
    ensures RefsOk(s.(clock := now)) && Gone(s.(clock := now), token)
  {
    var s' := s.(clock := now);
    assert CanLookUp(s, token, s.clock);
    assert forall u :: CanLookUp(s', token, u) ==> u == now || CanLookUp(s, token, u);
    assert forall u :: CanRead(s', token, u) ==> CanRead(s, token, u);
    if token in s.rows {
      assert forall seen :: MayHold(s', token, seen) ==> MayHold(s, token, seen);
    }
    assert NoneInFlight(s', token) by {
      forall i | i in s'.threads && s'.threads[i].token == token ensures !InFlight(s', s'.threads[i]) {
        assert ThreadOk(s, s.threads[i]);
      }
    }
  }

  lemma RestartGone(s: State, purge: bool, lt: Lifetimes, token: string)
    requires RefsOk(s) && Gone(s, token)
    ensures Gone(Apply(s, Restart(purge, lt)), token)
  {
  }

  lemma EnvironmentGone(s: State, st: Step, token: string)
    requires RefsOk(s) && Enabled(s, st) && !st.Advance? && Gone(s, token)
    ensures Gone(Apply(s, st), token) && NoNewAcceptance(s, Apply(s, st), token)
  {
    match st
    case Begin(id, t) =>
      var s1 := if t.Revoking? then s else s.(clock := t.now);
      if !t.Revoking? { ClockGone(s, t.now, token); }
      GotoGone(s1, id, t, token);
    case ClearCache => OthersGone(s, s.(cache := map[]), token);
    case Restart(purge, lt) => RestartGone(s, purge, lt, token);
  }

  lemma StartingGone(s: State, id: nat, token: string)
    requires RefsOk(s) && id in s.threads && s.threads[id].Starting? && Gone(s, token)
    ensures RefsOk(Section(s, id, true)) && Gone(Section(s, id, true), token)
  {
    var t, now := s.threads[id].token, s.threads[id].now;
    if t == token { assert CanLookUp(s, token, now) && CanRead(s, token, now); }
    GotoGone(s, id, if t in s.cache then Holding(t, now, s.cache[t]) else Missed(t, now), token);
  }

  lemma MissedGone(s: State, id: nat, storeOk: bool, token: string)
    requires RefsOk(s) && id in s.threads && s.threads[id].Missed? && Gone(s, token)
    ensures RefsOk(Section(s, id, storeOk)) && Gone(Section(s, id, storeOk), token)
  {
    var t, now := s.threads[id].token, s.threads[id].now;
    if !storeOk || t !in s.rows {
      FinishGone(s, id, token);
    } else {
      if t == token { assert CanRead(s, token, now) && MayHold(s, token, s.rows[t].lastSeen); }
      var live := Alive(s.rows[t].maxUntil, s.rows[t].lastSeen, s.lt.idle, now);
      GotoGone(s, id, if live then RowLive(t, now, s.rows[t]) else Deleting(t), token);
    }
  }

  lemma FillOtherGone(s: State, o: Obj, token: string)
    requires RefsOk(s) && Gone(s, token) && o.token != token
    ensures RefsOk(Alloc(s, o)) && Gone(Alloc(s, o), token)
  {
    AllocKeeps(s, o);
    OthersGone(s, Alloc(s, o), token);
  }

  lemma RowLiveGone(s: State, id: nat, token: string)
    requires RefsOk(s) && id in s.threads && s.threads[id].RowLive? && Gone(s, token)
    ensures RefsOk(Section(s, id, true)) && Gone(Section(s, id, true), token)
  {
    var th := s.threads[id];
    var o := Obj(th.token, th.row.maxUntil, th.row.lastSeen);
    FillOtherGone(s, o, token);
    GotoGone(Alloc(s, o), id, Holding(th.token, th.now, |s.objs|), token);
  }

  lemma UncacheGone(s: State, t: string, token: string)
    requires RefsOk(s) && Gone(s, token)
    ensures RefsOk(s.(cache := s.cache - {t})) && Gone(s.(cache := s.cache - {t}), token)
  {
    UncacheKeeps(s, t);
    OthersGone(s, s.(cache := s.cache - {t}), token);
  }

  lemma AcceptOtherGone(s: State, p: nat, now: Time, token: string)
    requires RefsOk(s) && Gone(s, token) && p < |s.objs| && s.objs[p].token != token
    ensures RefsOk(Accept(s, p, now)) && Gone(Accept(s, p, now), token)
  {
    AcceptKeeps(s, p, now);
    OthersGone(s, Accept(s, p, now), token);
  }

  lemma HoldingGone(s: State, id: nat, token: string)
    requires RefsOk(s) && id in s.threads && s.threads[id].Holding? && ThreadOk(s, s.threads[id]) && Gone(s, token)
    ensures RefsOk(Section(s, id, true)) && Gone(Section(s, id, true), token)
    ensures NoNewAcceptance(s, Section(s, id, true), token)
  {
    var th := s.threads[id];
    if Expired(s.objs[th.ref], s.lt.idle, th.now) {
      UncacheGone(s, th.token, token);
      GotoGone(s.(cache := s.cache - {th.token}), id, Deleting(th.token), token);
    } else {
      AcceptOtherGone(s, th.ref, th.now, token);
      GotoGone(Accept(s, th.ref, th.now), id, Thread.Accepted(th.token, th.ref), token);
    }
  }

  lemma DeletingGone(s: State, id: nat, storeOk: bool, token: string)
    requires RefsOk(s) && id in s.threads && s.threads[id].Deleting? && Gone(s, token)
    ensures RefsOk(Section(s, id, storeOk)) && Gone(Section(s, id, storeOk), token)
  {
    var s1 := if storeOk then s.(rows := s.rows - {s.threads[id].token}) else s;
    RowsKeep(s, s1.rows);
    OthersGone(s, s1, token);
    FinishGone(s1, id, token);
  }

  lemma AcceptedGone(s: State, id: nat, token: string)
    requires RefsOk(s) && id in s.threads && s.threads[id].Accepted? && ThreadOk(s, s.threads[id]) && Gone(s, token)
    ensures RefsOk(Section(s, id, true)) && Gone(Section(s, id, true), token)
  {
    var th := s.threads[id];
    var seen := s.objs[th.ref].lastSeen;
    assert th.token == token ==> WillWrite(s, token, th, seen);
    GotoGone(s, id, Writing(th.token, seen), token);
  }

  /** A pending write-through gives the row a last use that was counted before. */
  lemma WrittenRowGone(s: State, id: nat, token: string)
    requires RefsOk(s) && id in s.threads && s.threads[id].Writing? && s.threads[id].token == token
    requires Gone(s, token) && token in s.rows
    ensures var s' := s.(rows := s.rows[token := s.rows[token].(lastSeen := s.threads[id].lastSeen)]);
      RefsOk(s') && Gone(s', token)
  {
    var seen := s.threads[id].lastSeen;
    var s' := s.(rows := s.rows[token := s.rows[token].(lastSeen := seen)]);
    RowsKeep(s, s'.rows);
    assert WillWrite(s, token, s.threads[id], seen);
    assert forall u :: CanLookUp(s', token, u) ==> CanLookUp(s, token, u);
    assert forall u :: CanRead(s', token, u) ==> CanRead(s, token, u);
    forall x | MayHold(s', token, x) ensures MayHold(s, token, x) {
      if x != seen {
        var i :| i in s'.threads && WillWrite(s', token, s'.threads[i], x);
        assert WillWrite(s, token, s.threads[i], x);
      }
    }
    assert NoneInFlight(s', token) by {
      forall i | i in s'.threads && s'.threads[i].token == token ensures !InFlight(s', s'.threads[i]) {
        assert ThreadOk(s, s.threads[i]);
      }
    }
  }

  lemma WritingGone(s: State, id: nat, storeOk: bool, token: string)
    requires RefsOk(s) && id in s.threads && s.threads[id].Writing? && Gone(s, token)
    ensures RefsOk(Section(s, id, storeOk)) && Gone(Section(s, id, storeOk), token)
  {
    var t, seen := s.threads[id].token, s.threads[id].lastSeen;
    if storeOk && t in s.rows {
      var s1 := s.(rows := s.rows[t := s.rows[t].(lastSeen := seen)]);
      RowsKeep(s, s1.rows);
      if t == token { WrittenRowGone(s, id, token); } else { OthersGone(s, s1, token); }
      FinishGone(s1, id, token);
    } else {
      FinishGone(s, id, token);
    }
  }

  lemma MintingGone(s: State, id: nat, storeOk: bool, token: string)
    requires RefsOk(s) && Enabled(s, Advance(id, storeOk)) && s.threads[id].Minting? && Gone(s, token)
    ensures RefsOk(Section(s, id, storeOk)) && Gone(Section(s, id, storeOk), token)
  {
    var t, now := s.threads[id].token, s.threads[id].now;
    if !storeOk || t in s.rows {
      FinishGone(s, id, token);
    } else {
      MintKeeps(s, t, now);
      OthersGone(s, Mint(s, t, now), token);
      GotoGone(Mint(s, t, now), id, Minted(t, now), token);
    }
  }

  /** A creation that fills the cache with what has expired already at every time it may be asked for. */
  lemma FilledGone(s: State, id: nat, token: string)
    requires RefsOk(s) && id in s.threads && s.threads[id].Minted? && s.threads[id].token == token && Gone(s, token)
    ensures var s' := Alloc(s, Obj(token, s.threads[id].now + s.lt.max, s.threads[id].now));
      RefsOk(s') && Gone(s', token)
  {
    var o := Obj(token, s.threads[id].now + s.lt.max, s.threads[id].now);
    var s' := Alloc(s, o);
    AllocKeeps(s, o);
    forall u | CanLookUp(s', token, u) ensures CanLookUp(s, token, u) {}
    assert CacheDead(s', token);
    assert forall u :: CanRead(s', token, u) ==> CanRead(s, token, u);
    if token in s.rows {
      forall seen | MayHold(s', token, seen) ensures MayHold(s, token, seen) {
        if s.rows[token].lastSeen != seen {
          var i :| i in s'.threads && WillWrite(s', token, s'.threads[i], seen);
          assert ThreadOk(s, s.threads[i]) && WillWrite(s, token, s.threads[i], seen);
        }
      }
    }
    assert NoneInFlight(s', token) by {
      forall i | i in s'.threads && s'.threads[i].token == token ensures !InFlight(s', s'.threads[i]) {
        assert ThreadOk(s, s.threads[i]);
      }
    }
  }

  lemma MintedGone(s: State, id: nat, token: string)
    requires RefsOk(s) && id in s.threads && s.threads[id].Minted? && Gone(s, token)
    ensures RefsOk(Section(s, id, true)) && Gone(Section(s, id, true), token)
  {
    var th := s.threads[id];
    var o := Obj(th.token, th.now + s.lt.max, th.now);
    if th.token == token { FilledGone(s, id, token); } else { FillOtherGone(s, o, token); }
    FinishGone(Alloc(s, o), id, token);
  }

  lemma RevokingGone(s: State, id: nat, token: string)
    requires RefsOk(s) && id in s.threads && s.threads[id].Revoking? && Gone(s, token)
    ensures RefsOk(Section(s, id, true)) && Gone(Section(s, id, true), token)
  {
    var t := s.threads[id].token;
    UncacheGone(s, t, token);
    GotoGone(s.(cache := s.cache - {t}), id, Deleting(t), token);
  }

  lemma SectionGone(s: State, id: nat, storeOk: bool, token: string)
    requires RefsOk(s) && Enabled(s, Advance(id, storeOk)) && ThreadOk(s, s.threads[id]) && Gone(s, token)
    ensures var s' := Section(s, id, storeOk); RefsOk(s') && Gone(s', token) && NoNewAcceptance(s, s', token)
  {
    match s.threads[id]
    case Starting(_, _) => StartingGone(s, id, token);
    case Missed(_, _) => MissedGone(s, id, storeOk, token);
    case RowLive(_, _, _) => RowLiveGone(s, id, token);
    case Holding(_, _, _) => HoldingGone(s, id, token);
    case Deleting(_) => DeletingGone(s, id, storeOk, token);
    case Accepted(_, _) => AcceptedGone(s, id, token);
    case Writing(_, _) => WritingGone(s, id, storeOk, token);
    case Minting(_, _) => MintingGone(s, id, storeOk, token);
    case Minted(_, _) => MintedGone(s, id, token);
    case Revoking(_) => RevokingGone(s, id, token);
  }

  lemma StepGone(s: State, st: Step, token: string)
    requires RefsOk(s) && Enabled(s, st) && Gone(s, token)
    ensures var s' := Apply(s, st); Gone(s', token) && NoNewAcceptance(s, s', token) && s.accepted <= s'.accepted
  {
    if st.Advance? {
      SectionKeeps(s, st.id, st.storeOk);
      SectionGone(s, st.id, st.storeOk, token);
    } else {
      EnvironmentKeeps(s, st);
      EnvironmentGone(s, st, token);
    }
  }

  lemma {:induction false} RunGone(s: State, steps: seq<Step>, token: string)
    requires RefsOk(s) && ValidRun(s, steps) && Gone(s, token)
    ensures var s' := Run(s, steps); s.accepted <= s'.accepted && NoNewAcceptance(s, s', token)
    decreases |steps|
  {
    if steps != [] {
      var s1 := Apply(s, steps[0]);
      StepGone(s, steps[0], token);
      RunGone(s1, steps[1..], token);
      var s' := Run(s1, steps[1..]);
      assert forall k :: |s.accepted| <= k < |s1.accepted| ==> s'.accepted[k] == s1.accepted[k];
    }
  }

  // ---- A token that is not gone can return ----

  /** No continuation whatever accepts the token. */
  ghost predicate NeverAgain(s: State, token: string)
    requires RefsOk(s)
  {
    forall steps {:trigger ValidRun(s, steps)} :: ValidRun(s, steps) ==> NoNewAcceptance(s, Run(s, steps), token)
  }

  /** A run from s that accepts the token. */
  predicate Accepts(s: State, steps: seq<Step>, token: string)
    requires RefsOk(s)
  {
    ValidRun(s, steps) && !NoNewAcceptance(s, Run(s, steps), token)
  }

  lemma AcceptsAfter(s: State, st: Step, rest: seq<Step>, token: string)
    requires RefsOk(s) && Enabled(s, st) && Apply(s, st).accepted == s.accepted
    requires Accepts(Apply(s, st), rest, token)
    ensures Accepts(s, [st] + rest, token)
  {
    assert ([st] + rest)[1..] == rest;
  }

  lemma HolderReturns(s: State, id: nat)
    requires RefsOk(s) && id in s.threads && s.threads[id].Holding? && ThreadOk(s, s.threads[id])
    requires InFlight(s, s.threads[id])
    ensures Accepts(s, [Advance(id, true)], s.threads[id].token)
  {
    var s' := Apply(s, Advance(id, true));
    assert [Advance(id, true)][1..] == [];
    assert s'.accepted[|s.accepted|].token == s.threads[id].token;
  }

  lemma ReaderReturns(s: State, id: nat) returns (steps: seq<Step>)
    requires RefsOk(s) && id in s.threads && s.threads[id].RowLive?
    requires var th := s.threads[id]; Alive(th.row.maxUntil, th.row.lastSeen, s.lt.idle, th.now)
    ensures Accepts(s, steps, s.threads[id].token)
  {
    var go := Advance(id, true);
    var s1 := Apply(s, go);
    HolderReturns(s1, id);
    AcceptsAfter(s, go, [go], s.threads[id].token);
    steps := [go] + [go];
  }

  lemma {:induction false} FreshId(ids: set<nat>) returns (id: nat)
    ensures forall i :: i in ids ==> i < id
    decreases |ids|
  {
    if ids == {} {
      id := 0;
    } else {
      var one :| one in ids;
      var above := FreshId(ids - {one});
      id := if above <= one then one + 1 else above;
      forall i | i in ids ensures i < id {
        if i != one { assert i in ids - {one}; }
      }
    }
  }

  lemma LookerReturns(s: State, id: nat, token: string, t: Time) returns (steps: seq<Step>)
    requires RefsOk(s) && id in s.threads && s.threads[id] == Starting(token, t)
    requires token in s.cache && !Expired(s.objs[s.cache[token]], s.lt.idle, t)
    ensures Accepts(s, steps, token)
  {
    var go := Advance(id, true);
    var s1 := Apply(s, go);
    assert s1.threads[id] == Holding(token, t, s.cache[token]);
    HolderReturns(s1, id);
    AcceptsAfter(s, go, [go], token);
    steps := [go] + [go];
  }

  /** The cached object is live at a time at which it may still be looked up. */
  lemma CachedReturns(s: State, token: string, t: Time) returns (steps: seq<Step>)
    requires RefsOk(s) && token != "" && CanLookUp(s, token, t)
    requires token in s.cache && !Expired(s.objs[s.cache[token]], s.lt.idle, t)
    ensures Accepts(s, steps, token)
  {
    if id :| id in s.threads && s.threads[id] == Starting(token, t) {
      steps := LookerReturns(s, id, token, t);
    } else {
      var id := FreshId(s.threads.Keys);
      var call := Begin(id, Starting(token, t));
      var rest := LookerReturns(Apply(s, call), id, token, t);
      AcceptsAfter(s, call, rest, token);
      steps := [call] + rest;
    }
  }

  lemma MinterReturns(s: State, id: nat, t: Time) returns (steps: seq<Step>)
    requires RefsOk(s) && id in s.threads && s.threads[id].Minted? && s.threads[id].token != ""
    requires CanLookUp(s, s.threads[id].token, t)
    requires Alive(s.threads[id].now + s.lt.max, s.threads[id].now, s.lt.idle, t)
    ensures Accepts(s, steps, s.threads[id].token)
  {
    var token, go := s.threads[id].token, Advance(id, true);
    var s1 := Apply(s, go);
    assert CanLookUp(s1, token, t) by {
      if t != s.clock {
        var i :| i in s.threads && s.threads[i] == Starting(token, t);
        assert i in s1.threads && s1.threads[i] == Starting(token, t);
      }
    }
    var rest := CachedReturns(s1, token, t);
    AcceptsAfter(s, go, rest, token);
    steps := [go] + rest;
  }

  lemma MissedReturns(s: State, id: nat, token: string, t: Time) returns (steps: seq<Step>)
    requires RefsOk(s) && id in s.threads && s.threads[id] == Missed(token, t)
    requires token in s.rows && Alive(s.rows[token].maxUntil, s.rows[token].lastSeen, s.lt.idle, t)
    ensures Accepts(s, steps, token)
  {
    var go := Advance(id, true);
    var rest := ReaderReturns(Apply(s, go), id);
    AcceptsAfter(s, go, rest, token);
    steps := [go] + rest;
  }

  lemma StartedReturns(s: State, id: nat, token: string, t: Time) returns (steps: seq<Step>)
    requires RefsOk(s) && id in s.threads && s.threads[id] == Starting(token, t) && token !in s.cache
    requires token in s.rows && Alive(s.rows[token].maxUntil, s.rows[token].lastSeen, s.lt.idle, t)
    ensures Accepts(s, steps, token)
  {
    var go := Advance(id, true);
    var rest := MissedReturns(Apply(s, go), id, token, t);
    AcceptsAfter(s, go, rest, token);
    steps := [go] + rest;
  }

  /** The row is live at the time of a request that may still read it. */
  lemma RowReturns(s: State, token: string, t: Time) returns (steps: seq<Step>)
    requires RefsOk(s) && CanRead(s, token, t)
    requires token in s.rows && Alive(s.rows[token].maxUntil, s.rows[token].lastSeen, s.lt.idle, t)
    ensures Accepts(s, steps, token)
  {
    var id :| id in s.threads && (s.threads[id] == Starting(token, t) || s.threads[id] == Missed(token, t));
    if s.threads[id].Missed? {
      steps := MissedReturns(s, id, token, t);
    } else {
      var rest := StartedReturns(Apply(s, ClearCache), id, token, t);
      AcceptsAfter(s, ClearCache, rest, token);
      steps := [ClearCache] + rest;
    }
  }

  lemma WriterReturns(s: State, id: nat, token: string, t: Time) returns (steps: seq<Step>)
    requires RefsOk(s) && CanRead(s, token, t) && token in s.rows
    requires id in s.threads && s.threads[id].Writing? && s.threads[id].token == token
    requires Alive(s.rows[token].maxUntil, s.threads[id].lastSeen, s.lt.idle, t)
    ensures Accepts(s, steps, token)
  {
    var go := Advance(id, true);
    var s1 := Apply(s, go);
    assert CanRead(s1, token, t) by {
      var i :| i in s.threads && (s.threads[i] == Starting(token, t) || s.threads[i] == Missed(token, t));
      assert i in s1.threads && s1.threads[i] == s.threads[i];
    }
    var rest := RowReturns(s1, token, t);
    AcceptsAfter(s, go, rest, token);
    steps := [go] + rest;
  }

  lemma PendingReturns(s: State, id: nat, token: string, t: Time, seen: Time) returns (steps: seq<Step>)
    requires RefsOk(s) && CanRead(s, token, t) && token in s.rows
    requires id in s.threads && ThreadOk(s, s.threads[id]) && WillWrite(s, token, s.threads[id], seen)
    requires Alive(s.rows[token].maxUntil, seen, s.lt.idle, t)
    ensures Accepts(s, steps, token)
  {
    if s.threads[id].Writing? {
      steps := WriterReturns(s, id, token, t);
    } else {
      var go := Advance(id, true);
      var s1 := Apply(s, go);
      assert CanRead(s1, token, t) by {
        var i :| i in s.threads && (s.threads[i] == Starting(token, t) || s.threads[i] == Missed(token, t));
        assert i in s1.threads && s1.threads[i] == s.threads[i];
      }
      var rest := WriterReturns(s1, id, token, t);
      AcceptsAfter(s, go, rest, token);
      steps := [go] + rest;
    }
  }

  /** A row within its limit returns after a restart with an idle lifetime that is long enough. */
  lemma RestartReturns(s: State, token: string) returns (steps: seq<Step>)
    requires RefsOk(s) && token != "" && token in s.rows && s.clock <= s.rows[token].maxUntil
    ensures Accepts(s, steps, token)
  {
    var unused := s.clock - s.rows[token].lastSeen;
    var restart := Restart(false, s.lt.(idle := if unused > s.lt.idle then unused else s.lt.idle));
    var call := Begin(0, Starting(token, s.clock));
    var s1 := Apply(s, restart);
    var s2 := Apply(s1, call);
    var rest := StartedReturns(s2, 0, token, s.clock);
    AcceptsAfter(s1, call, rest, token);
    AcceptsAfter(s, restart, [call] + rest, token);
    steps := [restart] + ([call] + rest);
  }

  lemma InFlightReturns(s: State, token: string) returns (steps: seq<Step>)
    requires Inv(s) && !NoneInFlight(s, token)
    ensures Accepts(s, steps, token)
  {
    var id :| id in s.threads && s.threads[id].token == token && InFlight(s, s.threads[id]);
    if s.threads[id].RowLive? {
      assert HistoryOf(s, s.threads[id]);
      steps := ReaderReturns(s, id);
    } else {
      HolderReturns(s, id);
      steps := [Advance(id, true)];
    }
  }

  lemma RowNotDeadReturns(s: State, token: string) returns (steps: seq<Step>)
    requires RefsOk(s) && token != "" && !RowDead(s, token)
    ensures Accepts(s, steps, token)
  {
    if s.clock <= s.rows[token].maxUntil {
      steps := RestartReturns(s, token);
    } else {
      var t, seen :| CanRead(s, token, t) && MayHold(s, token, seen)
        && Alive(s.rows[token].maxUntil, seen, s.lt.idle, t);
      if seen == s.rows[token].lastSeen {
        steps := RowReturns(s, token, t);
      } else {
        var id :| id in s.threads && WillWrite(s, token, s.threads[id], seen);
        steps := PendingReturns(s, id, token, t, seen);
      }
    }
  }

  lemma NotGoneReturns(s: State, token: string) returns (steps: seq<Step>)
    requires Inv(s) && token != "" && token in s.created && !Gone(s, token)
    ensures Accepts(s, steps, token)
  {
    if !NoneInFlight(s, token) {
      steps := InFlightReturns(s, token);
    } else if !CacheDead(s, token) {
      var t :| CanLookUp(s, token, t) && !Expired(s.objs[s.cache[token]], s.lt.idle, t);
      steps := CachedReturns(s, token, t);
    } else if !MintDead(s, token) {
      var id, t :| id in s.threads && s.threads[id].token == token && s.threads[id].Minted? && CanLookUp(s, token, t)
        && Alive(s.threads[id].now + s.lt.max, s.threads[id].now, s.lt.idle, t);
      steps := MinterReturns(s, id, t);
    } else {
      steps := RowNotDeadReturns(s, token);
    }
  }

  /** A minted token is never accepted again, in any continuation, if and only if no thread is about to accept
      it, its cached object and any that a creation is about to cache have expired at every time they may
      still be looked up, and its row is past its limit and dead for every request that may still read it. */
  lemma NeverAgainIffGone(s: State, token: string)
    requires Inv(s) && token != "" && token in s.created
    ensures NeverAgain(s, token) <==> Gone(s, token)
  {
    if Gone(s, token) {
      forall steps {:trigger ValidRun(s, steps)} | ValidRun(s, steps)
        ensures NoNewAcceptance(s, Run(s, steps), token)
      {
        RunGone(s, steps, token);
      }
    } else {
      var steps := NotGoneReturns(s, token);
      assert ValidRun(s, steps);
    }
  }

  /** In particular a token that Invalidate has removed from cache and table is gone if no request of it was
      left past its row read or lookup and no creation of it before its cache fill. */
  lemma QuietRevocationIsFinal(s: State, token: string)
    requires RefsOk(s) && Revoked(s, token) && NoneInFlight(s, token)
    requires forall id :: id in s.threads && s.threads[id].token == token ==> !s.threads[id].Minted?
    ensures NeverAgain(s, token)
  {
    forall steps {:trigger ValidRun(s, steps)} | ValidRun(s, steps)
      ensures NoNewAcceptance(s, Run(s, steps), token)
    {
      RunGone(s, steps, token);
    }
  }

  // ---- Invalidate ----

  /** The sections of one Invalidate. */
  function InvalidateSteps(id: nat, token: string, firstOk: bool): seq<Step> {
    [Begin(id, Revoking(token))] + ([Advance(id, firstOk)] + ([Advance(id, true)] + []))
  }

  lemma RunCons(s: State, st: Step, rest: seq<Step>)
    requires RefsOk(s) && Enabled(s, st) && ValidRun(Apply(s, st), rest)
    ensures ValidRun(s, [st] + rest) && Run(s, [st] + rest) == Run(Apply(s, st), rest)
  {
    assert ([st] + rest)[1..] == rest;
  }

  /** Invalidate on its own removes the token from the cache and the table, and does nothing else. */
  lemma InvalidateRemoves(s: State, id: nat, token: string, firstOk: bool)
    requires RefsOk(s) && id !in s.threads && token != ""
    ensures ValidRun(s, InvalidateSteps(id, token, firstOk))
    ensures Run(s, InvalidateSteps(id, token, firstOk))
            == s.(cache := s.cache - {token}, rows := s.rows - {token})
  {
    var s1 := Apply(s, Begin(id, Revoking(token)));
    var s2 := Apply(s1, Advance(id, firstOk));
    var s3 := Apply(s2, Advance(id, true));
    assert s3.threads == s.threads;
    RunCons(s2, Advance(id, true), []);
    RunCons(s1, Advance(id, firstOk), [Advance(id, true)] + []);
    RunCons(s, Begin(id, Revoking(token)), [Advance(id, firstOk)] + ([Advance(id, true)] + []));
  }

  /** How far thread id is with an Invalidate that no other thread of the token overlaps: 0 begun, 1 out of the
      cache, 2 finished. */
  predicate Revocation(s: State, id: nat, token: string, phase: nat) {
    && (forall i :: i in s.threads && i != id ==> s.threads[i].token != token)
    && (phase == 0 ==> id in s.threads && s.threads[id] == Revoking(token))
    && (phase == 1 ==> id in s.threads && s.threads[id] == Deleting(token) && token !in s.cache)
    && (phase == 2 ==> id !in s.threads && token !in s.cache && token !in s.rows)
  }

  /** A step of the other threads: none of the token begins, and the process is not restarted. */
  predicate Elsewhere(st: Step, id: nat, token: string) {
    match st
    case Begin(i, t) => i != id && t.token != token
    case Advance(i, _) => i != id
    case ClearCache => true
    case Restart(_, _) => false
  }

  /** Thread i has moved on with its token, or is done; no other thread has changed. */
  predicate Moved(s: State, s': State, i: nat)
    requires i in s.threads
  {
    && (forall j :: j in s'.threads ==> j in s.threads)
    && (forall j :: j in s.threads && j != i ==> j in s'.threads && s'.threads[j] == s.threads[j])
    && (i in s'.threads ==> s'.threads[i].token == s.threads[i].token)
  }

  lemma GotoMoves(s: State, x: State, i: nat, t: Thread)
    requires i in s.threads && x.threads == s.threads && t.token == s.threads[i].token
    ensures Moved(s, Goto(x, i, t), i)
  {
  }

  lemma FinishMoves(s: State, x: State, i: nat)
    requires i in s.threads && x.threads == s.threads
    ensures Moved(s, Finish(x, i), i)
  {
  }

  lemma GoingOnMoves(s: State, i: nat, storeOk: bool)
    requires i in s.threads && ThreadOk(s, s.threads[i])
    requires var t := s.threads[i]; t.Starting? || t.RowLive? || t.Holding? || t.Accepted? || t.Revoking?
    ensures Moved(s, Section(s, i, storeOk), i)
  {
    var s' := Section(s, i, storeOk);
    GotoMoves(s, s'.(threads := s.threads), i, s'.threads[i]);
  }

  lemma EndingMoves(s: State, i: nat, storeOk: bool)
    requires i in s.threads && (s.threads[i].Deleting? || s.threads[i].Writing? || s.threads[i].Minted?)
    ensures Moved(s, Section(s, i, storeOk), i)
  {
    FinishMoves(s, Section(s, i, storeOk).(threads := s.threads), i);
  }

  /** A section touches only its own thread, which keeps its token. */
  lemma SectionMoves(s: State, i: nat, storeOk: bool)
    requires i in s.threads && ThreadOk(s, s.threads[i])
    ensures Moved(s, Section(s, i, storeOk), i)
  {
    match s.threads[i]
    case Missed(_, _) =>
    case Minting(_, _) =>
    case Deleting(_) => EndingMoves(s, i, storeOk);
    case Writing(_, _) => EndingMoves(s, i, storeOk);
    case Minted(_, _) => EndingMoves(s, i, storeOk);
    case _ => GoingOnMoves(s, i, storeOk);
  }

  /** And only its own token's cache entry and row. */
  lemma SectionKeepsTables(s: State, i: nat, storeOk: bool, token: string)
    requires i in s.threads && ThreadOk(s, s.threads[i])
    ensures var s' := Section(s, i, storeOk);
      && (token in s.created ==> token in s'.created)
      && (s.threads[i].token != token ==>
            && (token in s'.cache <==> token in s.cache) && (token in s'.rows <==> token in s.rows))
  {
  }

  lemma ElsewhereKeeps(s: State, st: Step, id: nat, token: string, phase: nat)
    requires RefsOk(s) && Enabled(s, st) && Elsewhere(st, id, token) && phase < 2 && Revocation(s, id, token, phase)
    ensures Revocation(Apply(s, st), id, token, phase)
    ensures token in s.created ==> token in Apply(s, st).created
  {
    if st.Advance? {
      SectionKeeps(s, st.id, st.storeOk);
      SectionMoves(s, st.id, st.storeOk);
      SectionKeepsTables(s, st.id, st.storeOk, token);
    }
  }

  predicate AllElsewhere(steps: seq<Step>, id: nat, token: string) {
    forall i :: 0 <= i < |steps| ==> Elsewhere(steps[i], id, token)
  }

  lemma {:induction false} ElsewhereRun(s: State, steps: seq<Step>, id: nat, token: string, phase: nat)
    requires RefsOk(s) && ValidRun(s, steps) && AllElsewhere(steps, id, token)
    requires phase < 2 && Revocation(s, id, token, phase) && token in s.created
    ensures Revocation(Run(s, steps), id, token, phase) && token in Run(s, steps).created
    decreases |steps|
  {
    if steps != [] {
      ElsewhereKeeps(s, steps[0], id, token, phase);
      ElsewhereRun(Apply(s, steps[0]), steps[1..], id, token, phase);
    }
  }

  lemma {:induction false} RunAppend(s: State, a: seq<Step>, b: seq<Step>)
    requires RefsOk(s) && ValidRun(s, a + b)
    ensures ValidRun(s, a) && ValidRun(Run(s, a), b) && Run(s, a + b) == Run(Run(s, a), b)
    decreases |a|
  {
    if a == [] {
      assert a + b == b;
    } else {
      assert (a + b)[1..] == a[1..] + b;
      RunAppend(Apply(s, a[0]), a[1..], b);
    }
  }

  lemma RevocationAdvances(s: State, id: nat, token: string, phase: nat, storeOk: bool)
    requires RefsOk(s) && phase < 2 && Revocation(s, id, token, phase) && token in s.created
    requires phase == 1 ==> storeOk
    ensures var s' := Apply(s, Advance(id, storeOk));
      Revocation(s', id, token, phase + 1) && token in s'.created
  {
  }

  lemma FinishedRevocationIsFinal(s: State, id: nat, token: string)
    requires RefsOk(s) && Revocation(s, id, token, 2) && token in s.created
    ensures NeverAgain(s, token)
  {
    QuietRevocationIsFinal(s, token);
  }

  /** "No acceptance after Invalidate" for the interleaved machine: whatever the other threads do between and
      beside its sections, once an Invalidate with no other request of its token beside it has completed, the
      token is never accepted again. */
  lemma UndisturbedInvalidateIsFinal(
      s: State, id: nat, token: string, others1: seq<Step>, firstOk: bool, others2: seq<Step>)
    requires RefsOk(s) && id !in s.threads && token in s.created && token != ""
    requires forall i :: i in s.threads ==> s.threads[i].token != token
    requires AllElsewhere(others1, id, token) && AllElsewhere(others2, id, token)
    requires ValidRun(Apply(s, Begin(id, Revoking(token))),
                      others1 + ([Advance(id, firstOk)] + (others2 + [Advance(id, true)])))
    ensures NeverAgain(Run(Apply(s, Begin(id, Revoking(token))),
                           others1 + ([Advance(id, firstOk)] + (others2 + [Advance(id, true)]))), token)
  {
    var go1, go2 := [Advance(id, firstOk)], [Advance(id, true)];
    var s1 := Apply(s, Begin(id, Revoking(token)));
    RunAppend(s1, others1, go1 + (others2 + go2));
    ElsewhereRun(s1, others1, id, token, 0);
    var s2 := Run(s1, others1);
    RunAppend(s2, go1, others2 + go2);
    OneStep(s2, Advance(id, firstOk));
    RevocationAdvances(s2, id, token, 0, firstOk);
    var s3 := Run(s2, go1);
    RunAppend(s3, others2, go2);
    ElsewhereRun(s3, others2, id, token, 1);
    var s4 := Run(s3, others2);
    OneStep(s4, Advance(id, true));
    RevocationAdvances(s4, id, token, 1, true);
    FinishedRevocationIsFinal(Run(s4, go2), id, token);
  }

  lemma OneStep(s: State, st: Step)
    requires RefsOk(s) && ValidRun(s, [st])
    ensures Enabled(s, st) && Run(s, [st]) == Apply(s, st)
  {
    assert [st][1..] == [];
  }

  // ---- Two runs in which a completed Invalidate does not revoke ----

  predicate Reaches(lt: Lifetimes, steps: seq<Step>, s: State) {
    ValidRun(Init(lt, 0), steps) && Run(Init(lt, 0), steps) == s
  }

  lemma {:induction false} RunSnoc(s: State, steps: seq<Step>, st: Step)
    requires RefsOk(s) && ValidRun(s, steps) && Enabled(Run(s, steps), st)
    ensures ValidRun(s, steps + [st]) && Run(s, steps + [st]) == Apply(Run(s, steps), st)
    decreases |steps|
  {
    if steps == [] {
      assert steps + [st] == [st] && [st][1..] == [];
    } else {
      RunSnoc(Apply(s, steps[0]), steps[1..], st);
      assert (steps + [st])[1..] == steps[1..] + [st];
    }
  }

  lemma ReachStep(lt: Lifetimes, steps: seq<Step>, s: State, st: Step) returns (s': State)
    requires RefsOk(s) && Reaches(lt, steps, s) && Enabled(s, st)
    ensures RefsOk(s) && s' == Apply(s, st) && RefsOk(s') && Reaches(lt, steps + [st], s')
  {
    RunSnoc(Init(lt, 0), steps, st);
    s' := Apply(s, st);
  }

  lemma ReachedInv(lt: Lifetimes, steps: seq<Step>, s: State)
    requires Reaches(lt, steps, s)
    ensures Inv(s)
  {
    RunKeepsInv(Init(lt, 0), steps);
  }

  /** Thread 0 mints "s"; the cache is cleared. */
  const MINT: seq<Step> := [Begin(0, Minting("s", 0)), Advance(0, true), Advance(0, true), ClearCache]

  /** Thread 1 misses the cache and reads the live row. */
  const READ: seq<Step> := [Begin(1, Starting("s", 0)), Advance(1, true), Advance(1, true)]

  /** Thread 1 fills the cache, accepts, and writes through. */
  const FILL: seq<Step> := [Advance(1, true), Advance(1, true), Advance(1, true), Advance(1, true)]

  /** Thread 2 is Invalidate: out of the cache, then out of the table. */
  const UNCACHE: seq<Step> := [Begin(2, Revoking("s")), Advance(2, true)]
  const DELETE: seq<Step> := [Advance(2, true)]

  lemma ReachMinted(lt: Lifetimes) returns (s: State)
    ensures RefsOk(s) && s.lt == lt && s.clock == 0 && Reaches(lt, MINT, s)
    ensures s.cache == map[] && s.rows == map["s" := Stored(0, lt.max)] && s.threads == map[]
    ensures s.created == map["s" := Birth(0, lt.max)]
  {
    assert Reaches(lt, [], Init(lt, 0));
    var s1 := ReachStep(lt, [], Init(lt, 0), MINT[0]);
    assert s1.threads == map[0 := Minting("s", 0)];
    var s2 := ReachStep(lt, [] + [MINT[0]], s1, MINT[1]);
    assert s2.threads == map[0 := Minted("s", 0)];
    var s3 := ReachStep(lt, [] + [MINT[0]] + [MINT[1]], s2, MINT[2]);
    assert s3.threads == map[];
    s := ReachStep(lt, [] + [MINT[0]] + [MINT[1]] + [MINT[2]], s3, MINT[3]);
    assert [] + [MINT[0]] + [MINT[1]] + [MINT[2]] + [MINT[3]] == MINT;
  }

  lemma ReachRead(lt: Lifetimes) returns (s: State)
    requires lt.idle >= 0 && lt.max >= 0
    ensures RefsOk(s) && s.lt == lt && s.clock == 0 && Reaches(lt, MINT + READ, s)
    ensures s.created == map["s" := Birth(0, lt.max)]
    ensures s.threads == map[1 := RowLive("s", 0, Stored(0, lt.max))]
    ensures s.cache == map[] && s.rows == map["s" := Stored(0, lt.max)]
  {
    var s1 := ReachMinted(lt);
    var s2 := ReachStep(lt, MINT, s1, READ[0]);
    assert s2.threads == map[1 := Starting("s", 0)];
    var s3 := ReachStep(lt, MINT + [READ[0]], s2, READ[1]);
    assert s3.threads == map[1 := Missed("s", 0)];
    s := ReachStep(lt, MINT + [READ[0]] + [READ[1]], s3, READ[2]);
    assert MINT + [READ[0]] + [READ[1]] + [READ[2]] == MINT + READ;
  }

  lemma ReachUncached(lt: Lifetimes) returns (s: State)
    requires lt.idle >= 0 && lt.max >= 0
    ensures RefsOk(s) && s.lt == lt && s.clock == 0 && Reaches(lt, MINT + READ + UNCACHE, s)
    ensures s.created == map["s" := Birth(0, lt.max)]
    ensures s.threads == map[1 := RowLive("s", 0, Stored(0, lt.max)), 2 := Deleting("s")]
    ensures s.cache == map[] && s.rows == map["s" := Stored(0, lt.max)]
  {
    var s1 := ReachRead(lt);
    var s2 := ReachStep(lt, MINT + READ, s1, UNCACHE[0]);
    assert s2.threads == map[1 := RowLive("s", 0, Stored(0, lt.max)), 2 := Revoking("s")];
    s := ReachStep(lt, MINT + READ + [UNCACHE[0]], s2, UNCACHE[1]);
    assert MINT + READ + [UNCACHE[0]] + [UNCACHE[1]] == MINT + READ + UNCACHE;
  }

  /** "No acceptance after Invalidate" is not a law of the interleaved manager: a token is minted, the cache
      is cleared, a request reads the row, and Invalidate then runs to completion; the request goes on to
      accept the token. */
  lemma InvalidatedTokenCanBeAccepted(lt: Lifetimes) returns (s: State, steps: seq<Step>)
    requires lt.idle >= 0 && lt.max >= 0
    ensures RefsOk(s) && s.lt == lt && s.clock == 0 && Reaches(lt, MINT + READ + UNCACHE + DELETE, s)
    ensures Revoked(s, "s") && !NoneInFlight(s, "s") && Accepts(s, steps, "s")
  {
    var s1 := ReachUncached(lt);
    s := ReachStep(lt, MINT + READ + UNCACHE, s1, DELETE[0]);
    assert s.threads[1].RowLive? && ThreadOk(s, s.threads[1]) && InFlight(s, s.threads[1]);
    ReachedInv(lt, MINT + READ + UNCACHE + DELETE, s);
    steps := InFlightReturns(s, "s");
  }

  /** Thread 1 has filled the cache and holds what it put there. */
  lemma ReachHolding(lt: Lifetimes) returns (s: State)
    requires lt.idle >= 0 && lt.max >= 0
    ensures RefsOk(s) && s.lt == lt && s.clock == 0 && Reaches(lt, MINT + READ + UNCACHE + [FILL[0]], s)
    ensures "s" in s.cache && s.rows.Keys == {"s"}
    ensures s.threads == map[1 := Holding("s", 0, s.cache["s"]), 2 := Deleting("s")]
    ensures s.objs[s.cache["s"]] == Obj("s", lt.max, 0)
  {
    var s0 := ReachUncached(lt);
    s := ReachStep(lt, MINT + READ + UNCACHE, s0, FILL[0]);
    assert s.threads == map[1 := Holding("s", 0, s.cache["s"]), 2 := Deleting("s")];
  }

  lemma AcceptFromHolding(lt: Lifetimes, s0: State, run: seq<Step>) returns (s: State)
    requires lt.idle >= 0 && lt.max >= 0
    requires RefsOk(s0) && s0.lt == lt && s0.clock == 0 && Reaches(lt, run, s0) && "s" in s0.cache
    requires s0.threads == map[1 := Holding("s", 0, s0.cache["s"]), 2 := Deleting("s")]
    requires s0.objs[s0.cache["s"]] == Obj("s", lt.max, 0)
    ensures RefsOk(s) && s.lt == lt && s.clock == 0 && Reaches(lt, run + [FILL[1]], s)
    ensures s.cache == s0.cache && s.rows == s0.rows && s.objs[s.cache["s"]] == Obj("s", lt.max, 0)
    ensures s.threads == map[1 := Thread.Accepted("s", s.cache["s"]), 2 := Deleting("s")]
  {
    s := ReachStep(lt, run, s0, FILL[1]);
    assert !Expired(s0.objs[s0.cache["s"]], lt.idle, 0);
    assert s.threads == map[1 := Thread.Accepted("s", s0.cache["s"]), 2 := Deleting("s")];
  }

  lemma ReadFromAccepted(lt: Lifetimes, s0: State, run: seq<Step>) returns (s: State)
    requires RefsOk(s0) && s0.lt == lt && s0.clock == 0 && Reaches(lt, run, s0) && "s" in s0.cache
    requires s0.threads == map[1 := Thread.Accepted("s", s0.cache["s"]), 2 := Deleting("s")]
    requires s0.objs[s0.cache["s"]] == Obj("s", lt.max, 0)
    ensures RefsOk(s) && s.lt == lt && s.clock == 0 && Reaches(lt, run + [FILL[2]], s)
    ensures s.cache == s0.cache && s.rows == s0.rows && s.objs[s.cache["s"]] == Obj("s", lt.max, 0)
    ensures s.threads == map[1 := Writing("s", s0.objs[s0.cache["s"]].lastSeen), 2 := Deleting("s")]
  {
    s := ReachStep(lt, run, s0, FILL[2]);
  }

  lemma WriteAndFinish(lt: Lifetimes, s0: State, run: seq<Step>, seen: Time) returns (s: State)
    requires RefsOk(s0) && s0.lt == lt && s0.clock == 0 && Reaches(lt, run, s0)
    requires "s" in s0.cache && s0.rows.Keys == {"s"}
    requires s0.threads == map[1 := Writing("s", seen), 2 := Deleting("s")]
    requires s0.objs[s0.cache["s"]] == Obj("s", lt.max, 0)
    ensures RefsOk(s) && s.lt == lt && s.clock == 0 && Reaches(lt, run + [FILL[3]], s)
    ensures s.threads == map[2 := Deleting("s")] && "s" in s.cache && s.rows.Keys == {"s"}
    ensures s.objs[s.cache["s"]] == Obj("s", lt.max, 0)
  {
    s := ReachStep(lt, run, s0, FILL[3]);
    assert s.threads == map[2 := Deleting("s")];
  }

  lemma ReachFilled(lt: Lifetimes) returns (s: State)
    requires lt.idle >= 0 && lt.max >= 0
    ensures RefsOk(s) && s.lt == lt && s.clock == 0 && Reaches(lt, MINT + READ + UNCACHE + FILL, s)
    ensures s.threads == map[2 := Deleting("s")] && "s" in s.cache && s.rows.Keys == {"s"}
    ensures s.objs[s.cache["s"]] == Obj("s", lt.max, 0)
  {
    var s0 := ReachHolding(lt);
    var run := MINT + READ + UNCACHE + [FILL[0]];
    var s1 := AcceptFromHolding(lt, s0, run);
    var s2 := ReadFromAccepted(lt, s1, run + [FILL[1]]);
    s := WriteAndFinish(lt, s2, run + [FILL[1]] + [FILL[2]], s1.objs[s1.cache["s"]].lastSeen);
    assert run + [FILL[1]] + [FILL[2]] + [FILL[3]] == MINT + READ + UNCACHE + FILL;
  }

  /** Nor is it one when nothing is left in flight: here the request refills the cache between the two
      deletes of Invalidate, and a later request is accepted from the cache although the row is gone. */
  lemma RefilledTokenCanBeAccepted(lt: Lifetimes) returns (s: State, steps: seq<Step>)
    requires lt.idle >= 0 && lt.max >= 0
    ensures RefsOk(s) && s.lt == lt && s.clock == 0 && Reaches(lt, MINT + READ + UNCACHE + FILL + DELETE, s)
    ensures s.threads == map[] && s.rows == map[] && "s" in s.cache && Accepts(s, steps, "s")
  {
    var s1 := ReachFilled(lt);
    s := ReachStep(lt, MINT + READ + UNCACHE + FILL, s1, DELETE[0]);
    assert s.threads == map[] && s.rows == map[];
    ReachedInv(lt, MINT + READ + UNCACHE + FILL + DELETE, s);
    steps := CachedReturns(s, "s", 0);
  }
}
