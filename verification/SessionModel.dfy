/** The session manager on values: a cached machine that follows the code of Manager, and a machine
    over the `sessions` table alone. The cache is shown to be unobservable. */
module SessionModel {
  import opened Text

  type Time = int
  /** A data key, or none: encryption off, or the vault not yet unlocked. */
  datatype Dek = NoKey | Key(bytes: nat)

  datatype Lifetimes = Lifetimes(idle: int, max: int)

  /** One row of the `sessions` table, keyed by the token's digest. */
  datatype Row = Row(vault: nat, createdAt: Time, lastSeen: Time, expiresAt: Time, maxUntil: Time)

  /** The value of one in-memory Session. */
  datatype Entry = Entry(vault: nat, dek: Dek, expiresAt: Time, maxUntil: Time, lastSeen: Time, idle: int)

  datatype AuthError = ErrUnauthorized | ErrVaultLocked
  datatype Grant = Granted(session: Entry) | Denied(err: AuthError)

  /** The process-wide vault identity and data key; NoKey means "not unlocked". */
  datatype VaultKey = VaultKey(id: nat, dek: Dek)

  datatype Machine = Machine(cache: map<string, Entry>, rows: map<Digest, Row>, state: VaultKey)

  // ---- The manager's operations, step by step as the code performs them ----

  /** insertOk: whether the INSERT statement works; the primary key may refuse it all the same. */
  function Create(m: Machine, lt: Lifetimes, token: string, vault: nat, dek: Dek, now: Time, insertOk: bool)
    : (Machine, bool)
  {
    var th := Sha256(token);
    if !insertOk || th in m.rows then (m, false)
    else
      var row := Row(vault, now, now, now + lt.idle, now + lt.max);
      var entry := Entry(vault, dek, now + lt.idle, now + lt.max, now, lt.idle);
      var state := if m.state.dek == NoKey && dek != NoKey then VaultKey(vault, dek) else m.state;
      (Machine(m.cache[token := entry], m.rows[th := row], state), true)
  }

  predicate RowDead(row: Row, lt: Lifetimes, now: Time) {
    now > row.maxUntil || now - row.lastSeen > lt.idle
  }

  function Filled(row: Row, lt: Lifetimes, dek: Dek): Entry {
    Entry(row.vault, dek, row.expiresAt, row.maxUntil, row.lastSeen, lt.idle)
  }

  /** Lines 187-212: check and extend a session the cache holds, writing the row through. */
  function Extend(m: Machine, token: string, now: Time): (Machine, Grant)
    requires token in m.cache
  {
    var th := Sha256(token);
    var s := m.cache[token];
    if now > s.maxUntil || now - s.lastSeen > s.idle then
      (m.(cache := m.cache - {token}, rows := m.rows - {th}), Denied(ErrVaultLocked))
    else
      var s' := s.(lastSeen := now, expiresAt := now + s.idle);
      var rows' := if th in m.rows then m.rows[th := m.rows[th].(lastSeen := now, expiresAt := now + s.idle)]
                   else m.rows;
      (m.(cache := m.cache[token := s'], rows := rows'), Granted(s'))
  }

  function Touch(m: Machine, lt: Lifetimes, token: string, now: Time): (Machine, Grant) {
    var th := Sha256(token);
    if token == "" then (m, Denied(ErrUnauthorized))
    else if token in m.cache then Extend(m, token, now)
    else if th !in m.rows then (m, Denied(ErrUnauthorized))
    else if RowDead(m.rows[th], lt, now) then (m.(rows := m.rows - {th}), Denied(ErrVaultLocked))
    else Extend(m.(cache := m.cache[token := Filled(m.rows[th], lt, m.state.dek)]), token, now)
  }

  function Invalidate(m: Machine, token: string): Machine {
    m.(cache := m.cache - {token}, rows := m.rows - {Sha256(token)})
  }

  function InvalidateAll(m: Machine): Machine {
    m.(cache := map[])
  }

  // ---- Runs ----

  datatype Op =
    | OpCreate(token: string, vault: nat, dek: Dek, now: Time, insertOk: bool)
    | OpTouch(token: string, now: Time)
    | OpInvalidate(token: string)
    | OpInvalidateAll

  /** What a caller can tell apart, the data key aside (Daemon deals with the key). */
  datatype Verdict =
    | Created(ok: bool)
    | Accept(vault: nat, lastSeen: Time, expiresAt: Time, maxUntil: Time)
    | Reject(err: AuthError)
    | Done

  function Public(g: Grant): Verdict {
    match g
    case Granted(s) => Accept(s.vault, s.lastSeen, s.expiresAt, s.maxUntil)
    case Denied(e) => Reject(e)
  }

  function Step(m: Machine, lt: Lifetimes, op: Op): (Machine, Verdict) {
    match op
    case OpCreate(t, v, k, now, insertOk) => var (m', ok) := Create(m, lt, t, v, k, now, insertOk); (m', Created(ok))
    case OpTouch(t, now) => var (m', g) := Touch(m, lt, t, now); (m', Public(g))
    case OpInvalidate(t) => (Invalidate(m, t), Done)
    case OpInvalidateAll => (InvalidateAll(m), Done)
  }

  function Run(m: Machine, lt: Lifetimes, ops: seq<Op>): (Machine, seq<Verdict>)
    decreases |ops|
  {
    if ops == [] then (m, [])
    else
      var (m1, v) := Step(m, lt, ops[0]);
      var (m2, vs) := Run(m1, lt, ops[1..]);
      (m2, [v] + vs)
  }

  // ---- The reference: the table alone ----

  /** One statement's worth of meaning: a live row is accepted and extended, a dead one is removed. */
  function TableStep(rows: map<Digest, Row>, lt: Lifetimes, op: Op): (map<Digest, Row>, Verdict) {
    match op
    case OpCreate(t, v, _, now, insertOk) =>
      if !insertOk || Sha256(t) in rows then (rows, Created(false))
      else (rows[Sha256(t) := Row(v, now, now, now + lt.idle, now + lt.max)], Created(true))
    case OpTouch(t, now) =>
      if t == "" || Sha256(t) !in rows then (rows, Reject(ErrUnauthorized))
      else
        var row := rows[Sha256(t)];
        if RowDead(row, lt, now) then (rows - {Sha256(t)}, Reject(ErrVaultLocked))
        else
          var row' := row.(lastSeen := now, expiresAt := now + lt.idle);
          (rows[Sha256(t) := row'], Accept(row.vault, now, now + lt.idle, row.maxUntil))
    case OpInvalidate(t) => (rows - {Sha256(t)}, Done)
    case OpInvalidateAll => (rows, Done)
  }

  function TableRun(rows: map<Digest, Row>, lt: Lifetimes, ops: seq<Op>): (map<Digest, Row>, seq<Verdict>)
    decreases |ops|
  {
    if ops == [] then (rows, [])
    else
      var (r1, v) := TableStep(rows, lt, ops[0]);
      var (r2, vs) := TableRun(r1, lt, ops[1..]);
      (r2, [v] + vs)
  }

  // ---- Cache refinement ----

  predicate Agrees(e: Entry, row: Row, lt: Lifetimes) {
    && e.vault == row.vault && e.expiresAt == row.expiresAt && e.maxUntil == row.maxUntil
    && e.lastSeen == row.lastSeen && e.idle == lt.idle
  }

  /** The coupling invariant: every cached session is its row. */
  predicate Coupled(m: Machine, lt: Lifetimes) {
    forall t :: t in m.cache ==>
      t != "" && Sha256(t) in m.rows && Agrees(m.cache[t], m.rows[Sha256(t)], lt)
  }

  /** Tokens are 64 hex digits, so a minted token is never empty. */
  predicate Mints(op: Op) {
    op.OpCreate? ==> op.token != ""
  }

  lemma StepRefinesTable(m: Machine, lt: Lifetimes, op: Op)
    requires Coupled(m, lt) && Mints(op)
    ensures var (m', v) := Step(m, lt, op);
      && Coupled(m', lt)
      && TableStep(m.rows, lt, op) == (m'.rows, v)
  {
    var (m', v) := Step(m, lt, op);
    if op.OpTouch? && op.token != "" && op.token in m.cache {
      assert Agrees(m.cache[op.token], m.rows[Sha256(op.token)], lt);
    }
  }

  /** Every sequential run gives exactly the verdicts of the table alone. */
  lemma {:induction false} RunRefinesTable(m: Machine, lt: Lifetimes, ops: seq<Op>)
    requires Coupled(m, lt)
    requires forall i :: 0 <= i < |ops| ==> Mints(ops[i])
    ensures var (m', vs) := Run(m, lt, ops);
      && Coupled(m', lt)
      && TableRun(m.rows, lt, ops) == (m'.rows, vs)
    decreases |ops|
  {
    if ops != [] {
      StepRefinesTable(m, lt, ops[0]);
      RunRefinesTable(Step(m, lt, ops[0]).0, lt, ops[1..]);
    }
  }

  /** Two machines with the same rows cannot be told apart, whatever their caches hold. */
  lemma CacheIsUnobservable(m1: Machine, m2: Machine, lt: Lifetimes, ops: seq<Op>)
    requires Coupled(m1, lt) && Coupled(m2, lt) && m1.rows == m2.rows
    requires forall i :: 0 <= i < |ops| ==> Mints(ops[i])
    ensures Run(m1, lt, ops).1 == Run(m2, lt, ops).1
  {
    RunRefinesTable(m1, lt, ops);
    RunRefinesTable(m2, lt, ops);
  }

  /** Clearing the cache anywhere in a run changes no later verdict. */
  lemma InvalidateAllIsUnobservable(m: Machine, lt: Lifetimes, ops: seq<Op>)
    requires Coupled(m, lt)
    requires forall i :: 0 <= i < |ops| ==> Mints(ops[i])
    ensures Run(InvalidateAll(m), lt, ops).1 == Run(m, lt, ops).1
  {
    CacheIsUnobservable(InvalidateAll(m), m, lt, ops);
  }

  // ---- Sequential revocation ----

  predicate Remints(op: Op, token: string) {
    op.OpCreate? && op.token == token
  }

  lemma {:induction false} RowlessTokenStaysRejected(rows: map<Digest, Row>, lt: Lifetimes, ops: seq<Op>, token: string)
    requires Sha256(token) !in rows
    requires forall i :: 0 <= i < |ops| ==> !Remints(ops[i], token)
    ensures var (rows', vs) := TableRun(rows, lt, ops);
      && Sha256(token) !in rows'
      && |vs| == |ops|
      && forall i :: 0 <= i < |ops| && ops[i].OpTouch? && ops[i].token == token ==> vs[i] == Reject(ErrUnauthorized)
    decreases |ops|
  {
    if ops != [] {
      assert !Remints(ops[0], token);
      var (r1, v) := TableStep(rows, lt, ops[0]);
      RowlessTokenStaysRejected(r1, lt, ops[1..], token);
      var (rows', vs) := TableRun(rows, lt, ops);
      forall i | 0 <= i < |ops| && ops[i].OpTouch? && ops[i].token == token
        ensures vs[i] == Reject(ErrUnauthorized)
      {
        if i > 0 { assert ops[i] == ops[1..][i - 1]; }
      }
    }
  }

  /** After Invalidate, a token that is not minted again is rejected as unknown for ever. */
  lemma InvalidateIsFinal(m: Machine, lt: Lifetimes, token: string, ops: seq<Op>)
    requires Coupled(m, lt)
    requires forall i :: 0 <= i < |ops| ==> Mints(ops[i]) && !Remints(ops[i], token)
    ensures var vs := Run(Invalidate(m, token), lt, ops).1;
      && |vs| == |ops|
      && forall i :: 0 <= i < |ops| && ops[i].OpTouch? && ops[i].token == token ==> vs[i] == Reject(ErrUnauthorized)
  {
    StepRefinesTable(m, lt, OpInvalidate(token));
    RunRefinesTable(Invalidate(m, token), lt, ops);
    RowlessTokenStaysRejected(Invalidate(m, token).rows, lt, ops, token);
  }
}
