/** What a client of the sequential session manager can rely on, from the times of its own requests alone: a
    reference machine that knows one token and no tables. */
module SessionLaws {
  import opened Text
  import opened SessionModel

  /** A use at the time now of a session minted at born and last used at u; None once it is dead. */
  function UseAt(lt: Lifetimes, born: Time, u: Option<Time>, now: Time): Option<Time> {
    if u.Some? && now - born <= lt.max && now - u.value <= lt.idle then Some(now) else None
  }

  /** The last use after some operations, of which only the requests of this token count. */
  function LastUse(lt: Lifetimes, born: Time, u: Option<Time>, ops: seq<Op>, token: string): Option<Time>
    decreases |ops|
  {
    if ops == [] then u
    else
      var u' := if ops[0].OpTouch? && ops[0].token == token then UseAt(lt, born, u, ops[0].now) else u;
      LastUse(lt, born, u', ops[1..], token)
  }

  /** Neither minted again nor invalidated. */
  predicate LeavesAlone(op: Op, token: string) {
    (op.OpCreate? || op.OpInvalidate?) ==> op.token != token
  }

  /** The row of the token says what the reference machine knows. */
  predicate Knows(rows: map<Digest, Row>, lt: Lifetimes, token: string, born: Time, u: Option<Time>) {
    if u.None? then Sha256(token) !in rows
    else
      && Sha256(token) in rows
      && rows[Sha256(token)].lastSeen == u.value && rows[Sha256(token)].maxUntil == born + lt.max
  }

  lemma StepKnows(rows: map<Digest, Row>, lt: Lifetimes, op: Op, token: string, born: Time, u: Option<Time>)
    requires Knows(rows, lt, token, born, u) && LeavesAlone(op, token) && token != ""
    ensures var (rows', v) := TableStep(rows, lt, op);
      && Knows(rows', lt, token, born, LastUse(lt, born, u, [op], token))
      && (op.OpTouch? && op.token == token ==>
            && (v.Accept? <==> UseAt(lt, born, u, op.now).Some?)
            && (!v.Accept? ==> v == Reject(if u.None? then ErrUnauthorized else ErrVaultLocked)))
  {
    var u' := if op.OpTouch? && op.token == token then UseAt(lt, born, u, op.now) else u;
    assert [op][1..] == [] && LastUse(lt, born, u, [op], token) == LastUse(lt, born, u', [], token) == u';
  }

  lemma {:induction false} RunKnows(
      rows: map<Digest, Row>, lt: Lifetimes, ops: seq<Op>, token: string, born: Time, u: Option<Time>, i: nat)
    requires Knows(rows, lt, token, born, u) && token != "" && i < |ops|
    requires forall j :: 0 <= j < |ops| ==> LeavesAlone(ops[j], token)
    requires ops[i].OpTouch? && ops[i].token == token
    ensures var vs := TableRun(rows, lt, ops).1;
      var before := LastUse(lt, born, u, ops[..i], token);
      && |vs| == |ops|
      && (vs[i].Accept? <==> UseAt(lt, born, before, ops[i].now).Some?)
      && (!vs[i].Accept? ==> vs[i] == Reject(if before.None? then ErrUnauthorized else ErrVaultLocked))
    decreases |ops|
  {
    StepKnows(rows, lt, ops[0], token, born, u);
    var (r1, v) := TableStep(rows, lt, ops[0]);
    TableVerdicts(r1, lt, ops[1..]);
    assert [ops[0]][1..] == [];
    if i > 0 {
      RunKnows(r1, lt, ops[1..], token, born, LastUse(lt, born, u, [ops[0]], token), i - 1);
      assert ops[..i][1..] == ops[1..][..i - 1] && ops[..i][0] == ops[0];
    }
  }

  lemma {:induction false} TableVerdicts(rows: map<Digest, Row>, lt: Lifetimes, ops: seq<Op>)
    ensures |TableRun(rows, lt, ops).1| == |ops|
    decreases |ops|
  {
    if ops != [] { TableVerdicts(TableStep(rows, lt, ops[0]).0, lt, ops[1..]); }
  }

  /** After a creation, whatever else the manager is asked and whenever its cache is cleared, a request with the
      token is accepted exactly when it comes within max of the creation and within idle of the last accepted
      one (or of the creation), and no request came too late before; the one that comes too late is told so,
      and those after it are unknown. */
  lemma AcceptedExactlyInTime(
      m: Machine, lt: Lifetimes, token: string, vault: nat, dek: Dek, born: Time, ops: seq<Op>, i: nat)
    requires Coupled(m, lt) && token != "" && Sha256(token) !in m.rows && i < |ops|
    requires forall j :: 0 <= j < |ops| ==> Mints(ops[j]) && LeavesAlone(ops[j], token)
    requires ops[i].OpTouch? && ops[i].token == token
    ensures var (m1, ok) := Create(m, lt, token, vault, dek, born, true);
      var vs := Run(m1, lt, ops).1;
      var before := LastUse(lt, born, Some(born), ops[..i], token);
      && ok && |vs| == |ops|
      && (vs[i].Accept? <==> UseAt(lt, born, before, ops[i].now).Some?)
      && (!vs[i].Accept? ==> vs[i] == Reject(if before.None? then ErrUnauthorized else ErrVaultLocked))
  {
    var m1 := Create(m, lt, token, vault, dek, born, true).0;
    StepRefinesTable(m, lt, OpCreate(token, vault, dek, born, true));
    RunRefinesTable(m1, lt, ops);
    RunKnows(m1.rows, lt, ops, token, born, Some(born), i);
  }
}
