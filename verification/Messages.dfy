/** The session_messages table as a bounded buffer. Rows are kept in order of creation, which is what
    ORDER BY created_at means when no two messages of a session share a timestamp. */
module Messages {
  import Tuning

  /** The columns that name the session of a message. */
  datatype SessionId = SessionId(vault: nat, user: nat, key: string)

  datatype Message = Message(session: SessionId, role: string, content: string)

  /** The messages of one session, oldest first. */
  function Mine(rows: seq<Message>, k: SessionId): seq<Message> {
    if rows == [] then []
    else
      var init, last := rows[..|rows| - 1], rows[|rows| - 1];
      if last.session == k then Mine(init, k) + [last] else Mine(init, k)
  }

  function LastN<T>(s: seq<T>, n: nat): (r: seq<T>)
    ensures |r| == if |s| <= n then |s| else n
  {
    if |s| <= n then s else s[|s| - n..]
  }

  /** rows without the messages of k older than its keep newest ones. */
  function Pruned(rows: seq<Message>, k: SessionId, keep: nat): seq<Message> {
    if rows == [] then []
    else
      var init, last := rows[..|rows| - 1], rows[|rows| - 1];
      if last.session != k then Pruned(init, k, keep) + [last]
      else if keep == 0 then Pruned(init, k, 0)
      else Pruned(init, k, keep - 1) + [last]
  }

  lemma MineAppend(rows: seq<Message>, m: Message, k: SessionId)
    ensures Mine(rows + [m], k) == if m.session == k then Mine(rows, k) + [m] else Mine(rows, k)
  {
    assert (rows + [m])[..|rows|] == rows;
  }

  lemma LastNAppend<T>(s: seq<T>, x: T, n: nat)
    requires n > 0
    ensures LastN(s + [x], n) == LastN(s, n - 1) + [x]
  {
  }

  /** Pruning keeps exactly the keep newest messages of the session, and every other session whole. */
  lemma {:induction false} PrunedMine(rows: seq<Message>, k: SessionId, keep: nat, j: SessionId)
    ensures Mine(Pruned(rows, k, keep), j) == if j == k then LastN(Mine(rows, k), keep) else Mine(rows, j)
    decreases |rows|
  {
    if rows != [] {
      var init, last := rows[..|rows| - 1], rows[|rows| - 1];
      if last.session != k {
        PrunedMine(init, k, keep, j);
        MineAppend(Pruned(init, k, keep), last, j);
      } else if keep == 0 {
        PrunedMine(init, k, 0, j);
      } else {
        PrunedMine(init, k, keep - 1, j);
        MineAppend(Pruned(init, k, keep - 1), last, j);
        LastNAppend(Mine(init, k), last, keep);
      }
    }
  }

  class MessageLog {
    var rows: seq<Message>

    constructor ()
      ensures rows == []
    {
      rows := [];
    }

    method Append(m: Message)
      modifies this
      ensures rows == old(rows) + [m]
    {
      rows := rows + [m];
    }

    method Prune(k: SessionId, keep: nat, ok: bool)
      modifies this
      ensures rows == if ok then Pruned(old(rows), k, keep) else old(rows)
    {
      if ok { rows := Pruned(rows, k, keep); }
    }

    /** SELECT ... ORDER BY created_at DESC LIMIT n. */
    method SelectNewest(k: SessionId, limit: nat) returns (newest: seq<Message>)
      ensures Reversed(newest) == LastN(Mine(rows, k), limit)
    {
      newest := [];
      var i := |rows|;
      while i > 0 && |newest| < limit
        invariant 0 <= i <= |rows|
        invariant |newest| <= limit
        invariant newest + Newest(rows, i, k, limit - |newest|) == Newest(rows, |rows|, k, limit)
      {
        i := i - 1;
        if rows[i].session == k {
          NewestStep(rows, i, k, limit - |newest|, newest);
          newest := newest + [rows[i]];
        }
      }
      NewestIsLastN(rows, |rows|, k, limit);
      assert rows[..|rows|] == rows;
    }

    /** The newest rows, reversed in place to chronological order. */
    method Recent(k: SessionId, limit: nat) returns (out: seq<Message>)
      ensures out == LastN(Mine(rows, k), limit)
    {
      var newest := SelectNewest(k, limit);
      var a := new Message[|newest|](j requires 0 <= j < |newest| => newest[j]);
      assert a[..] == newest;
      ReverseInPlace(a);
      out := a[..];
    }
  }

  /** The n newest messages of k among the first i rows, newest first. */
  function Newest(rows: seq<Message>, i: nat, k: SessionId, n: nat): seq<Message>
    requires i <= |rows|
  {
    if i == 0 || n == 0 then []
    else if rows[i - 1].session == k then [rows[i - 1]] + Newest(rows, i - 1, k, n - 1)
    else Newest(rows, i - 1, k, n)
  }

  lemma NewestStep(rows: seq<Message>, i: nat, k: SessionId, n: nat, found: seq<Message>)
    requires i < |rows| && n > 0 && rows[i].session == k
    ensures found + Newest(rows, i + 1, k, n) == (found + [rows[i]]) + Newest(rows, i, k, n - 1)
  {
  }

  lemma {:induction false} NewestIsLastN(rows: seq<Message>, i: nat, k: SessionId, n: nat)
    requires i <= |rows|
    ensures Reversed(Newest(rows, i, k, n)) == LastN(Mine(rows[..i], k), n)
  {
    if i > 0 && n > 0 {
      assert rows[..i] == rows[..i - 1] + [rows[i - 1]];
      MineAppend(rows[..i - 1], rows[i - 1], k);
      if rows[i - 1].session == k {
        NewestIsLastN(rows, i - 1, k, n - 1);
        ReversedPrepend(rows[i - 1], Newest(rows, i - 1, k, n - 1));
        LastNAppend(Mine(rows[..i - 1], k), rows[i - 1], n);
      } else {
        NewestIsLastN(rows, i - 1, k, n);
      }
    }
  }

  function Reversed<T>(s: seq<T>): (r: seq<T>)
    ensures |r| == |s| && forall i :: 0 <= i < |s| ==> r[i] == s[|s| - 1 - i]
  {
    seq(|s|, i requires 0 <= i < |s| => s[|s| - 1 - i])
  }

  lemma ReversedPrepend<T>(x: T, s: seq<T>)
    ensures Reversed([x] + s) == Reversed(s) + [x]
  {
  }

  method ReverseInPlace(a: array<Message>)
    modifies a
    ensures a[..] == Reversed(old(a[..]))
  {
    var i, j := 0, a.Length - 1;
    while i < j
      invariant 0 <= i <= j + 1 <= a.Length && i + j == a.Length - 1
      invariant forall p :: 0 <= p < i || j < p < a.Length ==> a[p] == old(a[a.Length - 1 - p])
      invariant forall p :: i <= p <= j ==> a[p] == old(a[p])
    {
      a[i], a[j] := a[j], a[i];
      i, j := i + 1, j - 1;
    }
  }

  // ---- The buffer refines the full log ----

  datatype Op =
    | OpAppend(m: Message)
    | OpPrune(session: SessionId, keep: nat, ok: bool)

  function Apply(rows: seq<Message>, op: Op): seq<Message> {
    match op
    case OpAppend(m) => rows + [m]
    case OpPrune(k, keep, ok) => if ok then Pruned(rows, k, keep) else rows
  }

  function Run(rows: seq<Message>, ops: seq<Op>): seq<Message> {
    if ops == [] then rows else Apply(Run(rows, ops[..|ops| - 1]), ops[|ops| - 1])
  }

  /** Everything ever appended. */
  function Log(ops: seq<Op>): seq<Message> {
    if ops == [] then []
    else
      var init, last := ops[..|ops| - 1], ops[|ops| - 1];
      if last.OpAppend? then Log(init) + [last.m] else Log(init)
  }

  predicate KeepsAtLeast(ops: seq<Op>, k: SessionId, n: nat) {
    forall i :: 0 <= i < |ops| && ops[i].OpPrune? && ops[i].session == k ==> ops[i].keep >= n
  }

  /** What is stored of a session is the newest part of its log, and at least n messages of it. */
  predicate HoldsLast(stored: seq<Message>, log: seq<Message>, n: nat) {
    |stored| <= |log| && stored == LastN(log, |stored|) && LastN(stored, n) == LastN(log, n)
  }

  lemma HoldsLastAppend(stored: seq<Message>, log: seq<Message>, n: nat, m: Message)
    requires HoldsLast(stored, log, n)
    ensures HoldsLast(stored + [m], log + [m], n)
  {
    LastNAppend(log, m, |stored| + 1);
    if n > 0 {
      LastNAppend(stored, m, n);
      LastNAppend(log, m, n);
      LastNOfLastN(stored, log, n);
    }
  }

  lemma LastNOfLastN(stored: seq<Message>, log: seq<Message>, n: nat)
    requires n > 0 && LastN(stored, n) == LastN(log, n)
    ensures LastN(stored, n - 1) == LastN(log, n - 1)
  {
    assert LastN(stored, n - 1) == LastN(LastN(stored, n), n - 1);
    assert LastN(log, n - 1) == LastN(LastN(log, n), n - 1);
  }

  lemma LastNNested<T>(s: seq<T>, keep: nat, n: nat)
    ensures n <= keep ==> LastN(LastN(s, keep), n) == LastN(s, n)
    ensures |s| <= keep ==> LastN(LastN(s, keep), n) == LastN(s, n)
    ensures n > keep && |s| > keep ==> |LastN(LastN(s, keep), n)| < |LastN(s, n)|
  {
  }

  lemma HoldsLastPrune(stored: seq<Message>, log: seq<Message>, n: nat, keep: nat)
    requires HoldsLast(stored, log, n) && keep >= n
    ensures HoldsLast(LastN(stored, keep), log, n)
  {
    LastNNested(stored, keep, n);
    LastNNested(log, |stored|, keep);
  }

  lemma {:induction false} BufferHoldsLast(ops: seq<Op>, k: SessionId, n: nat)
    requires KeepsAtLeast(ops, k, n)
    ensures HoldsLast(Mine(Run([], ops), k), Mine(Log(ops), k), n)
    decreases |ops|
  {
    if ops != [] {
      var init, last := ops[..|ops| - 1], ops[|ops| - 1];
      BufferHoldsLast(init, k, n);
      var rows, log := Run([], init), Log(init);
      if last.OpAppend? {
        MineAppend(rows, last.m, k);
        MineAppend(log, last.m, k);
        HoldsLastAppend(Mine(rows, k), Mine(log, k), n, last.m);
      } else if last.ok {
        PrunedMine(rows, last.session, last.keep, k);
        if last.session == k { HoldsLastPrune(Mine(rows, k), Mine(log, k), n, last.keep); }
      }
    }
  }

  /** If every prune of a session keeps at least n messages, then after any run the n most recent stored
      messages are the n last ever appended, in order. */
  lemma RecentRefinesLog(ops: seq<Op>, k: SessionId, n: nat)
    requires KeepsAtLeast(ops, k, n)
    ensures LastN(Mine(Run([], ops), k), n) == LastN(Mine(Log(ops), k), n)
  {
    BufferHoldsLast(ops, k, n);
  }

  /** The messages of k appended after step i. */
  function Since(ops: seq<Op>, i: nat, k: SessionId): nat {
    if i + 1 >= |ops| then 0
    else
      var last := ops[|ops| - 1];
      Since(ops[..|ops| - 1], i, k) + if last.OpAppend? && last.m.session == k then 1 else 0
  }

  predicate Prunes(op: Op, k: SessionId) {
    op.OpPrune? && op.ok && op.session == k
  }

  /** After every successful prune of k there are again x messages, kept or appended since. */
  predicate RefilledTo(ops: seq<Op>, k: SessionId, x: int) {
    forall i :: 0 <= i < |ops| && Prunes(ops[i], k) ==> ops[i].keep + Since(ops, i, k) >= x
  }

  lemma RefilledStep(ops: seq<Op>, k: SessionId, x: int)
    requires ops != []
    ensures var init, last := ops[..|ops| - 1], ops[|ops| - 1];
      var one := if last.OpAppend? && last.m.session == k then 1 else 0;
      RefilledTo(ops, k, x) <==> RefilledTo(init, k, x - one) && (Prunes(last, k) ==> last.keep >= x)
  {
    var init, last := ops[..|ops| - 1], ops[|ops| - 1];
    var one := if last.OpAppend? && last.m.session == k then 1 else 0;
    assert forall i :: 0 <= i < |init| ==> init[i] == ops[i] && Since(ops, i, k) == Since(init, i, k) + one;
    if RefilledTo(ops, k, x) {
      assert Prunes(last, k) ==> Since(ops, |ops| - 1, k) == 0;
    }
  }

  /** How much of a session is stored: x messages or more exactly when that many were appended, and every
      prune left or was followed by that many. */
  lemma {:induction false} StoresAtLeastIff(ops: seq<Op>, k: SessionId, x: int)
    ensures |Mine(Run([], ops), k)| >= x <==> |Mine(Log(ops), k)| >= x && RefilledTo(ops, k, x)
    decreases |ops|
  {
    if ops != [] {
      var init, last := ops[..|ops| - 1], ops[|ops| - 1];
      var rows, log := Run([], init), Log(init);
      RefilledStep(ops, k, x);
      if last.OpAppend? {
        MineAppend(rows, last.m, k);
        MineAppend(log, last.m, k);
        StoresAtLeastIff(init, k, if last.m.session == k then x - 1 else x);
      } else {
        StoresAtLeastIff(init, k, x);
        if last.ok { PrunedMine(rows, last.session, last.keep, k); }
      }
    }
  }

  lemma SuffixesAgreeIff<T>(log: seq<T>, m: nat, n: nat)
    requires m <= |log|
    ensures LastN(LastN(log, m), n) == LastN(log, n) <==> m >= if n <= |log| then n else |log|
  {
    LastNNested(log, m, n);
  }

  /** After any run, with any prunes: a reader of n messages sees the last n ever appended if and only if every
      successful prune of the session kept, or was followed by, as many messages as the reader should see. */
  lemma RecentIsLastIff(ops: seq<Op>, k: SessionId, n: nat)
    ensures var total := |Mine(Log(ops), k)|;
      LastN(Mine(Run([], ops), k), n) == LastN(Mine(Log(ops), k), n)
      <==> RefilledTo(ops, k, if n <= total then n else total)
  {
    var log := Mine(Log(ops), k);
    BufferHoldsLast(ops, k, 0);
    SuffixesAgreeIff(log, |Mine(Run([], ops), k)|, n);
    StoresAtLeastIff(ops, k, if n <= |log| then n else |log|);
  }

  /** Valid tuning under which a prune hides a message from the infer path: it keeps one and reads two. */
  const HIDING: Tuning.RuntimeTuning :=
    Tuning.DEFAULT.(pruneSessionMessagesKeep := 1, recentSessionMessagesInfer := 2)

  lemma RunSnoc(ops: seq<Op>, op: Op)
    ensures Run([], ops + [op]) == Apply(Run([], ops), op)
    ensures Log(ops + [op]) == if op.OpAppend? then Log(ops) + [op.m] else Log(ops)
  {
    assert (ops + [op])[..|ops|] == ops;
  }

  /** Two messages of a session, and a prune that keeps one. */
  function PairThenPrune(a: Message, b: Message, k: SessionId): seq<Op> {
    [OpAppend(a), OpAppend(b), OpPrune(k, 1, true)]
  }

  lemma PairAppended(a: Message, b: Message)
    ensures Run([], [OpAppend(a), OpAppend(b)]) == [a, b] && Log([OpAppend(a), OpAppend(b)]) == [a, b]
  {
    RunSnoc([], OpAppend(a));
    assert [] + [OpAppend(a)] == [OpAppend(a)] && [] + [a] == [a];
    RunSnoc([OpAppend(a)], OpAppend(b));
    assert [OpAppend(a)] + [OpAppend(b)] == [OpAppend(a), OpAppend(b)] && [a] + [b] == [a, b];
  }

  lemma PairRuns(a: Message, b: Message, k: SessionId)
    ensures Run([], PairThenPrune(a, b, k)) == Pruned([a, b], k, 1) && Log(PairThenPrune(a, b, k)) == [a, b]
  {
    var two, last := [OpAppend(a), OpAppend(b)], OpPrune(k, 1, true);
    PairAppended(a, b);
    RunSnoc(two, last);
    assert two + [last] == PairThenPrune(a, b, k);
    assert Apply([a, b], last) == Pruned([a, b], k, 1);
  }

  lemma MineOfPair(a: Message, b: Message, k: SessionId)
    requires a.session == k && b.session == k
    ensures Mine([a, b], k) == [a, b]
  {
    MineAppend([], a, k);
    MineAppend([] + [a], b, k);
    assert [] + [a] + [b] == [a, b];
  }

  lemma PairIsCut(a: Message, b: Message, k: SessionId)
    requires a.session == k && b.session == k
    ensures Mine(Run([], PairThenPrune(a, b, k)), k) == [b] && Mine(Log(PairThenPrune(a, b, k)), k) == [a, b]
  {
    PairRuns(a, b, k);
    MineOfPair(a, b, k);
    PrunedMine([a, b], k, 1, k);
  }

  lemma ValidTuningMayHide(a: Message, b: Message, k: SessionId)
    requires a.session == k && b.session == k
    ensures Tuning.Valid(HIDING)
    ensures HIDING.pruneSessionMessagesKeep == 1
    ensures LastN(Mine(Run([], PairThenPrune(a, b, k)), k), HIDING.recentSessionMessagesInfer) == [b]
    ensures LastN(Mine(Log(PairThenPrune(a, b, k)), k), HIDING.recentSessionMessagesInfer) == [a, b]
  {
    Tuning.DefaultIsValid();
    PairIsCut(a, b, k);
  }

  /** One prune loses nothing that a reader of n messages would see exactly when it keeps n messages or
      there are no more than it keeps. Nothing in the tuning rules ties the two limits together. */
  lemma PruneIsInvisibleIff(rows: seq<Message>, k: SessionId, keep: nat, n: nat)
    ensures LastN(Mine(Pruned(rows, k, keep), k), n) == LastN(Mine(rows, k), n) <==>
            n <= keep || |Mine(rows, k)| <= keep
  {
    PrunedMine(rows, k, keep, k);
    LastNNested(Mine(rows, k), keep, n);
  }

  /** A successful prune leaves at most keep messages of the session. */
  lemma PruneBounds(rows: seq<Message>, k: SessionId, keep: nat)
    ensures |Mine(Pruned(rows, k, keep), k)| <= keep
  {
    PrunedMine(rows, k, keep, k);
  }
}
