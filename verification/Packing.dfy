/** The packing loop of a retrieve: ranked chunks are taken greedily under a chunk limit and a token budget. */
module Packing {
  import opened Text
  import opened Scoring

  /** A ranked chunk that was loaded, with its token estimate. */
  datatype Item = Item(chunk: ScoredChunk, est: nat)

  datatype PackResult = PackResult(
    included: seq<Item>,
    tokenSkipped: seq<Item>,
    chunkSkipped: seq<ScoredChunk>,
    failed: seq<ScoredChunk>)

  /** cost: the token estimate of a chunk once loaded and decoded; None when that fails. */
  datatype Request = Request(cost: Id -> Option<nat>, maxChunks: nat, maxTokens: int)

  predicate OverBudget(q: Request, used: nat, est: nat) {
    q.maxTokens > 0 && used + est > q.maxTokens
  }

  /** Greedy packing of the rest of a ranking, when count chunks worth used tokens are already taken. */
  function Pack(ranked: seq<ScoredChunk>, q: Request, count: nat, used: nat): PackResult {
    if ranked == [] then PackResult([], [], [], [])
    else if count >= q.maxChunks then PackResult([], [], ranked, [])
    else
      var c := ranked[0];
      if q.cost(c.id).None? then
        var r := Pack(ranked[1..], q, count, used);
        r.(failed := [c] + r.failed)
      else
        var it := Item(c, q.cost(c.id).value);
        if OverBudget(q, used, it.est) then
          var r := Pack(ranked[1..], q, count, used);
          r.(tokenSkipped := [it] + r.tokenSkipped)
        else
          var r := Pack(ranked[1..], q, count + 1, used + it.est);
          r.(included := [it] + r.included)
  }

  function Total(items: seq<Item>): nat {
    if items == [] then 0 else items[0].est + Total(items[1..])
  }

  function Chunks(items: seq<Item>): (s: seq<ScoredChunk>)
    ensures |s| == |items| && forall i :: 0 <= i < |s| ==> s[i] == items[i].chunk
  {
    seq(|items|, i requires 0 <= i < |items| => items[i].chunk)
  }

  /** s is t with some elements left out. */
  predicate Subsequence<T(==)>(s: seq<T>, t: seq<T>) {
    s == [] || (t != [] && ((s[0] == t[0] && Subsequence(s[1..], t[1..])) || Subsequence(s, t[1..])))
  }

  function Join(a: PackResult, b: PackResult): PackResult {
    PackResult(
      a.included + b.included, a.tokenSkipped + b.tokenSkipped, a.chunkSkipped + b.chunkSkipped, a.failed + b.failed)
  }

  // ---- The loop ----

  method PackLoop(ranked: seq<ScoredChunk>, q: Request) returns (acc: PackResult, tokensUsed: nat)
    ensures acc == Pack(ranked, q, 0, 0)
    ensures tokensUsed == Total(acc.included)
  {
    acc := PackResult([], [], [], []);
    tokensUsed := 0;
    var i := 0;
    while i < |ranked|
      invariant 0 <= i <= |ranked|
      invariant tokensUsed == Total(acc.included)
      invariant Join(acc, Pack(ranked[i..], q, |acc.included|, tokensUsed)) == Pack(ranked, q, 0, 0)
      decreases |ranked| - i
    {
      var rest := ranked[i..];
      assert rest[1..] == ranked[i + 1..] && rest[0] == ranked[i];
      if |acc.included| >= q.maxChunks {
        acc := acc.(chunkSkipped := acc.chunkSkipped + rest);
        return;
      }
      var c := ranked[i];
      i := i + 1;
      if q.cost(c.id).None? {
        JoinFailed(acc, c, Pack(rest[1..], q, |acc.included|, tokensUsed));
        acc := acc.(failed := acc.failed + [c]);
        continue;
      }
      var est := q.cost(c.id).value;
      if q.maxTokens > 0 && tokensUsed + est > q.maxTokens {
        JoinTokenSkipped(acc, Item(c, est), Pack(rest[1..], q, |acc.included|, tokensUsed));
        acc := acc.(tokenSkipped := acc.tokenSkipped + [Item(c, est)]);
        continue;
      }
      JoinIncluded(acc, Item(c, est), Pack(rest[1..], q, |acc.included| + 1, tokensUsed + est));
      TotalAppend(acc.included, [Item(c, est)]);
      tokensUsed := tokensUsed + est;
      acc := acc.(included := acc.included + [Item(c, est)]);
    }
  }

  lemma JoinFailed(a: PackResult, c: ScoredChunk, r: PackResult)
    ensures Join(a.(failed := a.failed + [c]), r) == Join(a, r.(failed := [c] + r.failed))
  {
    assert a.failed + [c] + r.failed == a.failed + ([c] + r.failed);
  }

  lemma JoinTokenSkipped(a: PackResult, it: Item, r: PackResult)
    ensures Join(a.(tokenSkipped := a.tokenSkipped + [it]), r) == Join(a, r.(tokenSkipped := [it] + r.tokenSkipped))
  {
    assert a.tokenSkipped + [it] + r.tokenSkipped == a.tokenSkipped + ([it] + r.tokenSkipped);
  }

  lemma JoinIncluded(a: PackResult, it: Item, r: PackResult)
    ensures Join(a.(included := a.included + [it]), r) == Join(a, r.(included := [it] + r.included))
  {
    assert a.included + [it] + r.included == a.included + ([it] + r.included);
  }

  lemma {:induction false} TotalAppend(a: seq<Item>, b: seq<Item>)
    ensures Total(a + b) == Total(a) + Total(b)
    decreases |a|
  {
    if a == [] {
      assert a + b == b;
    } else {
      assert (a + b)[1..] == a[1..] + b;
      TotalAppend(a[1..], b);
    }
  }

  // ---- What packing guarantees ----

  /** Within both limits. */
  lemma {:induction false} PackRespectsLimits(ranked: seq<ScoredChunk>, q: Request, count: nat, used: nat)
    requires count <= q.maxChunks && (q.maxTokens > 0 ==> used <= q.maxTokens)
    ensures var r := Pack(ranked, q, count, used);
      && count + |r.included| <= q.maxChunks
      && (q.maxTokens > 0 ==> used + Total(r.included) <= q.maxTokens)
    decreases |ranked|
  {
    if ranked != [] && count < q.maxChunks {
      var c := ranked[0];
      if q.cost(c.id).Some? && !OverBudget(q, used, q.cost(c.id).value) {
        PackRespectsLimits(ranked[1..], q, count + 1, used + q.cost(c.id).value);
        var r := Pack(ranked[1..], q, count + 1, used + q.cost(c.id).value);
        assert ([Item(c, q.cost(c.id).value)] + r.included)[1..] == r.included;
      } else {
        PackRespectsLimits(ranked[1..], q, count, used);
      }
    }
  }

  /** Each outcome has its reason: shown estimates are those of loaded chunks, a failed chunk did not load,
      and chunks are skipped for max_chunks only once that many are included. */
  lemma {:induction false} PackReasons(ranked: seq<ScoredChunk>, q: Request, count: nat, used: nat)
    ensures var r := Pack(ranked, q, count, used);
      && (forall it :: it in r.included || it in r.tokenSkipped ==> q.cost(it.chunk.id) == Some(it.est))
      && (forall c :: c in r.failed ==> q.cost(c.id).None?)
      && (r.chunkSkipped != [] ==> count + |r.included| >= q.maxChunks)
    decreases |ranked|
  {
    if ranked != [] && count < q.maxChunks {
      var c := ranked[0];
      if q.cost(c.id).Some? && !OverBudget(q, used, q.cost(c.id).value) {
        PackReasons(ranked[1..], q, count + 1, used + q.cost(c.id).value);
      } else {
        PackReasons(ranked[1..], q, count, used);
      }
    }
  }

  /** No chunk skipped for the budget would fit even beside the final result. */
  lemma {:induction false} SkippedWouldNotFit(ranked: seq<ScoredChunk>, q: Request, count: nat, used: nat)
    ensures var r := Pack(ranked, q, count, used);
      forall it :: it in r.tokenSkipped ==> q.maxTokens > 0 && used + Total(r.included) + it.est > q.maxTokens
    decreases |ranked|
  {
    if ranked != [] && count < q.maxChunks {
      var c := ranked[0];
      if q.cost(c.id).Some? && !OverBudget(q, used, q.cost(c.id).value) {
        SkippedWouldNotFit(ranked[1..], q, count + 1, used + q.cost(c.id).value);
        var r := Pack(ranked[1..], q, count + 1, used + q.cost(c.id).value);
        assert ([Item(c, q.cost(c.id).value)] + r.included)[1..] == r.included;
      } else {
        SkippedWouldNotFit(ranked[1..], q, count, used);
      }
    }
  }

  /** Asking for one chunk more only adds to the end of the result. */
  lemma {:induction false} OneMoreChunkExtends(ranked: seq<ScoredChunk>, q: Request, count: nat, used: nat)
    ensures Pack(ranked, q, count, used).included
            <= Pack(ranked, q.(maxChunks := q.maxChunks + 1), count, used).included
    decreases |ranked|
  {
    if ranked != [] && count < q.maxChunks {
      var c := ranked[0];
      if q.cost(c.id).Some? && !OverBudget(q, used, q.cost(c.id).value) {
        OneMoreChunkExtends(ranked[1..], q, count + 1, used + q.cost(c.id).value);
      } else {
        OneMoreChunkExtends(ranked[1..], q, count, used);
      }
    }
  }

  lemma SubsequenceSkip<T>(s: seq<T>, t: seq<T>)
    requires t != [] && Subsequence(s, t[1..])
    ensures Subsequence(s, t)
  {
  }

  lemma SubsequenceTake<T>(s: seq<T>, t: seq<T>)
    requires t != [] && Subsequence(s, t[1..])
    ensures Subsequence([t[0]] + s, t)
  {
    assert ([t[0]] + s)[1..] == s;
  }

  lemma {:induction false} SubsequenceSelf<T>(s: seq<T>)
    ensures Subsequence(s, s)
    decreases |s|
  {
    if s != [] { SubsequenceSelf(s[1..]); }
  }

  /** Each of the four outcomes lists its chunks in ranking order. */
  predicate InOrder(r: PackResult, ranked: seq<ScoredChunk>) {
    && Subsequence(Chunks(r.included), ranked)
    && Subsequence(Chunks(r.tokenSkipped), ranked)
    && Subsequence(r.chunkSkipped, ranked)
    && Subsequence(r.failed, ranked)
  }

  function Everything(r: PackResult): multiset<ScoredChunk> {
    multiset(Chunks(r.included)) + multiset(Chunks(r.tokenSkipped)) + multiset(r.chunkSkipped) + multiset(r.failed)
  }

  lemma ChunksCons(it: Item, items: seq<Item>)
    ensures Chunks([it] + items) == [it.chunk] + Chunks(items)
  {
  }

  lemma {:induction false} PackInOrder(ranked: seq<ScoredChunk>, q: Request, count: nat, used: nat)
    ensures InOrder(Pack(ranked, q, count, used), ranked)
    decreases |ranked|
  {
    if ranked == [] {
    } else if count >= q.maxChunks {
      SubsequenceSelf(ranked);
    } else {
      var cost := q.cost(ranked[0].id);
      if cost.Some? && !OverBudget(q, used, cost.value) {
        var r := Pack(ranked[1..], q, count + 1, used + cost.value);
        PackInOrder(ranked[1..], q, count + 1, used + cost.value);
        ConsInOrder(ranked, r);
        ChunksCons(Item(ranked[0], cost.value), r.included);
      } else {
        var r := Pack(ranked[1..], q, count, used);
        PackInOrder(ranked[1..], q, count, used);
        ConsInOrder(ranked, r);
        if cost.Some? { ChunksCons(Item(ranked[0], cost.value), r.tokenSkipped); }
      }
    }
  }

  function Times(s: seq<ScoredChunk>, x: ScoredChunk): nat {
    if s == [] then 0 else (if s[0] == x then 1 else 0) + Times(s[1..], x)
  }

  lemma {:induction false} TimesIsMultiplicity(s: seq<ScoredChunk>, x: ScoredChunk)
    ensures Times(s, x) == multiset(s)[x]
    decreases |s|
  {
    if s != [] {
      assert s == [s[0]] + s[1..];
      TimesIsMultiplicity(s[1..], x);
    }
  }

  lemma TimesCons(c: ScoredChunk, s: seq<ScoredChunk>, x: ScoredChunk)
    ensures Times([c] + s, x) == (if c == x then 1 else 0) + Times(s, x)
  {
    assert ([c] + s)[1..] == s;
  }

  function TimesIn(r: PackResult, x: ScoredChunk): nat {
    Times(Chunks(r.included), x) + Times(Chunks(r.tokenSkipped), x) + Times(r.chunkSkipped, x) + Times(r.failed, x)
  }

  lemma {:induction false} PackKeepsTimes(ranked: seq<ScoredChunk>, q: Request, count: nat, used: nat, x: ScoredChunk)
    ensures TimesIn(Pack(ranked, q, count, used), x) == Times(ranked, x)
    decreases |ranked|
  {
    if ranked != [] && count < q.maxChunks {
      var c, rest := ranked[0], ranked[1..];
      var cost := q.cost(c.id);
      if cost.Some? && !OverBudget(q, used, cost.value) {
        var r := Pack(rest, q, count + 1, used + cost.value);
        PackKeepsTimes(rest, q, count + 1, used + cost.value, x);
        ChunksCons(Item(c, cost.value), r.included);
        TimesCons(c, Chunks(r.included), x);
      } else {
        var r := Pack(rest, q, count, used);
        PackKeepsTimes(rest, q, count, used, x);
        if cost.Some? {
          ChunksCons(Item(c, cost.value), r.tokenSkipped);
          TimesCons(c, Chunks(r.tokenSkipped), x);
        } else {
          TimesCons(c, r.failed, x);
        }
      }
    }
  }

  lemma PackLosesNothing(ranked: seq<ScoredChunk>, q: Request)
    ensures Everything(Pack(ranked, q, 0, 0)) == multiset(ranked)
  {
    var r := Pack(ranked, q, 0, 0);
    forall x: ScoredChunk ensures Everything(r)[x] == multiset(ranked)[x] {
      PackKeepsTimes(ranked, q, 0, 0, x);
      TimesIsMultiplicity(ranked, x);
      TimesIsMultiplicity(Chunks(r.included), x);
      TimesIsMultiplicity(Chunks(r.tokenSkipped), x);
      TimesIsMultiplicity(r.chunkSkipped, x);
      TimesIsMultiplicity(r.failed, x);
    }
  }

  /** The ranked chunks split, in order and without loss, into included, skipped for tokens, skipped for
      max_chunks, and not loadable. */
  lemma PackConserves(ranked: seq<ScoredChunk>, q: Request)
    ensures var r := Pack(ranked, q, 0, 0); Everything(r) == multiset(ranked) && InOrder(r, ranked)
  {
    PackLosesNothing(ranked, q);
    PackInOrder(ranked, q, 0, 0);
  }

  lemma ConsInOrder(ranked: seq<ScoredChunk>, r: PackResult)
    requires ranked != [] && InOrder(r, ranked[1..])
    ensures InOrder(r, ranked)
    ensures Subsequence([ranked[0]] + Chunks(r.included), ranked)
    ensures Subsequence([ranked[0]] + Chunks(r.tokenSkipped), ranked)
    ensures Subsequence([ranked[0]] + r.failed, ranked)
  {
    SubsequenceSkip(Chunks(r.included), ranked);
    SubsequenceSkip(Chunks(r.tokenSkipped), ranked);
    SubsequenceSkip(r.chunkSkipped, ranked);
    SubsequenceSkip(r.failed, ranked);
    SubsequenceTake(Chunks(r.included), ranked);
    SubsequenceTake(Chunks(r.tokenSkipped), ranked);
    SubsequenceTake(r.failed, ranked);
  }

  // ---- Larger token budgets ----

  /** b is a larger budget than the request's; a budget that is not positive is no limit. */
  predicate Larger(q: Request, b: int) {
    q.maxTokens > 0 && (b <= 0 || q.maxTokens <= b)
  }

  /** The tokens and the number of chunks packed from the first i ranked chunks. */
  function UsedBefore(ranked: seq<ScoredChunk>, q: Request, count: nat, used: nat, i: nat): nat
    requires i <= |ranked|
  {
    used + Total(Pack(ranked[..i], q, count, used).included)
  }

  function TakenBefore(ranked: seq<ScoredChunk>, q: Request, count: nat, used: nat, i: nat): nat
    requires i <= |ranked|
  {
    count + |Pack(ranked[..i], q, count, used).included|
  }

  /** Chunk i is reached and skipped for tokens, and would fit under budget b. */
  predicate Gains(ranked: seq<ScoredChunk>, q: Request, b: int, count: nat, used: nat, i: nat)
    requires i < |ranked|
  {
    var est := q.cost(ranked[i].id);
    var u := UsedBefore(ranked, q, count, used, i);
    && TakenBefore(ranked, q, count, used, i) < q.maxChunks && est.Some?
    && OverBudget(q, u, est.value) && !OverBudget(q.(maxTokens := b), u, est.value)
  }

  predicate FirstGain(ranked: seq<ScoredChunk>, q: Request, b: int, count: nat, used: nat, i: nat)
    requires i < |ranked|
  {
    Gains(ranked, q, b, count, used, i) && forall h :: 0 <= h < i ==> !Gains(ranked, q, b, count, used, h)
  }

  /** No loaded chunk after the first chunk that b gains fits what is left of the smaller budget there. */
  predicate NothingFitsAfterGain(ranked: seq<ScoredChunk>, q: Request, b: int, count: nat, used: nat) {
    forall i, j :: 0 <= i < j < |ranked| && FirstGain(ranked, q, b, count, used, i) && q.cost(ranked[j].id).Some? ==>
      UsedBefore(ranked, q, count, used, i) + q.cost(ranked[j].id).value > q.maxTokens
  }

  /** What is included from a ranking once used tokens are taken, or nothing exactly when nothing fits. */
  lemma {:induction false} IncludedIffFits(ranked: seq<ScoredChunk>, q: Request, count: nat, used: nat)
    requires count < q.maxChunks && q.maxTokens > 0
    ensures var r := Pack(ranked, q, count, used).included;
      && (r == [] <==> forall j :: 0 <= j < |ranked| && q.cost(ranked[j].id).Some? ==>
            used + q.cost(ranked[j].id).value > q.maxTokens)
      && (r != [] ==> used + r[0].est <= q.maxTokens)
    decreases |ranked|
  {
    if ranked != [] {
      var c := ranked[0];
      if q.cost(c.id).None? || OverBudget(q, used, q.cost(c.id).value) {
        IncludedIffFits(ranked[1..], q, count, used);
        assert forall j :: 0 < j < |ranked| ==> ranked[j] == ranked[1..][j - 1];
      }
    }
  }

  /** The state before chunk i + 1 is the state before chunk i of the rest, after the first chunk. */
  lemma BeforeShifts(ranked: seq<ScoredChunk>, q: Request, count: nat, used: nat, i: nat)
    requires i < |ranked| && count < q.maxChunks
    ensures var (c, u) := AfterFirst(ranked[0], q, count, used);
      && UsedBefore(ranked, q, count, used, i + 1) == UsedBefore(ranked[1..], q, c, u, i)
      && TakenBefore(ranked, q, count, used, i + 1) == TakenBefore(ranked[1..], q, c, u, i)
  {
    assert ranked[..i + 1][1..] == ranked[1..][..i];
    var (c, u) := AfterFirst(ranked[0], q, count, used);
    var rest := Pack(ranked[1..][..i], q, c, u).included;
    var cost := q.cost(ranked[0].id);
    if cost.Some? && !OverBudget(q, used, cost.value) {
      assert ([Item(ranked[0], cost.value)] + rest)[1..] == rest;
    }
  }

  function AfterFirst(first: ScoredChunk, q: Request, count: nat, used: nat): (nat, nat) {
    var cost := q.cost(first.id);
    if cost.Some? && !OverBudget(q, used, cost.value) then (count + 1, used + cost.value) else (count, used)
  }

  lemma GainsShifts(ranked: seq<ScoredChunk>, q: Request, b: int, count: nat, used: nat, i: nat)
    requires i < |ranked| - 1 && count < q.maxChunks
    ensures var (c, u) := AfterFirst(ranked[0], q, count, used);
      Gains(ranked, q, b, count, used, i + 1) == Gains(ranked[1..], q, b, c, u, i)
  {
    BeforeShifts(ranked, q, count, used, i);
  }

  /** Without a gain at the first chunk the condition is that of the rest. */
  lemma NothingFitsShifts(ranked: seq<ScoredChunk>, q: Request, b: int, count: nat, used: nat)
    requires ranked != [] && count < q.maxChunks && !Gains(ranked, q, b, count, used, 0)
    ensures var (c, u) := AfterFirst(ranked[0], q, count, used);
      NothingFitsAfterGain(ranked, q, b, count, used) <==> NothingFitsAfterGain(ranked[1..], q, b, c, u)
  {
    var (c, u) := AfterFirst(ranked[0], q, count, used);
    var rest := ranked[1..];
    forall i: nat | i < |rest| ensures Gains(ranked, q, b, count, used, i + 1) == Gains(rest, q, b, c, u, i) {
      GainsShifts(ranked, q, b, count, used, i);
    }
    forall i: nat | i < |rest|
      ensures FirstGain(ranked, q, b, count, used, i + 1) == FirstGain(rest, q, b, c, u, i)
      ensures UsedBefore(ranked, q, count, used, i + 1) == UsedBefore(rest, q, c, u, i)
    {
      BeforeShifts(ranked, q, count, used, i);
      FirstGainShifts(ranked, q, b, count, used, i);
    }
    if NothingFitsAfterGain(ranked, q, b, count, used) {
      forall i, j | 0 <= i < j < |rest| && FirstGain(rest, q, b, c, u, i) && q.cost(rest[j].id).Some?
        ensures UsedBefore(rest, q, c, u, i) + q.cost(rest[j].id).value > q.maxTokens
      {
        assert FirstGain(ranked, q, b, count, used, i + 1) && rest[j] == ranked[j + 1];
      }
    }
    if NothingFitsAfterGain(rest, q, b, c, u) {
      forall i, j | 0 <= i < j < |ranked| && FirstGain(ranked, q, b, count, used, i) && q.cost(ranked[j].id).Some?
        ensures UsedBefore(ranked, q, count, used, i) + q.cost(ranked[j].id).value > q.maxTokens
      {
        assert i > 0;
        assert FirstGain(rest, q, b, c, u, i - 1) && rest[j - 1] == ranked[j];
      }
    }
  }

  lemma FirstGainShifts(ranked: seq<ScoredChunk>, q: Request, b: int, count: nat, used: nat, i: nat)
    requires i < |ranked| - 1 && count < q.maxChunks && !Gains(ranked, q, b, count, used, 0)
    ensures var (c, u) := AfterFirst(ranked[0], q, count, used);
      FirstGain(ranked, q, b, count, used, i + 1) == FirstGain(ranked[1..], q, b, c, u, i)
  {
    var (c, u) := AfterFirst(ranked[0], q, count, used);
    forall h: nat | h <= i ensures Gains(ranked, q, b, count, used, h + 1) == Gains(ranked[1..], q, b, c, u, h) {
      GainsShifts(ranked, q, b, count, used, h);
    }
    if FirstGain(ranked[1..], q, b, c, u, i) {
      forall h | 0 <= h < i + 1 ensures !Gains(ranked, q, b, count, used, h) {
        if h > 0 { assert !Gains(ranked[1..], q, b, c, u, h - 1); }
      }
    }
    if FirstGain(ranked, q, b, count, used, i + 1) {
      forall h | 0 <= h < i ensures !Gains(ranked[1..], q, b, c, u, h) {
        assert !Gains(ranked, q, b, count, used, h + 1);
      }
    }
  }

  /** At a gain the two packings part: the larger budget takes the chunk, so it extends the smaller one only
      when the smaller one takes nothing more. */
  lemma PartAtGain(ranked: seq<ScoredChunk>, q: Request, b: int, count: nat, used: nat)
    requires Larger(q, b) && ranked != [] && count < q.maxChunks && Gains(ranked, q, b, count, used, 0)
    ensures Pack(ranked, q, count, used).included <= Pack(ranked, q.(maxTokens := b), count, used).included
            <==> NothingFitsAfterGain(ranked, q, b, count, used)
  {
    var c, rest := ranked[0], ranked[1..];
    assert ranked[..0] == [];
    var small, large := Pack(ranked, q, count, used).included, Pack(ranked, q.(maxTokens := b), count, used).included;
    assert small == Pack(rest, q, count, used).included;
    assert large[0] == Item(c, q.cost(c.id).value);
    IncludedIffFits(rest, q, count, used);
    assert small <= large <==> small == [];
    assert FirstGain(ranked, q, b, count, used, 0) && UsedBefore(ranked, q, count, used, 0) == used;
    assert forall i :: 0 < i < |ranked| ==> !FirstGain(ranked, q, b, count, used, i);
    assert forall j :: 0 < j < |ranked| ==> ranked[j] == rest[j - 1];
    assert forall j :: 0 <= j < |rest| ==> rest[j] == ranked[j + 1];
  }

  lemma PrefixCons<T>(x: T, a: seq<T>, b: seq<T>)
    ensures [x] + a <= [x] + b <==> a <= b
  {
    assert ([x] + a)[1..] == a && ([x] + b)[1..] == b;
  }

  /** Exactly when a larger token budget only extends the result: nothing that loads after the first chunk
      it gains would have fitted in what the smaller budget had left at that chunk. */
  lemma {:induction false} LargerBudgetExtendsIff(ranked: seq<ScoredChunk>, q: Request, b: int, count: nat, used: nat)
    requires Larger(q, b)
    ensures Pack(ranked, q, count, used).included <= Pack(ranked, q.(maxTokens := b), count, used).included
            <==> NothingFitsAfterGain(ranked, q, b, count, used)
    decreases |ranked|
  {
    if ranked == [] {
    } else if count >= q.maxChunks {
      assert forall i :: 0 <= i < |ranked| ==> !Gains(ranked, q, b, count, used, i);
    } else if Gains(ranked, q, b, count, used, 0) {
      PartAtGain(ranked, q, b, count, used);
    } else {
      var (c, u) := AfterFirst(ranked[0], q, count, used);
      assert ranked[..0] == [] && UsedBefore(ranked, q, count, used, 0) == used;
      assert AfterFirst(ranked[0], q.(maxTokens := b), count, used) == (c, u);
      NothingFitsShifts(ranked, q, b, count, used);
      LargerBudgetExtendsIff(ranked[1..], q, b, c, u);
      var small, large := Pack(ranked[1..], q, c, u).included, Pack(ranked[1..], q.(maxTokens := b), c, u).included;
      if c > count { PrefixCons(Item(ranked[0], q.cost(ranked[0].id).value), small, large); }
    }
  }

  /** It need not: with budget 2 the second chunk is packed, with budget 3 the first one is, and the second
      no longer fits. */
  lemma LargerBudgetMayReplace()
    ensures
      var q := Request(id => Some(if id == 1 then 3 else 1), 5, 2);
      var a, b := ScoredChunk(1, 2.0), ScoredChunk(2, 1.0);
      && Pack([a, b], q, 0, 0).included == [Item(b, 1)]
      && Pack([a, b], q.(maxTokens := 3), 0, 0).included == [Item(a, 3)]
  {
    var q := Request(id => Some(if id == 1 then 3 else 1), 5, 2);
    var a, b := ScoredChunk(1, 2.0), ScoredChunk(2, 1.0);
    assert [a, b][1..] == [b] && [b][1..] == [];
    assert Pack([b], q, 0, 0).included == [Item(b, 1)];
    assert Pack([b], q.(maxTokens := 3), 1, 3).included == [];
  }
}
