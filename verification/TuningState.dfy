/** The published tuning: Reload, snapshot and PATCH over shared state, first as methods, then as the
    separate reads, merges and publications that may interleave. */
module TuningState {
  import opened Text
  import opened Tuning

  /** server_tuning.overrides and the YAML file, both outside the process. */
  class OverrideStore {
    var doc: RawDoc
    constructor () ensures doc == Obj(map[]) { doc := Obj(map[]); }
  }

  class TuningFile {
    var doc: FileDoc
    constructor (doc: FileDoc) ensures this.doc == doc { this.doc := doc; }
  }

  class State {
    var current: RuntimeTuning
    var fileLayer: RuntimeTuning
    var dbJSON: RawDoc
    const file: TuningFile
    const store: OverrideStore

    /** What a reader sees is valid and is the merge of the layer and the document it sees. */
    predicate Consistent() reads this {
      PublishedOk(Published(current, fileLayer, dbJSON))
    }

    /** The constructor fails, so no process starts, when the first load does. */
    constructor (file: TuningFile, store: OverrideStore)
      requires MergeFull(DEFAULT, file.doc, store.doc).Some?
      ensures this.file == file && this.store == store && Consistent()
      ensures dbJSON == store.doc && MergeFull(DEFAULT, file.doc, store.doc) == Some((current, fileLayer))
    {
      var m := MergeFull(DEFAULT, file.doc, store.doc).value;
      this.file, this.store := file, store;
      current, fileLayer, dbJSON := m.0, m.1, store.doc;
    }

    /** loadOk: whether the override document could be read. A failed reload changes nothing. */
    method Reload(loadOk: bool) returns (ok: bool)
      requires Consistent()
      modifies this
      ensures Consistent()
      ensures ok == (loadOk && MergeFull(DEFAULT, file.doc, store.doc).Some?)
      ensures ok ==> dbJSON == store.doc && MergeFull(DEFAULT, file.doc, store.doc) == Some((current, fileLayer))
      ensures !ok ==> current == old(current) && fileLayer == old(fileLayer) && dbJSON == old(dbJSON)
    {
      if !loadOk { return false; }
      var db := store.doc;
      var m := MergeFull(DEFAULT, file.doc, db);
      if m.None? { return false; }
      current := m.value.0;
      fileLayer := m.value.1;
      dbJSON := db;
      ok := true;
    }

    method APISnapshot()
      returns (effective: RuntimeTuning, layer: RuntimeTuning, raw: RawDoc, sources: map<Key, Source>)
      requires Consistent()
      ensures PublishedOk(Published(effective, layer, raw))
      ensures effective == current && layer == fileLayer && raw == dbJSON
      ensures forall k :: k in sources ==> !k.Unknown? && sources[k] == SourceOf(DEFAULT, layer, effective, k)
    {
      effective, layer, raw := current, fileLayer, dbJSON;
      sources := ComputeSources(DEFAULT, layer, effective);
    }

    /** patchTuning after authentication; readOk, storeOk and loadOk: whether the read of the stored
        document, its write and the reload's read work. The answer is the HTTP code. */
    method PatchTuning(patch: Overrides, readOk: bool, storeOk: bool, loadOk: bool) returns (code: nat)
      requires Consistent()
      modifies this, store
      ensures Consistent()
      ensures code == 200 <==>
        PatchDoc(DEFAULT, file.doc, old(store.doc), patch).Some? && readOk && storeOk && loadOk
      ensures PatchDoc(DEFAULT, file.doc, old(store.doc), patch).Some? && readOk && storeOk ==>
        Some(store.doc) == PatchDoc(DEFAULT, file.doc, old(store.doc), patch)
      ensures code == 200 ==>
        && dbJSON == store.doc && MergeFull(DEFAULT, file.doc, store.doc) == Some((current, fileLayer))
      ensures code == 400 <==>
        patch == map[] || (readOk && PatchDoc(DEFAULT, file.doc, old(store.doc), patch).None?)
      ensures code != 200 ==> current == old(current) && fileLayer == old(fileLayer) && dbJSON == old(dbJSON)
      ensures code == 400 || !readOk || !storeOk ==> store.doc == old(store.doc)
      ensures code in {200, 400, 500}
    {
      if |patch| == 0 { return 400; }
      if !readOk { return 500; }
      var existing := store.doc;
      var merged := MergeOverrideJSON(existing, patch);
      if merged.None? { return 400; }
      if MergeFull(DEFAULT, file.doc, merged.value).None? { return 400; }
      if !storeOk { return 500; }
      store.doc := merged.value;
      var ok := Reload(loadOk);
      code := if ok then 200 else 500;
    }
  }

  // ---- Interleavings ----

  datatype Published = Published(current: RuntimeTuning, fileLayer: RuntimeTuning, db: RawDoc)

  predicate PublishedOk(p: Published) {
    Valid(p.current) && MergeDoc(p.fileLayer, p.db) == Some(p.current)
  }

  /** The full merge and the PATCH rule, and what a publication must satisfy. */
  datatype Rules = Rules(
    full: (FileDoc, RawDoc) -> Option<(RuntimeTuning, RuntimeTuning)>,
    patch: (FileDoc, RawDoc, Overrides) -> Option<RawDoc>,
    good: Published -> bool)

  /** All that the interleaving argument needs of them: merges may be published, and an accepted patch is
      laid over the document and merges. */
  ghost predicate Sound(r: Rules) {
    && (forall f, db :: r.full(f, db).Some? ==> r.good(Published(r.full(f, db).value.0, r.full(f, db).value.1, db)))
    && (forall f, db, p :: r.patch(f, db, p).Some? ==>
          r.full(f, r.patch(f, db, p).value).Some? && r.patch(f, db, p) == MergeOverride(db, p))
  }

  const RULES: Rules := Rules(
    (f, db) => MergeFull(DEFAULT, f, db),
    (f, db, p) => PatchDoc(DEFAULT, f, db, p),
    p => PublishedOk(p))

  lemma RulesAreSound()
    ensures Sound(RULES)
  {
  }

  /** Where a reload or a PATCH is between two atomic sections. */
  datatype Thread =
    | Reloading                                            // before the override document is read
    | Loaded(db: RawDoc)                                   // before the file is read and merged
    | Publishing(p: Published)                             // before the lock
    | Patching(patch: Overrides)                           // before the document is read
    | Merging(patch: Overrides, existing: RawDoc, at: nat) // before merge and validation
    | Storing(patch: Overrides, existing: RawDoc, at: nat, merged: RawDoc)  // before the write

  /** stored is the history: the patches stored so far, in order. at is its length when existing was read. */
  datatype Shared = Shared(
    rules: Rules, file: FileDoc, db: RawDoc, pub: Published, threads: map<nat, Thread>, stored: seq<Overrides>)

  datatype Step =
    | Begin(id: nat, thread: Thread)
    | Advance(id: nat, ioOk: bool)
    | EditFile(doc: FileDoc)

  predicate Enabled(s: Shared, st: Step) {
    match st
    case Begin(id, t) => id !in s.threads && (t.Reloading? || t.Patching?)
    case Advance(id, _) => id in s.threads
    case EditFile(_) => true
  }

  function Goto(s: Shared, id: nat, t: Thread): Shared { s.(threads := s.threads[id := t]) }
  function Finish(s: Shared, id: nat): Shared { s.(threads := s.threads - {id}) }

  /** One atomic section of one thread. */
  function Section(s: Shared, id: nat, ioOk: bool): Shared
    requires id in s.threads
  {
    match s.threads[id]
    case Reloading => if ioOk then Goto(s, id, Loaded(s.db)) else Finish(s, id)
    case Loaded(db) =>
      var m := s.rules.full(s.file, db);
      if m.None? then Finish(s, id) else Goto(s, id, Publishing(Published(m.value.0, m.value.1, db)))
    case Publishing(p) => Finish(s.(pub := p), id)
    case Patching(patch) =>
      if ioOk && patch != map[] then Goto(s, id, Merging(patch, s.db, |s.stored|)) else Finish(s, id)
    case Merging(patch, existing, at) =>
      var merged := s.rules.patch(s.file, existing, patch);
      if merged.None? then Finish(s, id) else Goto(s, id, Storing(patch, existing, at, merged.value))
    case Storing(patch, _, _, merged) =>
      if ioOk then Goto(s.(db := merged, stored := s.stored + [patch]), id, Reloading) else Finish(s, id)
  }

  function Apply(s: Shared, st: Step): Shared
    requires Enabled(s, st)
  {
    match st
    case Begin(id, t) => Goto(s, id, t)
    case Advance(id, ok) => Section(s, id, ok)
    case EditFile(doc) => s.(file := doc)
  }

  predicate Inv(s: Shared) {
    s.rules.good(s.pub) && forall id :: id in s.threads && s.threads[id].Publishing? ==> s.rules.good(s.threads[id].p)
  }

  predicate Loads(s: Shared, doc: RawDoc) {
    s.rules.full(s.file, doc).Some?
  }

  /** Every stored document, and every one about to be stored, loads with the file as it is. */
  predicate Reloadable(s: Shared) {
    && Loads(s, s.db)
    && forall id :: id in s.threads && s.threads[id].Storing? ==> Loads(s, s.threads[id].merged)
  }

  lemma StepKeepsInv(s: Shared, st: Step)
    requires Sound(s.rules) && Inv(s) && Enabled(s, st)
    ensures Inv(Apply(s, st)) && Apply(s, st).rules == s.rules
    ensures Reloadable(s) && !st.EditFile? ==> Reloadable(Apply(s, st))
  {
  }

  predicate ValidRun(s: Shared, steps: seq<Step>)
    decreases |steps|
  {
    steps == [] || (Enabled(s, steps[0]) && ValidRun(Apply(s, steps[0]), steps[1..]))
  }

  function Run(s: Shared, steps: seq<Step>): Shared
    requires ValidRun(s, steps)
    decreases |steps|
  {
    if steps == [] then s else Run(Apply(s, steps[0]), steps[1..])
  }

  predicate FileUntouched(steps: seq<Step>) {
    forall i :: 0 <= i < |steps| ==> !steps[i].EditFile?
  }

  /** The state after start-up: what NewTuningState loaded is published. */
  predicate Started(s: Shared) {
    && s.threads == map[]
    && s.rules.full(s.file, s.db) == Some((s.pub.current, s.pub.fileLayer)) && s.pub.db == s.db
  }

  lemma {:induction false} RunKeepsInv(s: Shared, steps: seq<Step>)
    requires Sound(s.rules) && Inv(s) && ValidRun(s, steps)
    ensures Inv(Run(s, steps)) && Run(s, steps).rules == s.rules
    ensures Reloadable(s) && FileUntouched(steps) ==> Reloadable(Run(s, steps))
    decreases |steps|
  {
    if steps != [] {
      StepKeepsInv(s, steps[0]);
      RunKeepsInv(Apply(s, steps[0]), steps[1..]);
    }
  }

  /** Under any interleaving of reloads, patches and file edits, what is published is valid and is the merge
      of the published file layer and document; and while the file is not edited, whatever has been stored
      can be loaded again. */
  lemma PublishedIsAlwaysConsistent(s: Shared, steps: seq<Step>)
    requires s.rules == RULES && Started(s) && ValidRun(s, steps)
    ensures var s' := Run(s, steps);
      && PublishedOk(s'.pub)
      && (FileUntouched(steps) ==> MergeFull(DEFAULT, s'.file, s'.db).Some?)
  {
    RulesAreSound();
    RunKeepsInv(s, steps);
  }

  // ---- Patches that overlap ----

  /** What is about to be stored is a patch laid over the document that was read for it. */
  predicate LaidOver(t: Thread) {
    t.Storing? ==> MergeOverride(t.existing, t.patch) == Some(t.merged)
  }

  predicate AllLaidOver(s: Shared) {
    forall id :: id in s.threads ==> LaidOver(s.threads[id])
  }

  /** The key has the same binding in both objects, or none in either. */
  predicate SameBinding(m: Overrides, n: Overrides, k: Key) {
    (k in m <==> k in n) && (k in m ==> m[k] == n[k])
  }

  /** The two objects agree on every key that the patch does not name. */
  ghost predicate SameOutside(m: Overrides, n: Overrides, patch: Overrides) {
    forall k :: k !in patch ==> SameBinding(m, n, k)
  }

  lemma SameOutsideIsSameLay(m: Overrides, n: Overrides, patch: Overrides)
    ensures m + patch == n + patch <==> SameOutside(m, n, patch)
  {
    if m + patch == n + patch {
      forall k | k !in patch ensures SameBinding(m, n, k) {
        assert k in m <==> k in m + patch;
        assert k in n <==> k in n + patch;
        assert k in m ==> m[k] == (m + patch)[k];
      }
    }
  }

  /** This step, if it stores a patch, finds the document unchanged outside the patch since it was read. */
  ghost predicate Harmless(s: Shared, st: Step)
    requires Enabled(s, st)
  {
    st.Advance? && st.ioOk && s.threads[st.id].Storing? ==>
      var t := s.threads[st.id];
      ObjectOf(t.existing).Some? && ObjectOf(s.db).Some? &&
      SameOutside(ObjectOf(t.existing).value, ObjectOf(s.db).value, t.patch)
  }

  /** A store adds its patch to the document as it is, and loses nothing, if and only if it is harmless. */
  lemma StoreAddsItsPatchIff(s: Shared, id: nat)
    requires id in s.threads && s.threads[id].Storing? && LaidOver(s.threads[id]) && ObjectOf(s.db).Some?
    ensures ObjectOf(Section(s, id, true).db) == Some(ObjectOf(s.db).value + s.threads[id].patch)
            <==> Harmless(s, Advance(id, true))
  {
    var t := s.threads[id];
    SameOutsideIsSameLay(ObjectOf(t.existing).value, ObjectOf(s.db).value, t.patch);
  }

  ghost predicate AllHarmless(s: Shared, steps: seq<Step>)
    requires ValidRun(s, steps)
    decreases |steps|
  {
    steps == [] || (Harmless(s, steps[0]) && AllHarmless(Apply(s, steps[0]), steps[1..]))
  }

  /** The stored object is what the patches stored so far make of m0. */
  predicate Follows(s: Shared, m0: Overrides) {
    ObjectOf(s.db) == Some(Laid(m0, s.stored))
  }

  /** Now and after every step of the run. */
  predicate AlwaysFollows(s: Shared, steps: seq<Step>, m0: Overrides)
    requires ValidRun(s, steps)
    decreases |steps|
  {
    Follows(s, m0) && (steps != [] ==> AlwaysFollows(Apply(s, steps[0]), steps[1..], m0))
  }

  lemma LaidSnoc(m0: Overrides, patches: seq<Overrides>, patch: Overrides)
    ensures Laid(m0, patches + [patch]) == Laid(m0, patches) + patch
  {
    assert (patches + [patch])[..|patches|] == patches;
  }

  lemma StoreFollowsIff(s: Shared, id: nat, m0: Overrides)
    requires id in s.threads && s.threads[id].Storing? && LaidOver(s.threads[id]) && Follows(s, m0)
    ensures Follows(Section(s, id, true), m0) <==> Harmless(s, Advance(id, true))
  {
    StoreAddsItsPatchIff(s, id);
    LaidSnoc(m0, s.stored, s.threads[id].patch);
  }

  lemma StepKeepsLays(s: Shared, st: Step)
    requires Sound(s.rules) && AllLaidOver(s) && Enabled(s, st)
    ensures AllLaidOver(Apply(s, st)) && Apply(s, st).rules == s.rules
  {
  }

  lemma StepFollowsIff(s: Shared, st: Step, m0: Overrides)
    requires Sound(s.rules) && AllLaidOver(s) && Enabled(s, st) && Follows(s, m0)
    ensures AllLaidOver(Apply(s, st)) && Apply(s, st).rules == s.rules
    ensures Follows(Apply(s, st), m0) <==> Harmless(s, st)
  {
    StepKeepsLays(s, st);
    if st.Advance? && st.ioOk && s.threads[st.id].Storing? { StoreFollowsIff(s, st.id, m0); }
  }

  /** Over whole runs: the document is always the stored patches laid over the first one, in store order, if
      and only if every store is harmless. */
  lemma {:induction false} RunFollowsIff(s: Shared, steps: seq<Step>, m0: Overrides)
    requires Sound(s.rules) && AllLaidOver(s) && ValidRun(s, steps) && Follows(s, m0)
    ensures AlwaysFollows(s, steps, m0) <==> AllHarmless(s, steps)
    decreases |steps|
  {
    if steps != [] {
      StepFollowsIff(s, steps[0], m0);
      if Harmless(s, steps[0]) { RunFollowsIff(Apply(s, steps[0]), steps[1..], m0); }
    }
  }

  /** No patch is stored between this patch's read and its own store. */
  predicate Prompt(s: Shared, st: Step)
    requires Enabled(s, st)
  {
    st.Advance? && st.ioOk && s.threads[st.id].Storing? ==> s.threads[st.id].at == |s.stored|
  }

  predicate AllPrompt(s: Shared, steps: seq<Step>)
    requires ValidRun(s, steps)
    decreases |steps|
  {
    steps == [] || (Prompt(s, steps[0]) && AllPrompt(Apply(s, steps[0]), steps[1..]))
  }

  /** A thread whose read is not outdated read the document as it is. */
  predicate ReadOk(s: Shared, t: Thread) {
    t.Merging? || t.Storing? ==> t.at <= |s.stored| && (t.at == |s.stored| ==> t.existing == s.db)
  }

  predicate ReadsOk(s: Shared) {
    forall id :: id in s.threads ==> ReadOk(s, s.threads[id])
  }

  lemma StepKeepsReads(s: Shared, st: Step)
    requires ReadsOk(s) && Enabled(s, st)
    ensures ReadsOk(Apply(s, st))
  {
    forall i | i in Apply(s, st).threads ensures ReadOk(Apply(s, st), Apply(s, st).threads[i]) {
      if i in s.threads { assert ReadOk(s, s.threads[i]); }
    }
  }

  /** What is about to be stored was accepted against the file as it is. */
  predicate AcceptedOk(s: Shared) {
    forall id :: id in s.threads && s.threads[id].Storing? ==>
      s.rules.patch(s.file, s.threads[id].existing, s.threads[id].patch) == Some(s.threads[id].merged)
  }

  /** The sequential result of a list of patches under the rules; None when one of them is refused. */
  function Sequential(r: Rules, f: FileDoc, raw: RawDoc, patches: seq<Overrides>): Option<RawDoc> {
    if patches == [] then Some(raw)
    else
      var before := Sequential(r, f, raw, patches[..|patches| - 1]);
      if before.None? then None else r.patch(f, before.value, patches[|patches| - 1])
  }

  lemma SequentialSnoc(r: Rules, f: FileDoc, raw: RawDoc, patches: seq<Overrides>, patch: Overrides)
    requires Sequential(r, f, raw, patches).Some?
    ensures Sequential(r, f, raw, patches + [patch]) == r.patch(f, Sequential(r, f, raw, patches).value, patch)
  {
    assert (patches + [patch])[..|patches|] == patches;
  }

  lemma {:induction false} SequentialIsLaid(r: Rules, f: FileDoc, raw: RawDoc, patches: seq<Overrides>)
    requires Sound(r) && Sequential(r, f, raw, patches).Some? && ObjectOf(raw).Some?
    ensures ObjectOf(Sequential(r, f, raw, patches).value) == Some(Laid(ObjectOf(raw).value, patches))
    decreases |patches|
  {
    if patches != [] { SequentialIsLaid(r, f, raw, patches[..|patches| - 1]); }
  }

  lemma {:induction false} SequentialIsPatchAll(f: FileDoc, raw: RawDoc, patches: seq<Overrides>)
    ensures Sequential(RULES, f, raw, patches) == PatchAll(DEFAULT, f, raw, patches)
    decreases |patches|
  {
    if patches != [] { SequentialIsPatchAll(f, raw, patches[..|patches| - 1]); }
  }

  lemma PromptStep(s: Shared, st: Step, raw: RawDoc)
    requires AcceptedOk(s) && ReadsOk(s) && Enabled(s, st) && !st.EditFile? && Prompt(s, st)
    requires Sequential(s.rules, s.file, raw, s.stored) == Some(s.db)
    ensures var s' := Apply(s, st);
      && s'.rules == s.rules && s'.file == s.file && AcceptedOk(s') && ReadsOk(s')
      && Sequential(s.rules, s.file, raw, s'.stored) == Some(s'.db)
  {
    StepKeepsReads(s, st);
    if st.Advance? && st.ioOk && s.threads[st.id].Storing? {
      var t := s.threads[st.id];
      assert ReadOk(s, t);
      SequentialSnoc(s.rules, s.file, raw, s.stored, t.patch);
    }
  }

  lemma {:induction false} PromptRun(s: Shared, steps: seq<Step>, raw: RawDoc)
    requires AcceptedOk(s) && ReadsOk(s) && ValidRun(s, steps) && FileUntouched(steps) && AllPrompt(s, steps)
    requires Sequential(s.rules, s.file, raw, s.stored) == Some(s.db)
    ensures var s' := Run(s, steps); Sequential(s.rules, s.file, raw, s'.stored) == Some(s'.db)
    decreases |steps|
  {
    if steps != [] {
      PromptStep(s, steps[0], raw);
      PromptRun(Apply(s, steps[0]), steps[1..], raw);
    }
  }

  /** When no patch is stored between another's read and its store, whatever else interleaves, the final
      document is the sequential result of the stored patches in store order, so the patch-sequence law
      (Tuning.PatchSequenceLaw) holds of it. */
  lemma PromptPatchesAreSequential(s: Shared, steps: seq<Step>)
    requires s.rules == RULES && s.threads == map[] && s.stored == [] && ValidRun(s, steps)
    requires FileUntouched(steps) && AllPrompt(s, steps)
    ensures var s' := Run(s, steps); PatchAll(DEFAULT, s.file, s.db, s'.stored) == Some(s'.db)
  {
    PromptRun(s, steps, s.db);
    SequentialIsPatchAll(s.file, s.db, Run(s, steps).stored);
  }

  lemma RunCons(s: Shared, st: Step, steps: seq<Step>)
    requires Enabled(s, st) && ValidRun(Apply(s, st), steps)
    ensures ValidRun(s, [st] + steps) && Run(s, [st] + steps) == Run(Apply(s, st), steps)
  {
    assert ([st] + steps)[1..] == steps;
  }

  /** Patch 1 is stored, then patch 2, both read from the same document. */
  lemma StoreBoth(s: Shared, t1: Thread, t2: Thread) returns (steps: seq<Step>)
    requires t1.Storing? && t2.Storing? && s.threads == map[1 := t1, 2 := t2]
    ensures ValidRun(s, steps) && FileUntouched(steps)
    ensures Run(s, steps).db == t2.merged && Run(s, steps).stored == s.stored + [t1.patch, t2.patch]
  {
    var a, b := Advance(1, true), Advance(2, true);
    var s1 := Apply(s, a);
    assert s1.threads == map[1 := Reloading, 2 := t2];
    RunCons(s1, b, []);
    RunCons(s, a, [b]);
    steps := [a] + ([b] + []);
    assert s.stored + [t1.patch] + [t2.patch] == s.stored + [t1.patch, t2.patch];
  }

  // ---- Alone, reloads and patches do what they are for ----

  /** The result of a reload: the merge of file and document is published, if they merge. */
  function Reloaded(s: Shared): Shared {
    var m := s.rules.full(s.file, s.db);
    if m.None? then s else s.(pub := Published(m.value.0, m.value.1, s.db))
  }

  /** A thread about to reload, left alone, publishes the merge of the file and the document, or nothing. */
  lemma ReloadRuns(s: Shared, id: nat) returns (steps: seq<Step>)
    requires id in s.threads && s.threads[id] == Reloading
    ensures ValidRun(s, steps) && Run(s, steps) == Reloaded(s).(threads := s.threads - {id})
  {
    var go := Advance(id, true);
    var s1 := Apply(s, go);
    var s2 := Apply(s1, go);
    if s.rules.full(s.file, s.db).None? {
      RunCons(s1, go, []);
      RunCons(s, go, [go] + []);
      steps := [go] + ([go] + []);
      assert s2.threads == s.threads - {id};
    } else {
      RunCons(s2, go, []);
      RunCons(s1, go, [go] + []);
      RunCons(s, go, [go] + ([go] + []));
      steps := [go] + ([go] + ([go] + []));
      assert Apply(s2, go).threads == s.threads - {id};
    }
  }

  lemma ReloadAlonePublishes(s: Shared, id: nat) returns (steps: seq<Step>)
    requires id !in s.threads
    ensures ValidRun(s, steps) && Run(s, steps) == Reloaded(s)
  {
    var begin := Begin(id, Reloading);
    var s1 := Apply(s, begin);
    var rest := ReloadRuns(s1, id);
    RunCons(s, begin, rest);
    steps := [begin] + rest;
    assert s1.threads - {id} == s.threads;
    assert Run(s, steps) == Reloaded(s);
  }

  /** A PATCH on its own stores the patched document and publishes it. */
  lemma PatchAlonePublishes(s: Shared, id: nat, patch: Overrides) returns (steps: seq<Step>)
    requires Sound(s.rules) && id !in s.threads && patch != map[] && s.rules.patch(s.file, s.db, patch).Some?
    ensures ValidRun(s, steps)
    ensures var merged := s.rules.patch(s.file, s.db, patch).value;
      && s.rules.full(s.file, merged).Some?
      && Run(s, steps) == Reloaded(s.(db := merged, stored := s.stored + [patch]))
  {
    var begin, go := Begin(id, Patching(patch)), Advance(id, true);
    var s1 := Apply(s, begin);
    var s2 := Apply(s1, go);
    var s3 := Apply(s2, go);
    var s4 := Apply(s3, go);
    var merged := s.rules.patch(s.file, s.db, patch).value;
    assert s3.threads[id] == Storing(patch, s.db, |s.stored|, merged);
    assert s4 == s.(db := merged, stored := s.stored + [patch], threads := s4.threads) && s4.threads[id] == Reloading;
    var rest := ReloadRuns(s4, id);
    RunCons(s3, go, rest);
    RunCons(s2, go, [go] + rest);
    RunCons(s1, go, [go] + ([go] + rest));
    RunCons(s, begin, [go] + ([go] + ([go] + rest)));
    steps := [begin] + ([go] + ([go] + ([go] + rest)));
    assert s4.threads - {id} == s.threads;
  }

  lemma RunTwoPatches(s: Shared, p1: Overrides, p2: Overrides) returns (steps: seq<Step>)
    requires s.threads == map[] && p1 != map[] && p2 != map[]
    requires s.rules.patch(s.file, s.db, p1).Some? && s.rules.patch(s.file, s.db, p2).Some?
    ensures ValidRun(s, steps) && FileUntouched(steps)
    ensures Some(Run(s, steps).db) == s.rules.patch(s.file, s.db, p2)
    ensures Run(s, steps).stored == s.stored + [p1, p2]
  {
    var d1, d2 := s.rules.patch(s.file, s.db, p1).value, s.rules.patch(s.file, s.db, p2).value;
    var n := |s.stored|;
    var b1, b2, a1, a2 := Begin(1, Patching(p1)), Begin(2, Patching(p2)), Advance(1, true), Advance(2, true);
    var s1 := Apply(s, b1);
    var s2 := Apply(s1, b2);
    var s3 := Apply(s2, a1);
    var s4 := Apply(s3, a2);
    assert s4.threads == map[1 := Merging(p1, s.db, n), 2 := Merging(p2, s.db, n)];
    var s5 := Apply(s4, a1);
    var s6 := Apply(s5, a2);
    assert s6.threads == map[1 := Storing(p1, s.db, n, d1), 2 := Storing(p2, s.db, n, d2)];
    var rest := StoreBoth(s6, Storing(p1, s.db, n, d1), Storing(p2, s.db, n, d2));
    RunCons(s5, a2, rest);
    RunCons(s4, a1, [a2] + rest);
    RunCons(s3, a2, [a1] + ([a2] + rest));
    RunCons(s2, a1, [a2] + ([a1] + ([a2] + rest)));
    RunCons(s1, b2, [a1] + ([a2] + ([a1] + ([a2] + rest))));
    RunCons(s, b1, [b2] + ([a1] + ([a2] + ([a1] + ([a2] + rest)))));
    steps := [b1] + ([b2] + ([a1] + ([a2] + ([a1] + ([a2] + rest)))));
  }

  /** After both patches in sequence a key of the first that the second does not name is as the first says. */
  lemma SequentialKeepsFirst(r: Rules, f: FileDoc, raw: RawDoc, p1: Overrides, p2: Overrides, k: Key)
    requires Sound(r) && ObjectOf(raw).Some? && Sequential(r, f, raw, [p1, p2]).Some? && k in p1 && k !in p2
    ensures ObjectOf(Sequential(r, f, raw, [p1, p2]).value).Some?
    ensures SameBinding(ObjectOf(Sequential(r, f, raw, [p1, p2]).value).value, p1, k)
  {
    SequentialIsLaid(r, f, raw, [p1, p2]);
    LaidSnoc(ObjectOf(raw).value, [], p1);
    LaidSnoc(ObjectOf(raw).value, [p1], p2);
    assert [] + [p1] == [p1] && [p1] + [p2] == [p1, p2];
  }

  /** The patch-sequence law is one of patches that do not overlap: two PATCHes that read the same document
      can both be accepted and stored, and then every key that only the first one names has its old binding
      again; where that is not what the first one said, the document is not the sequential result. */
  lemma OverlappingPatchesLoseTheFirst(s: Shared, p1: Overrides, p2: Overrides, k: Key) returns (steps: seq<Step>)
    requires Sound(s.rules) && s.threads == map[] && p1 != map[] && p2 != map[] && k in p1 && k !in p2
    requires s.rules.patch(s.file, s.db, p1).Some? && s.rules.patch(s.file, s.db, p2).Some?
    ensures ValidRun(s, steps) && FileUntouched(steps) && ObjectOf(s.db).Some?
    ensures var s', old' := Run(s, steps), ObjectOf(s.db).value;
      && s'.stored == s.stored + [p1, p2]
      && ObjectOf(s'.db) == Some(old' + p2)
      && SameBinding(ObjectOf(s'.db).value, old', k)
      && (!SameBinding(old', p1, k) ==> Sequential(s.rules, s.file, s.db, [p1, p2]) != Some(s'.db))
  {
    steps := RunTwoPatches(s, p1, p2);
    if Sequential(s.rules, s.file, s.db, [p1, p2]).Some? {
      SequentialKeepsFirst(s.rules, s.file, s.db, p1, p2, k);
    }
  }

  /** Two patches that each set one flag of the defaults. */
  const SET_DEBUG: Overrides := map[RetrieveDebug := JBool(true)]
  const SET_LOG: Overrides := map[HTTPAccessLog := JBool(true)]

  lemma FlagOverlays(base: RuntimeTuning)
    ensures Overlay(base, SET_DEBUG) == base.(retrieveDebug := true)
    ensures Overlay(base, SET_LOG) == base.(httpAccessLog := true)
  {
  }

  lemma LaidOnEmpty(m: Overrides)
    requires Loadable(m)
    ensures MergeOverride(Obj(map[]), m) == Some(Obj(m))
  {
    forall k | k in m ensures Patchable(k) { assert Decode(k, m[k]).Some?; }
    assert map[] + m == m;
  }

  lemma MergesOverDefaults(base: RuntimeTuning, m: Overrides)
    requires Loadable(m) && Valid(Overlay(base, m))
    ensures MergeFull(base, NoFile, Obj(m)).Some?
  {
  }

  lemma AcceptedOnEmpty(base: RuntimeTuning, m: Overrides)
    requires m != map[] && Loadable(m) && Valid(Overlay(base, m))
    ensures PatchDoc(base, NoFile, Obj(map[]), m) == Some(Obj(m))
  {
    LaidOnEmpty(m);
    MergesOverDefaults(base, m);
  }

  lemma FlagsAreAccepted()
    ensures RULES.patch(NoFile, Obj(map[]), SET_DEBUG) == Some(Obj(SET_DEBUG))
    ensures RULES.patch(NoFile, Obj(map[]), SET_LOG) == Some(Obj(SET_LOG))
  {
    DefaultIsValid();
    FlagsLoad(DEFAULT);
    AcceptedOnEmpty(DEFAULT, SET_DEBUG);
    AcceptedOnEmpty(DEFAULT, SET_LOG);
  }

  lemma FlagsDecode()
    ensures RetrieveDebug in SET_DEBUG && Loadable(SET_DEBUG)
    ensures HTTPAccessLog in SET_LOG && Loadable(SET_LOG)
  {
  }

  lemma FlagsLoad(base: RuntimeTuning)
    requires Valid(base)
    ensures RetrieveDebug in SET_DEBUG && Loadable(SET_DEBUG) && Valid(Overlay(base, SET_DEBUG))
    ensures HTTPAccessLog in SET_LOG && Loadable(SET_LOG) && Valid(Overlay(base, SET_LOG))
  {
    FlagsDecode();
    FlagOverlays(base);
  }

  /** Such a pair: over the defaults and an empty object both are stored, and retrieve_debug is gone. */
  lemma TwoFlagsOverlap(s: Shared) returns (steps: seq<Step>)
    requires s.rules == RULES && s.threads == map[] && s.file == NoFile && s.db == Obj(map[]) && s.stored == []
    ensures ValidRun(s, steps) && FileUntouched(steps)
    ensures Run(s, steps).stored == [SET_DEBUG, SET_LOG] && Run(s, steps).db == Obj(SET_LOG)
  {
    FlagsAreAccepted();
    assert RetrieveDebug in SET_DEBUG && HTTPAccessLog in SET_LOG;
    steps := RunTwoPatches(s, SET_DEBUG, SET_LOG);
    assert [] + [SET_DEBUG, SET_LOG] == [SET_DEBUG, SET_LOG];
  }
}
