/** Runtime tuning: defaults, the YAML file and the database overrides merged into one validated record. */
module Tuning {
  import opened Text

  /** The JSON keys; Unknown is any other name. */
  datatype Key =
    | SemanticThreshold
    | FusionLexicalWeight
    | RetrieveDefaultMaxChunks
    | RetrieveKDenseMin
    | RetrieveKDenseMultiplier
    | SessionPreferScoreBoost
    | ChunkRuneSize
    | ChunkOverlap
    | RecentSessionMessagesInfer
    | PruneSessionMessagesKeep
    | InferLLMModel
    | EmbeddingModel
    | MaxBodyBytes
    | RetrieveDebug
    | HTTPAccessLog
    | Unknown(name: string)

  datatype RuntimeTuning = RuntimeTuning(
    semanticThreshold: real,
    fusionLexicalWeight: real,
    retrieveDefaultMaxChunks: int,
    retrieveKDenseMin: int,
    retrieveKDenseMultiplier: int,
    sessionPreferScoreBoost: real,
    chunkRuneSize: int,
    chunkOverlap: int,
    recentSessionMessagesInfer: int,
    pruneSessionMessagesKeep: int,
    inferLLMModel: string,
    embeddingModel: string,
    maxBodyBytes: int,
    retrieveDebug: bool,
    httpAccessLog: bool)

  /** Fields that are set; the rest keep their value. */
  datatype Partial = Partial(
    semanticThreshold: Option<real>,
    fusionLexicalWeight: Option<real>,
    retrieveDefaultMaxChunks: Option<int>,
    retrieveKDenseMin: Option<int>,
    retrieveKDenseMultiplier: Option<int>,
    sessionPreferScoreBoost: Option<real>,
    chunkRuneSize: Option<int>,
    chunkOverlap: Option<int>,
    recentSessionMessagesInfer: Option<int>,
    pruneSessionMessagesKeep: Option<int>,
    inferLLMModel: Option<string>,
    embeddingModel: Option<string>,
    maxBodyBytes: Option<int>,
    retrieveDebug: Option<bool>,
    httpAccessLog: Option<bool>)

  const NOTHING: Partial :=
    Partial(None, None, None, None, None, None, None, None, None, None, None, None, None, None, None)

  const DEFAULT: RuntimeTuning := RuntimeTuning(
    0.25, 0.35, 16, 60, 4, 1.15, 2000, 200, 20, 100, "gpt-4o-mini", "text-embedding-3-small", 0x10_0000, false, false)

  predicate Patchable(k: Key) {
    !k.EmbeddingModel? && !k.Unknown?
  }

  // ---- Values by key ----

  datatype Value = VReal(r: real) | VInt(i: int) | VString(s: string) | VBool(b: bool)

  function Get(t: RuntimeTuning, k: Key): Value
    requires !k.Unknown?
  {
    match k
    case SemanticThreshold => VReal(t.semanticThreshold)
    case FusionLexicalWeight => VReal(t.fusionLexicalWeight)
    case RetrieveDefaultMaxChunks => VInt(t.retrieveDefaultMaxChunks)
    case RetrieveKDenseMin => VInt(t.retrieveKDenseMin)
    case RetrieveKDenseMultiplier => VInt(t.retrieveKDenseMultiplier)
    case SessionPreferScoreBoost => VReal(t.sessionPreferScoreBoost)
    case ChunkRuneSize => VInt(t.chunkRuneSize)
    case ChunkOverlap => VInt(t.chunkOverlap)
    case RecentSessionMessagesInfer => VInt(t.recentSessionMessagesInfer)
    case PruneSessionMessagesKeep => VInt(t.pruneSessionMessagesKeep)
    case InferLLMModel => VString(t.inferLLMModel)
    case EmbeddingModel => VString(t.embeddingModel)
    case MaxBodyBytes => VInt(t.maxBodyBytes)
    case RetrieveDebug => VBool(t.retrieveDebug)
    case HTTPAccessLog => VBool(t.httpAccessLog)
  }

  /** A record is determined by the values of its keys. */
  lemma SameValuesSameTuning(a: RuntimeTuning, b: RuntimeTuning)
    requires forall k: Key :: !k.Unknown? ==> Get(a, k) == Get(b, k)
    ensures a == b
  {
    assert Get(a, SemanticThreshold) == Get(b, SemanticThreshold);
    assert Get(a, FusionLexicalWeight) == Get(b, FusionLexicalWeight);
    assert Get(a, RetrieveDefaultMaxChunks) == Get(b, RetrieveDefaultMaxChunks);
    assert Get(a, RetrieveKDenseMin) == Get(b, RetrieveKDenseMin);
    assert Get(a, RetrieveKDenseMultiplier) == Get(b, RetrieveKDenseMultiplier);
    assert Get(a, SessionPreferScoreBoost) == Get(b, SessionPreferScoreBoost);
    assert Get(a, ChunkRuneSize) == Get(b, ChunkRuneSize);
    assert Get(a, ChunkOverlap) == Get(b, ChunkOverlap);
    assert Get(a, RecentSessionMessagesInfer) == Get(b, RecentSessionMessagesInfer);
    assert Get(a, PruneSessionMessagesKeep) == Get(b, PruneSessionMessagesKeep);
    assert Get(a, InferLLMModel) == Get(b, InferLLMModel);
    assert Get(a, EmbeddingModel) == Get(b, EmbeddingModel);
    assert Get(a, MaxBodyBytes) == Get(b, MaxBodyBytes);
    assert Get(a, RetrieveDebug) == Get(b, RetrieveDebug);
    assert Get(a, HTTPAccessLog) == Get(b, HTTPAccessLog);
  }

  // ---- JSON values ----

  /** JInt is a number written without fraction or exponent. */
  datatype Json = JNull | JBool(b: bool) | JInt(i: int) | JFloat(r: real) | JString(s: string) | JOther

  /** Decoding into an optional field: null leaves it unset; None is a decoding error. */
  function DecodeReal(j: Json): Option<Option<real>> {
    match j
    case JNull => Some(None)
    case JInt(i) => Some(Some(i as real))
    case JFloat(r) => Some(Some(r))
    case _ => None
  }

  predicate Int64(i: int) { -0x8000_0000_0000_0000 <= i <= 0x7fff_ffff_ffff_ffff }

  function DecodeInt(j: Json): Option<Option<int>> {
    match j case JNull => Some(None) case JInt(i) => (if Int64(i) then Some(Some(i)) else None) case _ => None
  }

  function DecodeString(j: Json): Option<Option<string>> {
    match j case JNull => Some(None) case JString(s) => Some(Some(s)) case _ => None
  }

  function DecodeBool(j: Json): Option<Option<bool>> {
    match j case JNull => Some(None) case JBool(b) => Some(Some(b)) case _ => None
  }

  function Wrap<T>(d: Option<Option<T>>, f: T -> Value): Option<Option<Value>> {
    match d case None => None case Some(None) => Some(None) case Some(Some(v)) => Some(Some(f(v)))
  }

  /** What an override of key k means: an error, nothing (null), or a value. */
  function Decode(k: Key, j: Json): Option<Option<Value>> {
    if !Patchable(k) then None
    else
      match k
      case SemanticThreshold | FusionLexicalWeight | SessionPreferScoreBoost =>
        Wrap(DecodeReal(j), (r: real) => VReal(r))
      case InferLLMModel => Wrap(DecodeString(j), (s: string) => VString(s))
      case RetrieveDebug | HTTPAccessLog => Wrap(DecodeBool(j), (b: bool) => VBool(b))
      case _ => Wrap(DecodeInt(j), (i: int) => VInt(i))
  }

  // ---- Overlays ----

  function Or<T>(o: Option<T>, otherwise: T): T {
    if o.Some? then o.value else otherwise
  }

  function ApplyPartial(t: RuntimeTuning, p: Partial): RuntimeTuning {
    RuntimeTuning(
      Or(p.semanticThreshold, t.semanticThreshold),
      Or(p.fusionLexicalWeight, t.fusionLexicalWeight),
      Or(p.retrieveDefaultMaxChunks, t.retrieveDefaultMaxChunks),
      Or(p.retrieveKDenseMin, t.retrieveKDenseMin),
      Or(p.retrieveKDenseMultiplier, t.retrieveKDenseMultiplier),
      Or(p.sessionPreferScoreBoost, t.sessionPreferScoreBoost),
      Or(p.chunkRuneSize, t.chunkRuneSize),
      Or(p.chunkOverlap, t.chunkOverlap),
      Or(p.recentSessionMessagesInfer, t.recentSessionMessagesInfer),
      Or(p.pruneSessionMessagesKeep, t.pruneSessionMessagesKeep),
      Or(p.inferLLMModel, t.inferLLMModel),
      Or(p.embeddingModel, t.embeddingModel),
      Or(p.maxBodyBytes, t.maxBodyBytes),
      Or(p.retrieveDebug, t.retrieveDebug),
      Or(p.httpAccessLog, t.httpAccessLog))
  }

  function OfReal(o: Option<real>): Option<Value> { if o.Some? then Some(VReal(o.value)) else None }
  function OfInt(o: Option<int>): Option<Value> { if o.Some? then Some(VInt(o.value)) else None }
  function OfString(o: Option<string>): Option<Value> { if o.Some? then Some(VString(o.value)) else None }
  function OfBool(o: Option<bool>): Option<Value> { if o.Some? then Some(VBool(o.value)) else None }

  function GetPartial(p: Partial, k: Key): Option<Value>
    requires !k.Unknown?
  {
    match k
    case SemanticThreshold => OfReal(p.semanticThreshold)
    case FusionLexicalWeight => OfReal(p.fusionLexicalWeight)
    case RetrieveDefaultMaxChunks => OfInt(p.retrieveDefaultMaxChunks)
    case RetrieveKDenseMin => OfInt(p.retrieveKDenseMin)
    case RetrieveKDenseMultiplier => OfInt(p.retrieveKDenseMultiplier)
    case SessionPreferScoreBoost => OfReal(p.sessionPreferScoreBoost)
    case ChunkRuneSize => OfInt(p.chunkRuneSize)
    case ChunkOverlap => OfInt(p.chunkOverlap)
    case RecentSessionMessagesInfer => OfInt(p.recentSessionMessagesInfer)
    case PruneSessionMessagesKeep => OfInt(p.pruneSessionMessagesKeep)
    case InferLLMModel => OfString(p.inferLLMModel)
    case EmbeddingModel => OfString(p.embeddingModel)
    case MaxBodyBytes => OfInt(p.maxBodyBytes)
    case RetrieveDebug => OfBool(p.retrieveDebug)
    case HTTPAccessLog => OfBool(p.httpAccessLog)
  }

  lemma ApplyPartialByKey(t: RuntimeTuning, p: Partial, k: Key)
    requires !k.Unknown?
    ensures Get(ApplyPartial(t, p), k) == Or(GetPartial(p, k), Get(t, k))
  {
  }

  /** One case of the switch over keys: store the decoded value in its field. */
  method SetField(p: Partial, k: Key, j: Json) returns (ok: bool, p': Partial)
    ensures ok == Decode(k, j).Some?
    ensures ok ==> GetPartial(p', k) == Decode(k, j).value
    ensures ok ==> forall o: Key :: !o.Unknown? && o != k ==> GetPartial(p', o) == GetPartial(p, o)
  {
    p' := p;
    match k {
      case SemanticThreshold =>
        var d := DecodeReal(j); ok := d.Some?;
        if ok { p' := p.(semanticThreshold := d.value); }
      case FusionLexicalWeight =>
        var d := DecodeReal(j); ok := d.Some?;
        if ok { p' := p.(fusionLexicalWeight := d.value); }
      case RetrieveDefaultMaxChunks =>
        var d := DecodeInt(j); ok := d.Some?;
        if ok { p' := p.(retrieveDefaultMaxChunks := d.value); }
      case RetrieveKDenseMin =>
        var d := DecodeInt(j); ok := d.Some?;
        if ok { p' := p.(retrieveKDenseMin := d.value); }
      case RetrieveKDenseMultiplier =>
        var d := DecodeInt(j); ok := d.Some?;
        if ok { p' := p.(retrieveKDenseMultiplier := d.value); }
      case SessionPreferScoreBoost =>
        var d := DecodeReal(j); ok := d.Some?;
        if ok { p' := p.(sessionPreferScoreBoost := d.value); }
      case ChunkRuneSize =>
        var d := DecodeInt(j); ok := d.Some?;
        if ok { p' := p.(chunkRuneSize := d.value); }
      case ChunkOverlap =>
        var d := DecodeInt(j); ok := d.Some?;
        if ok { p' := p.(chunkOverlap := d.value); }
      case RecentSessionMessagesInfer =>
        var d := DecodeInt(j); ok := d.Some?;
        if ok { p' := p.(recentSessionMessagesInfer := d.value); }
      case PruneSessionMessagesKeep =>
        var d := DecodeInt(j); ok := d.Some?;
        if ok { p' := p.(pruneSessionMessagesKeep := d.value); }
      case InferLLMModel =>
        var d := DecodeString(j); ok := d.Some?;
        if ok { p' := p.(inferLLMModel := d.value); }
      case EmbeddingModel => ok := false;
      case MaxBodyBytes =>
        var d := DecodeInt(j); ok := d.Some?;
        if ok { p' := p.(maxBodyBytes := d.value); }
      case RetrieveDebug =>
        var d := DecodeBool(j); ok := d.Some?;
        if ok { p' := p.(retrieveDebug := d.value); }
      case HTTPAccessLog =>
        var d := DecodeBool(j); ok := d.Some?;
        if ok { p' := p.(httpAccessLog := d.value); }
      case Unknown(_) => ok := false;
    }
  }

  type Overrides = map<Key, Json>

  predicate Loadable(m: Overrides) {
    forall k :: k in m ==> Decode(k, m[k]).Some?
  }

  /** The effective value of a key under overrides: the override unless absent or null. */
  function Overridden(base: RuntimeTuning, m: Overrides, k: Key): Value
    requires !k.Unknown?
  {
    if k in m && Decode(k, m[k]).Some? then Or(Decode(k, m[k]).value, Get(base, k)) else Get(base, k)
  }

  // ---- Validation ----

  predicate Valid(t: RuntimeTuning) {
    && 0.0 <= t.semanticThreshold <= 1.0
    && 0.0 <= t.fusionLexicalWeight <= 1.0
    && t.retrieveDefaultMaxChunks >= 1 && t.retrieveKDenseMin >= 1 && t.retrieveKDenseMultiplier >= 1
    && t.sessionPreferScoreBoost >= 1.0
    && t.chunkRuneSize >= 1 && 0 <= t.chunkOverlap < t.chunkRuneSize
    && t.recentSessionMessagesInfer >= 1 && t.pruneSessionMessagesKeep >= 1
    && !Blank(t.inferLLMModel) && !Blank(t.embeddingModel)
    && t.maxBodyBytes >= 1
  }

  lemma DefaultIsValid()
    ensures Valid(DEFAULT)
  {
    TrimIsIdentityOnTrimmed("gpt-4o-mini");
    TrimIsIdentityOnTrimmed("text-embedding-3-small");
  }

  function Pick<T>(old': T, m: Overrides, k: Key, decode: Json -> Option<Option<T>>): T {
    if k in m && decode(m[k]).Some? then Or(decode(m[k]).value, old') else old'
  }

  function Overlay(base: RuntimeTuning, m: Overrides): RuntimeTuning {
    RuntimeTuning(
      Pick(base.semanticThreshold, m, SemanticThreshold, DecodeReal),
      Pick(base.fusionLexicalWeight, m, FusionLexicalWeight, DecodeReal),
      Pick(base.retrieveDefaultMaxChunks, m, RetrieveDefaultMaxChunks, DecodeInt),
      Pick(base.retrieveKDenseMin, m, RetrieveKDenseMin, DecodeInt),
      Pick(base.retrieveKDenseMultiplier, m, RetrieveKDenseMultiplier, DecodeInt),
      Pick(base.sessionPreferScoreBoost, m, SessionPreferScoreBoost, DecodeReal),
      Pick(base.chunkRuneSize, m, ChunkRuneSize, DecodeInt),
      Pick(base.chunkOverlap, m, ChunkOverlap, DecodeInt),
      Pick(base.recentSessionMessagesInfer, m, RecentSessionMessagesInfer, DecodeInt),
      Pick(base.pruneSessionMessagesKeep, m, PruneSessionMessagesKeep, DecodeInt),
      Pick(base.inferLLMModel, m, InferLLMModel, DecodeString),
      base.embeddingModel,
      Pick(base.maxBodyBytes, m, MaxBodyBytes, DecodeInt),
      Pick(base.retrieveDebug, m, RetrieveDebug, DecodeBool),
      Pick(base.httpAccessLog, m, HTTPAccessLog, DecodeBool))
  }

  /** The overlay gives each key its overriding value, and the base value otherwise. */
  lemma OverlayByKey(base: RuntimeTuning, m: Overrides, k: Key)
    requires !k.Unknown?
    ensures Get(Overlay(base, m), k) == Overridden(base, m, k)
  {
  }

  /** The merge of a layer with overrides: None when a key is unknown or not overridable, a value does not
      decode, or the result breaks a rule. */
  function Merge(base: RuntimeTuning, m: Overrides): Option<RuntimeTuning> {
    if Loadable(m) && Valid(Overlay(base, m)) then Some(Overlay(base, m)) else None
  }

  /** MergeFromJSONMap visits the keys in any order; the result does not depend on it. */
  method MergeFromJSONMap(base: RuntimeTuning, m: Overrides) returns (r: Option<RuntimeTuning>)
    ensures r == Merge(base, m)
  {
    var p := NOTHING;
    var left := m.Keys;
    while left != {}
      invariant left <= m.Keys
      invariant forall k :: k in m && k !in left ==> Decode(k, m[k]).Some?
      invariant forall k: Key :: !k.Unknown? ==>
        GetPartial(p, k) == if k in m && k !in left then Decode(k, m[k]).value else None
      decreases |left|
    {
      var k :| k in left;
      var ok, p' := SetField(p, k, m[k]);
      if !ok { return None; }
      left := left - {k};
      p := p';
    }
    var t := ApplyPartial(base, p);
    forall k: Key | !k.Unknown? ensures Get(t, k) == Get(Overlay(base, m), k) {
      ApplyPartialByKey(base, p, k);
      OverlayByKey(base, m, k);
    }
    SameValuesSameTuning(t, Overlay(base, m));
    r := if Valid(t) then Some(t) else None;
  }

  /** Whether a JSON value is one that a key takes: null, or a number, integer, string or boolean. */
  predicate Fits(k: Key, j: Json) {
    if j.JNull? then Patchable(k)
    else
      match k
      case SemanticThreshold | FusionLexicalWeight | SessionPreferScoreBoost => j.JInt? || j.JFloat?
      case InferLLMModel => j.JString?
      case RetrieveDebug | HTTPAccessLog => j.JBool?
      case EmbeddingModel | Unknown(_) => false
      case _ => j.JInt? && -0x8000_0000_0000_0000 <= j.i <= 0x7fff_ffff_ffff_ffff
  }

  /** A value is decoded exactly when it fits its key: null to nothing, anything else to itself. */
  lemma DecodesIffFits(k: Key, j: Json)
    ensures Decode(k, j).Some? <==> Fits(k, j)
    ensures Fits(k, j) ==>
      Decode(k, j).value == match j
        case JNull => None
        case JBool(b) => Some(VBool(b))
        case JInt(i) => Some(if k.SemanticThreshold? || k.FusionLexicalWeight? || k.SessionPreferScoreBoost?
                             then VReal(i as real) else VInt(i))
        case JFloat(r) => Some(VReal(r))
        case JString(s) => Some(VString(s))
        case JOther => None
  {
  }

  /** What validation allows of each field, the others being valid: the limits included. */
  lemma FieldLimits(t: RuntimeTuning, r: real, i: int, s: string)
    requires Valid(t)
    ensures Valid(t.(semanticThreshold := r)) <==> 0.0 <= r <= 1.0
    ensures Valid(t.(fusionLexicalWeight := r)) <==> 0.0 <= r <= 1.0
    ensures Valid(t.(sessionPreferScoreBoost := r)) <==> r >= 1.0
    ensures Valid(t.(retrieveDefaultMaxChunks := i)) <==> i >= 1
    ensures Valid(t.(retrieveKDenseMin := i)) <==> i >= 1
    ensures Valid(t.(retrieveKDenseMultiplier := i)) <==> i >= 1
    ensures Valid(t.(chunkRuneSize := i)) <==> i > t.chunkOverlap
    ensures Valid(t.(chunkOverlap := i)) <==> 0 <= i < t.chunkRuneSize
    ensures Valid(t.(recentSessionMessagesInfer := i)) <==> i >= 1
    ensures Valid(t.(pruneSessionMessagesKeep := i)) <==> i >= 1
    ensures Valid(t.(maxBodyBytes := i)) <==> i >= 1
    ensures Valid(t.(inferLLMModel := s)) <==> TrimSpace(s) != ""
    ensures Valid(t.(embeddingModel := s)) <==> TrimSpace(s) != ""
  {
  }

  // ---- Layers ----

  /** The YAML file as the merge sees it. */
  datatype FileDoc = NoFile | BlankFile | Unreadable | Unparseable | Parsed(p: Partial)

  /** The stored override document. */
  datatype RawDoc = BlankDoc | NullDoc | BadDoc | Obj(m: Overrides)

  /** Defaults and file; a missing or blank file leaves the defaults, unchecked. */
  function FileLayer(def: RuntimeTuning, f: FileDoc): Option<RuntimeTuning> {
    match f
    case NoFile => Some(def)
    case BlankFile => Some(def)
    case Parsed(p) => (var t := ApplyPartial(def, p); if Valid(t) then Some(t) else None)
    case _ => None
  }

  function ObjectOf(raw: RawDoc): Option<Overrides> {
    match raw case BlankDoc => Some(map[]) case NullDoc => Some(map[]) case BadDoc => None case Obj(m) => Some(m)
  }

  /** MergeTuningWithPartial: a blank document is not even validated. */
  function MergeDoc(base: RuntimeTuning, raw: RawDoc): Option<RuntimeTuning> {
    if raw.BlankDoc? then Some(base)
    else if raw.BadDoc? then None
    else Merge(base, ObjectOf(raw).value)
  }

  /** MergeTuningFull: the effective tuning and the file layer it was made from. */
  function MergeFull(def: RuntimeTuning, f: FileDoc, raw: RawDoc): Option<(RuntimeTuning, RuntimeTuning)> {
    var layer := FileLayer(def, f);
    if layer.None? then None
    else
      var eff := MergeDoc(layer.value, raw);
      if eff.None? || !Valid(eff.value) then None else Some((eff.value, layer.value))
  }

  /** MergeTuningOverrideJSON: the patch laid over the stored object, which it must not take outside the
      patchable keys. */
  function MergeOverride(existing: RawDoc, patch: Overrides): Option<RawDoc> {
    if existing.BadDoc? || exists k :: k in patch && !Patchable(k) then None
    else Some(Obj(ObjectOf(existing).value + patch))
  }

  lemma LayOne<K, V>(m: map<K, V>, patch: map<K, V>, k: K)
    requires k in patch
    ensures m[k := patch[k]] + patch == m + patch
  {
  }

  lemma LayDone<K, V>(m: map<K, V>, patch: map<K, V>)
    requires forall k :: k in patch ==> k in m && m[k] == patch[k]
    ensures m + patch == m
  {
  }

  /** The loop of the merge, stopped by the first key that may not be overridden. */
  method LayPatch(m0: Overrides, patch: Overrides) returns (ok: bool, m: Overrides)
    ensures ok == forall k :: k in patch ==> Patchable(k)
    ensures ok ==> m == m0 + patch
  {
    m := m0;
    var left := patch.Keys;
    while left != {}
      invariant left <= patch.Keys
      invariant forall k :: k in patch && k !in left ==> Patchable(k)
      invariant m + patch == m0 + patch
      invariant forall k :: k in patch && k !in left ==> k in m && m[k] == patch[k]
      decreases |left|
    {
      var k :| k in left;
      if !Patchable(k) { return false, m; }
      LayOne(m, patch, k);
      m := m[k := patch[k]];
      left := left - {k};
    }
    LayDone(m, patch);
    ok := true;
  }

  method MergeOverrideJSON(existing: RawDoc, patch: Overrides) returns (r: Option<RawDoc>)
    ensures r == MergeOverride(existing, patch)
  {
    if existing.BadDoc? { return None; }
    var ok, m := LayPatch(ObjectOf(existing).value, patch);
    r := if ok then Some(Obj(m)) else None;
  }

  /** The effective tuning is always valid, is the overlay of its file layer by the stored object, and has
      the file layer's embedding model. */
  lemma MergeFullIsOverlay(def: RuntimeTuning, f: FileDoc, raw: RawDoc, k: Key)
    requires MergeFull(def, f, raw).Some? && !k.Unknown?
    ensures var (eff, layer) := MergeFull(def, f, raw).value;
      && Valid(eff)
      && ObjectOf(raw).Some? && Loadable(ObjectOf(raw).value)
      && Get(eff, k) == Overridden(layer, ObjectOf(raw).value, k)
      && eff.embeddingModel == layer.embeddingModel
  {
    var (eff, layer) := MergeFull(def, f, raw).value;
    OverlayByKey(layer, ObjectOf(raw).value, k);
  }

  /** What the file sets for a key; only a parsed file sets anything. */
  function FileValue(f: FileDoc, k: Key): Option<Value>
    requires !k.Unknown?
  {
    if f.Parsed? then GetPartial(f.p, k) else None
  }

  /** The three layers, key by key: the stored object overrides the file, and the file the defaults. */
  lemma EffectiveByLayer(def: RuntimeTuning, f: FileDoc, raw: RawDoc, k: Key)
    requires MergeFull(def, f, raw).Some? && !k.Unknown?
    ensures ObjectOf(raw).Some?
    ensures var (eff, layer) := MergeFull(def, f, raw).value;
      var m := ObjectOf(raw).value;
      && Get(layer, k) == (if FileValue(f, k).Some? then FileValue(f, k).value else Get(def, k))
      && Get(eff, k) == (if k in m && Decode(k, m[k]).value.Some? then Decode(k, m[k]).value.value
                         else if FileValue(f, k).Some? then FileValue(f, k).value
                         else Get(def, k))
  {
    MergeFullIsOverlay(def, f, raw, k);
    if f.Parsed? { ApplyPartialByKey(def, f.p, k); }
  }

  /** When a configuration loads at all: the file can be read and parsed, its layer is valid if it says
      anything, the stored document is an object of patchable keys with values of the right kind, and the
      result is valid. */
  lemma LoadsIff(def: RuntimeTuning, f: FileDoc, raw: RawDoc)
    ensures MergeFull(def, f, raw).Some? <==>
      && !f.Unreadable? && !f.Unparseable?
      && (f.Parsed? ==> Valid(ApplyPartial(def, f.p)))
      && ObjectOf(raw).Some? && Loadable(ObjectOf(raw).value)
      && Valid(Overlay(if f.Parsed? then ApplyPartial(def, f.p) else def, ObjectOf(raw).value))
  {
    DocLoadsIff(if f.Parsed? then ApplyPartial(def, f.p) else def, raw);
  }

  lemma DocLoadsIff(base: RuntimeTuning, raw: RawDoc)
    ensures (MergeDoc(base, raw).Some? && Valid(MergeDoc(base, raw).value)) <==>
            ObjectOf(raw).Some? && Loadable(ObjectOf(raw).value) && Valid(Overlay(base, ObjectOf(raw).value))
  {
    if raw.BlankDoc? { NoOverrides(base); }
  }

  lemma NoOverrides(base: RuntimeTuning)
    ensures Overlay(base, map[]) == base
  {
  }

  // ---- Sources ----

  datatype Source = FromDefault | FromFile | FromDb

  function Abs(r: real): real { if r < 0.0 then -r else r }

  predicate FloatsClose(a: real, b: real) {
    a == b || Abs(a - b) < 0.000000001
  }

  predicate Close(a: Value, b: Value) {
    if a.VReal? && b.VReal? then FloatsClose(a.r, b.r) else a == b
  }

  function SourceOf(def: RuntimeTuning, layer: RuntimeTuning, eff: RuntimeTuning, k: Key): Source
    requires !k.Unknown?
  {
    if !Close(Get(eff, k), Get(layer, k)) then FromDb
    else if !Close(Get(layer, k), Get(def, k)) then FromFile
    else FromDefault
  }

  /** Numbers are compared with a tolerance of 1e-9, everything else exactly. */
  lemma CloseIff(a: Value, b: Value)
    ensures a.VReal? && b.VReal? ==> (Close(a, b) <==> -0.000000001 < a.r - b.r < 0.000000001)
    ensures !(a.VReal? && b.VReal?) ==> (Close(a, b) <==> a == b)
  {
  }

  const KEYS: seq<Key> := [
    SemanticThreshold,
    FusionLexicalWeight,
    RetrieveDefaultMaxChunks,
    RetrieveKDenseMin,
    RetrieveKDenseMultiplier,
    SessionPreferScoreBoost,
    ChunkRuneSize,
    ChunkOverlap,
    RecentSessionMessagesInfer,
    PruneSessionMessagesKeep,
    InferLLMModel,
    EmbeddingModel,
    MaxBodyBytes,
    RetrieveDebug,
    HTTPAccessLog]

  method ComputeSources(def: RuntimeTuning, layer: RuntimeTuning, eff: RuntimeTuning) returns (out: map<Key, Source>)
    ensures forall k :: k in out <==> k in KEYS
    ensures forall k :: k in out ==> !k.Unknown? && out[k] == SourceOf(def, layer, eff, k)
  {
    out := map[];
    for i := 0 to |KEYS|
      invariant forall k :: k in out <==> k in KEYS[..i]
      invariant forall k :: k in out ==> !k.Unknown? && out[k] == SourceOf(def, layer, eff, k)
    {
      assert KEYS[..i + 1] == KEYS[..i] + [KEYS[i]];
      out := out[KEYS[i] := SourceOf(def, layer, eff, KEYS[i])];
    }
    assert KEYS[..|KEYS|] == KEYS;
  }

  /** The embedding model is never labelled as coming from the database; any key is so labelled only when
      the stored object overrides it with a value that is not close to the file layer's. */
  lemma DbLabelMeansOverride(def: RuntimeTuning, f: FileDoc, raw: RawDoc, k: Key)
    requires MergeFull(def, f, raw).Some? && !k.Unknown?
    ensures var (eff, layer) := MergeFull(def, f, raw).value;
      && SourceOf(def, layer, eff, EmbeddingModel) != FromDb
      && (SourceOf(def, layer, eff, k) == FromDb <==>
            Patchable(k) && k in ObjectOf(raw).value && Decode(k, ObjectOf(raw).value[k]).value.Some?
            && !Close(Decode(k, ObjectOf(raw).value[k]).value.value, Get(layer, k)))
  {
    MergeFullIsOverlay(def, f, raw, k);
    MergeFullIsOverlay(def, f, raw, EmbeddingModel);
  }

  lemma CloseToItself(a: Value)
    ensures Close(a, a)
  {
  }

  /** A key that is not labelled as from the database is labelled as from the file exactly when the file sets it
      to a value that is not close to the default. */
  lemma FileLabelMeansFile(def: RuntimeTuning, f: FileDoc, raw: RawDoc, k: Key)
    requires MergeFull(def, f, raw).Some? && !k.Unknown?
    ensures var (eff, layer) := MergeFull(def, f, raw).value;
      SourceOf(def, layer, eff, k) != FromDb ==>
        SourceOf(def, layer, eff, k) ==
          if FileValue(f, k).Some? && !Close(FileValue(f, k).value, Get(def, k)) then FromFile else FromDefault
  {
    EffectiveByLayer(def, f, raw, k);
    CloseToItself(Get(def, k));
  }

  // ---- Patch sequences ----

  /** PATCH on the stored document, with the file as it is: merged, validated against the whole, stored. */
  function PatchDoc(def: RuntimeTuning, f: FileDoc, raw: RawDoc, patch: Overrides): Option<RawDoc> {
    if patch == map[] then None
    else
      var merged := MergeOverride(raw, patch);
      if merged.None? || MergeFull(def, f, merged.value).None? then None else merged
  }

  function PatchAll(def: RuntimeTuning, f: FileDoc, raw: RawDoc, patches: seq<Overrides>): Option<RawDoc> {
    if patches == [] then Some(raw)
    else
      var before := PatchAll(def, f, raw, patches[..|patches| - 1]);
      if before.None? then None else PatchDoc(def, f, before.value, patches[|patches| - 1])
  }

  /** The patches laid over an object, one after the other. */
  function Laid(m0: Overrides, patches: seq<Overrides>): Overrides {
    if patches == [] then m0 else Laid(m0, patches[..|patches| - 1]) + patches[|patches| - 1]
  }

  /** What the last patch naming k said about it; the initial object when none did. */
  function LastNamed(m0: Overrides, patches: seq<Overrides>, k: Key): Option<Json> {
    if patches == [] then (if k in m0 then Some(m0[k]) else None)
    else
      var last := patches[|patches| - 1];
      if k in last then Some(last[k]) else LastNamed(m0, patches[..|patches| - 1], k)
  }

  lemma {:induction false} LaidLookup(m0: Overrides, patches: seq<Overrides>, k: Key)
    ensures LastNamed(m0, patches, k) == if k in Laid(m0, patches) then Some(Laid(m0, patches)[k]) else None
    decreases |patches|
  {
    if patches != [] { LaidLookup(m0, patches[..|patches| - 1], k); }
  }

  lemma {:induction false} PatchedObject(def: RuntimeTuning, f: FileDoc, raw: RawDoc, patches: seq<Overrides>)
    requires PatchAll(def, f, raw, patches).Some? && ObjectOf(raw).Some?
    ensures ObjectOf(PatchAll(def, f, raw, patches).value) == Some(Laid(ObjectOf(raw).value, patches))
    decreases |patches|
  {
    if patches != [] { PatchedObject(def, f, raw, patches[..|patches| - 1]); }
  }

  /** After any sequence of accepted patches a patchable key has the value of the last patch that named it,
      and the file layer's value if that was null or no patch named it; the embedding model has the file
      layer's value. */
  lemma PatchSequenceLaw(def: RuntimeTuning, f: FileDoc, raw: RawDoc, patches: seq<Overrides>, k: Key)
    requires ObjectOf(raw).Some? && !k.Unknown? && patches != []
    requires PatchAll(def, f, raw, patches).Some?
    ensures MergeFull(def, f, PatchAll(def, f, raw, patches).value).Some?
    ensures var (eff, layer) := MergeFull(def, f, PatchAll(def, f, raw, patches).value).value;
      var named := LastNamed(ObjectOf(raw).value, patches, k);
      && Get(eff, k) == (if named.Some? && Decode(k, named.value).Some? && Decode(k, named.value).value.Some?
                         then Decode(k, named.value).value.value else Get(layer, k))
      && (k == EmbeddingModel ==> Get(eff, k) == Get(layer, k))
  {
    PatchedObject(def, f, raw, patches);
    LaidLookup(ObjectOf(raw).value, patches, k);
    MergeFullIsOverlay(def, f, PatchAll(def, f, raw, patches).value, k);
  }
}
