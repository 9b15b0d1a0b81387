/** The stored form of a chunk: the whole text (v1) or a JSON envelope (v2), and the views of it that a
    retrieve response shows. */
module ChunkFormat {
  import opened Text

  /** Metadata keys with the JSON text of their values; a nil map is the empty one. */
  type Metadata = map<string, string>

  /** The decoded members of the envelope object. */
  datatype Envelope = Envelope(v: int, a: string, b: string, k: string, m: Metadata)

  const CHUNK_FORMAT_V2 := 2

  /** The JSON library: any encoder and decoder that meet Lawful. */
  datatype Codec = Codec(encode: Envelope -> string, decode: string -> Option<Envelope>)

  /** What is relied on: a v2 envelope survives the round trip, it is written as a JSON object, and a
      decoded string member is shorter than the JSON text it was read from. */
  ghost predicate Lawful(c: Codec) {
    && (forall e: Envelope :: e.v == CHUNK_FORMAT_V2 ==>
          c.decode(c.encode(e)) == Some(e) && c.encode(e) != "" && c.encode(e)[0] == '{')
    && (forall s: string :: c.decode(s).Some? ==> |c.decode(s).value.b| < |s|)
  }

  datatype ChunkBody = ChunkBody(abs: string, body: string, kind: string, metadata: Metadata, schemaVer: int)

  function FormatChunkV2(c: Codec, abs: string, body: string, kind: string, metadata: Metadata): string {
    c.encode(Envelope(CHUNK_FORMAT_V2, abs, body, kind, metadata))
  }

  /** True when a text is stored bytes that read back as a v2 envelope. */
  predicate DecodesAsV2(c: Codec, plain: string) {
    && !Blank(plain) && TrimSpace(plain)[0] == '{'
    && c.decode(plain).Some? && c.decode(plain).value.v == CHUNK_FORMAT_V2
  }

  function ParseChunkPlaintext(c: Codec, plain: string): ChunkBody {
    var s := TrimSpace(plain);
    if s == "" then ChunkBody("", "", "", map[], 1)
    else if s[0] != '{' then ChunkBody("", plain, "", map[], 1)
    else
      var w := c.decode(plain);
      if w.None? then ChunkBody("", plain, "", map[], 1)
      else if w.value.v != CHUNK_FORMAT_V2 then ChunkBody("", plain, "", map[], 1)
      else ChunkBody(w.value.a, w.value.b, w.value.k, w.value.m, 2)
  }

  lemma FirstCharSurvivesTrim(s: string)
    requires s != "" && !IsSpace(s[0])
    ensures TrimSpace(s) != "" && TrimSpace(s)[0] == s[0]
  {
    assert TrimLeft(s) == s;
    TrimRightKeepsHead(s);
  }

  lemma {:induction false} TrimRightKeepsHead(s: string)
    requires s != "" && !IsSpace(s[0])
    ensures TrimRight(s) != "" && TrimRight(s)[0] == s[0]
    decreases |s|
  {
    if IsSpace(s[|s| - 1]) { TrimRightKeepsHead(s[..|s| - 1]); }
  }

  /** Writing a v2 chunk and parsing it back gives every field. */
  lemma FormatThenParse(c: Codec, abs: string, body: string, kind: string, metadata: Metadata)
    requires Lawful(c)
    ensures ParseChunkPlaintext(c, FormatChunkV2(c, abs, body, kind, metadata))
            == ChunkBody(abs, body, kind, metadata, 2)
  {
    var e := Envelope(CHUNK_FORMAT_V2, abs, body, kind, metadata);
    assert c.decode(c.encode(e)) == Some(e);
    FirstCharSurvivesTrim(c.encode(e));
  }

  /** A non-blank v1 text parses as itself exactly when it does not decode as a v2 envelope. */
  lemma V1ParsesAsItselfIff(c: Codec, plain: string)
    requires Lawful(c) && !Blank(plain)
    ensures ParseChunkPlaintext(c, plain).body == plain <==> !DecodesAsV2(c, plain)
    ensures ParseChunkPlaintext(c, plain) == ChunkBody("", plain, "", map[], 1) <==> !DecodesAsV2(c, plain)
    ensures ParseChunkPlaintext(c, plain).schemaVer == 1 <==> !DecodesAsV2(c, plain)
  {
  }

  // ---- Sizes ----

  function EstTok(s: string): (n: nat)
    ensures |s| <= 4 * n + 3
    ensures n > 1 ==> 4 * n <= |s|
    ensures s != "" ==> n >= 1
    ensures s == "" ==> n == 0
  {
    if s == "" then 0
    else if |s| / 4 < 1 then 1 else |s| / 4
  }

  /** At most max runes of s; everything when max is not positive. */
  function ExcerptRunes(s: string, max: int): (r: string)
    ensures r <= s
    ensures max >= 1 ==> |r| <= max
  {
    if max < 1 || s == "" then s else if |s| <= max then s else s[..max]
  }

  /** Abstract and body joined for the full-text index. */
  function LexicalSource(cb: ChunkBody): string {
    var a, b := TrimSpace(cb.abs), TrimSpace(cb.body);
    if a == "" then b else if b == "" then a else a + "\n\n" + b
  }

  function EstimatedReturnTokens(cb: ChunkBody, mode: string): nat {
    var m := Normal(mode);
    if m == "both" then EstTok(cb.abs) + EstTok(cb.body)
    else if m == "full" then EstTok(cb.body)
    else if !Blank(cb.abs) then EstTok(cb.abs)
    else EstTok(cb.body)
  }

  // ---- What a retrieve response shows ----

  function ResolveContentMode(req: string, cb: ChunkBody): string {
    var r := Normal(req);
    if r == "" || r == "auto" || r == "default" then (if !Blank(cb.abs) then "abstract" else "full") else r
  }

  datatype Snippet = Snippet(
    id: nat, text: string, score: real, abs: string, fullText: string, fullAvailable: bool, kind: string)

  function BuildSnippet(id: nat, cb: ChunkBody, score: real, resMode: string): Snippet {
    if resMode == "full" then Snippet(id, cb.body, score, "", "", false, cb.kind)
    else if resMode == "both" then
      var text := if TrimSpace(cb.abs) == "" then cb.body else TrimSpace(cb.abs);
      Snippet(id, text, score, cb.abs, cb.body, !Blank(cb.body), cb.kind)
    else if !Blank(cb.abs) then
      Snippet(id, cb.abs, score, cb.abs, "", !Blank(cb.body) && TrimSpace(cb.abs) != TrimSpace(cb.body), cb.kind)
    else Snippet(id, cb.body, score, "", "", false, cb.kind)
  }

  lemma AlreadyNormal(s: string)
    requires Trimmed(s) && forall i :: 0 <= i < |s| ==> LowerChar(s[i]) == s[i]
    ensures Normal(s) == s
  {
    TrimIsIdentityOnTrimmed(s);
    LowerIsIdentityOnLower(s);
  }

  lemma ResolvedModeIsNormal(req: string, cb: ChunkBody)
    ensures Normal(ResolveContentMode(req, cb)) == ResolveContentMode(req, cb)
  {
    var r := ResolveContentMode(req, cb);
    if r == "abstract" { AlreadyNormal(r); }
    else if r == "full" { AlreadyNormal(r); }
    else { NormalIsIdempotent(req); }
  }

  /** The estimator charges for the field the snippet shows, whatever content mode was asked for: the
      text has at most 4 runes a token and 3 more, and so do abstract and full text together. */
  lemma SnippetFitsEstimate(id: nat, cb: ChunkBody, score: real, req: string)
    ensures var mode := ResolveContentMode(req, cb);
      var s := BuildSnippet(id, cb, score, mode);
      var est := EstimatedReturnTokens(cb, mode);
      |s.text| <= 4 * est + 3 && |s.abs| + |s.fullText| <= 4 * est + 6
  {
    ResolvedModeIsNormal(req, cb);
  }
}
