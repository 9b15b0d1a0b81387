/** A concrete encoder and decoder that meet ChunkFormat.Lawful, so the results stated for every lawful
    codec are about something. It writes an object-like text with escaped strings. */
module JsonInstance {
  import opened Text
  import opened ChunkFormat

  function Quote(s: string): string {
    if s == "" then "\""
    else if s[0] == '"' || s[0] == '\\' then ['\\', s[0]] + Quote(s[1..])
    else [s[0]] + Quote(s[1..])
  }

  /** The text up to the next unescaped quote, and what follows it. */
  function Unquote(t: string): (r: Option<(string, string)>)
    ensures r.Some? ==> |r.value.0| + |r.value.1| < |t|
  {
    if t == "" then None
    else if t[0] == '"' then Some(("", t[1..]))
    else if t[0] == '\\' then
      if |t| < 2 then None
      else
        var r := Unquote(t[2..]);
        if r.None? then None else Some(([t[1]] + r.value.0, r.value.1))
    else
      var r := Unquote(t[1..]);
      if r.None? then None else Some(([t[0]] + r.value.0, r.value.1))
  }

  lemma {:induction false} QuoteRoundTrip(s: string, rest: string)
    ensures Unquote(Quote(s) + rest) == Some((s, rest))
    decreases |s|
  {
    var t := Quote(s) + rest;
    if s == "" {
      assert t[1..] == rest;
    } else {
      QuoteRoundTrip(s[1..], rest);
      var tail := Quote(s[1..]) + rest;
      if s[0] == '"' || s[0] == '\\' {
        assert t == ['\\', s[0]] + tail && t[2..] == tail;
      } else {
        assert t == [s[0]] + tail && t[1..] == tail;
      }
      assert [s[0]] + s[1..] == s;
    }
  }

  ghost function AnyKey(m: Metadata): (k: string)
    requires m != map[]
    ensures k in m
  {
    var k :| k in m;
    k
  }

  ghost function RenderPairs(m: Metadata): string
    decreases |m|
  {
    if m == map[] then "}"
    else
      var k := AnyKey(m);
      "," + (Quote(k) + (Quote(m[k]) + RenderPairs(m - {k})))
  }

  function ParsePairs(t: string): Option<Metadata>
    decreases |t|
  {
    if t == "}" then Some(map[])
    else if t == "" || t[0] != ',' then None
    else
      var k := Unquote(t[1..]);
      if k.None? then None
      else
        var v := Unquote(k.value.1);
        if v.None? then None
        else
          var m := ParsePairs(v.value.1);
          if m.None? then None else Some(m.value[k.value.0 := v.value.0])
  }

  /** One pair in front of a text that parses. */
  lemma PairRoundTrip(k: string, v: string, tail: string)
    requires ParsePairs(tail).Some?
    ensures ParsePairs("," + (Quote(k) + (Quote(v) + tail))) == Some(ParsePairs(tail).value[k := v])
  {
    var t := "," + (Quote(k) + (Quote(v) + tail));
    assert t[1..] == Quote(k) + (Quote(v) + tail) && t[0] == ',' && t != "}";
    QuoteRoundTrip(k, Quote(v) + tail);
    QuoteRoundTrip(v, tail);
  }

  lemma PutBack(m: Metadata, k: string)
    requires k in m
    ensures (m - {k})[k := m[k]] == m
  {
  }

  lemma {:induction false} PairsRoundTrip(m: Metadata)
    ensures ParsePairs(RenderPairs(m)) == Some(m)
    decreases |m|
  {
    if m != map[] {
      var k := AnyKey(m);
      PairsRoundTrip(m - {k});
      PairRoundTrip(k, m[k], RenderPairs(m - {k}));
      PutBack(m, k);
    }
  }

  ghost function Encode(e: Envelope): string {
    "{" + (Quote(e.a) + (Quote(e.b) + (Quote(e.k) + RenderPairs(e.m))))
  }

  function Decode(t: string): (r: Option<Envelope>)
    ensures r.Some? ==> |r.value.b| < |t|
  {
    if t == "" || t[0] != '{' then None
    else
      var a := Unquote(t[1..]);
      if a.None? then None
      else
        var b := Unquote(a.value.1);
        if b.None? then None
        else
          var k := Unquote(b.value.1);
          if k.None? then None
          else
            var m := ParsePairs(k.value.1);
            if m.None? then None else Some(Envelope(CHUNK_FORMAT_V2, a.value.0, b.value.0, k.value.0, m.value))
  }

  lemma EncodeRoundTrip(e: Envelope)
    requires e.v == CHUNK_FORMAT_V2
    ensures Decode(Encode(e)) == Some(e)
  {
    var pairs := RenderPairs(e.m);
    assert Encode(e)[1..] == Quote(e.a) + (Quote(e.b) + (Quote(e.k) + pairs));
    QuoteRoundTrip(e.a, Quote(e.b) + (Quote(e.k) + pairs));
    QuoteRoundTrip(e.b, Quote(e.k) + pairs);
    QuoteRoundTrip(e.k, pairs);
    PairsRoundTrip(e.m);
  }

  lemma LawfulCodecExists()
    ensures exists c: Codec :: Lawful(c)
  {
    var c := Codec(e => Encode(e), s => Decode(s));
    forall e: Envelope | e.v == CHUNK_FORMAT_V2
      ensures c.decode(c.encode(e)) == Some(e) && c.encode(e) != "" && c.encode(e)[0] == '{'
    {
      EncodeRoundTrip(e);
    }
    assert Lawful(c);
  }
}
