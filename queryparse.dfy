/** The inverse of `url.Values.Encode`: splitting a query string at `&` and
    `=`, undoing the percent-encoding of `url.QueryUnescape` and the UTF-8
    encoding under it, and regrouping the pairs into a multimap. It is the
    reference against which the encoder is proved lossless. */
module UrlQueryParse {
  import opened Wrappers
  import opened UrlValues

  // ---------------------------------------------------------------------
  // UTF-8

  function EncodeUtf8(s: string): seq<Byte>
    decreases |s|
  {
    if s == [] then [] else Utf8(s[0]) + EncodeUtf8(s[1..])
  }

  predicate IsScalar(n: int) {
    0 <= n < 0xD800 || 0xE000 <= n < 0x11_0000
  }

  predicate Continuation(b: Byte) {
    0x80 <= b < 0xC0
  }

  function Prepend(c: char, rest: Option<string>): Option<string> {
    if rest.Some? then Some([c] + rest.value) else None
  }

  /** A decoded code point in front of the decoding of what follows it. */
  function CharThen(n: int, rest: Option<string>): Option<string> {
    if IsScalar(n) then Prepend(n as char, rest) else None
  }

  /** Decoding of UTF-8 bytes into a string; `None` for a byte sequence
      that is not well-formed. */
  function DecodeUtf8(bs: seq<Byte>): Option<string>
    decreases |bs|
  {
    if bs == [] then Some("")
    else
      var b0: int := bs[0];
      if b0 < 0x80 then CharThen(b0, DecodeUtf8(bs[1..]))
      else if 0xC0 <= b0 < 0xE0 && |bs| >= 2 && Continuation(bs[1]) then
        CharThen((b0 - 0xC0) * 64 + (bs[1] as int - 0x80), DecodeUtf8(bs[2..]))
      else if 0xE0 <= b0 < 0xF0 && |bs| >= 3 && Continuation(bs[1]) && Continuation(bs[2]) then
        CharThen((b0 - 0xE0) * 4096 + (bs[1] as int - 0x80) * 64 + (bs[2] as int - 0x80), DecodeUtf8(bs[3..]))
      else if 0xF0 <= b0 < 0xF8 && |bs| >= 4 && Continuation(bs[1]) && Continuation(bs[2]) && Continuation(bs[3]) then
        CharThen((b0 - 0xF0) * 262144 + (bs[1] as int - 0x80) * 4096 + (bs[2] as int - 0x80) * 64 + (bs[3] as int - 0x80),
                 DecodeUtf8(bs[4..]))
      else None
  }

  lemma Utf8DecodesTwo(n: int)
    requires 0x80 <= n < 0x800
    ensures 0xC0 <= 0xC0 + n / 64 < 0xE0
    ensures (n / 64) * 64 + n % 64 == n
  {
  }

  lemma Utf8DecodesThree(n: int)
    requires 0x800 <= n < 0x10000
    ensures 0xE0 <= 0xE0 + n / 4096 < 0xF0
    ensures (n / 4096) * 4096 + ((n / 64) % 64) * 64 + n % 64 == n
  {
    var q := n / 64;
    assert q / 64 == n / 4096;
    assert (q / 64) * 64 + q % 64 == q;
    assert q * 64 + n % 64 == n;
  }

  lemma Utf8DecodesFour(n: int)
    requires 0x10000 <= n < 0x11_0000
    ensures 0xF0 <= 0xF0 + n / 262144 < 0xF8
    ensures (n / 262144) * 262144 + ((n / 4096) % 64) * 4096 + ((n / 64) % 64) * 64 + n % 64 == n
  {
    var q := n / 64;
    var r := q / 64;
    assert r == n / 4096;
    assert r / 64 == n / 262144;
    assert (r / 64) * 64 + r % 64 == r;
    assert r * 64 + q % 64 == q;
    assert q * 64 + n % 64 == n;
  }

  /** The bytes of one character decode back to that character, whatever
      follows them. */
  lemma Utf8Decodes(c: char, rest: seq<Byte>)
    ensures DecodeUtf8(Utf8(c) + rest) == Prepend(c, DecodeUtf8(rest))
  {
    var n := c as int;
    var bs := Utf8(c) + rest;
    assert IsScalar(n);
    if n < 0x80 {
      assert bs[1..] == rest;
    } else if n < 0x800 {
      Utf8DecodesTwo(n);
      assert bs[2..] == rest;
    } else if n < 0x10000 {
      Utf8DecodesThree(n);
      assert bs[3..] == rest;
    } else {
      Utf8DecodesFour(n);
      assert bs[4..] == rest;
    }
  }

  /** UTF-8 is lossless on strings. */
  lemma {:induction false} DecodeEncodeUtf8(s: string)
    ensures DecodeUtf8(EncodeUtf8(s)) == Some(s)
    decreases |s|
  {
    if s != [] {
      DecodeEncodeUtf8(s[1..]);
      Utf8Decodes(s[0], EncodeUtf8(s[1..]));
      assert [s[0]] + s[1..] == s;
    }
  }

  // ---------------------------------------------------------------------
  // Percent-decoding

  function HexValue(c: char): Option<nat> {
    if '0' <= c <= '9' then Some(c as int - '0' as int)
    else if 'A' <= c <= 'F' then Some(c as int - 'A' as int + 10)
    else if 'a' <= c <= 'f' then Some(c as int - 'a' as int + 10)
    else None
  }

  function PrependBytes(bs: seq<Byte>, rest: Option<seq<Byte>>): Option<seq<Byte>> {
    if rest.Some? then Some(bs + rest.value) else None
  }

  /** The bytes an escaped query component stands for: `%XY` is the byte
      with hex digits X and Y, `+` is a space, any other character stands
      for its own UTF-8 bytes. A `%` without two hex digits is an error. */
  function UnescapeBytes(s: string): Option<seq<Byte>>
    decreases |s|
  {
    if s == [] then Some([])
    else if s[0] == '%' then
      if |s| >= 3 && HexValue(s[1]).Some? && HexValue(s[2]).Some? then
        var b := HexValue(s[1]).value * 16 + HexValue(s[2]).value;
        PrependBytes([b], UnescapeBytes(s[3..]))
      else None
    else if s[0] == '+' then PrependBytes([0x20], UnescapeBytes(s[1..]))
    else PrependBytes(Utf8(s[0]), UnescapeBytes(s[1..]))
  }

  /** `url.QueryUnescape`. */
  function QueryUnescape(s: string): Option<string> {
    var bytes := UnescapeBytes(s);
    if bytes.Some? then DecodeUtf8(bytes.value) else None
  }

  lemma UnescapeEscapeByte(b: Byte, rest: string)
    ensures UnescapeBytes(EscapeByte(b) + rest) == PrependBytes([b], UnescapeBytes(rest))
  {
    var s := EscapeByte(b) + rest;
    if Unreserved(b) {
      assert s[1..] == rest;
    } else if b == ' ' as int {
      assert s[1..] == rest;
    } else {
      UnescapeEscapeHex(b, rest);
    }
  }

  /** A byte written as `%XY` reads back from its two hex digits. */
  lemma UnescapeEscapeHex(b: Byte, rest: string)
    requires !Unreserved(b) && b != ' ' as int
    ensures UnescapeBytes(EscapeByte(b) + rest) == PrependBytes([b], UnescapeBytes(rest))
  {
    var hi, lo := b / 16, b % 16;
    assert EscapeByte(b) == ['%', HexDigits[hi], HexDigits[lo]];
    HexDigitValue(hi);
    HexDigitValue(lo);
    UnescapeTriple(HexDigits[hi], HexDigits[lo], rest);
    assert hi * 16 + lo == b as int;
  }

  lemma UnescapeTriple(x: char, y: char, rest: string)
    requires HexValue(x).Some? && HexValue(y).Some?
    ensures UnescapeBytes(['%', x, y] + rest) ==
              PrependBytes([HexValue(x).value * 16 + HexValue(y).value], UnescapeBytes(rest))
  {
    assert (['%', x, y] + rest)[3..] == rest;
  }

  lemma HexDigitValue(d: nat)
    requires d < 16
    ensures HexValue(HexDigits[d]) == Some(d)
  {
    if d < 10 {
      assert HexDigits[d] as int == '0' as int + d;
    } else {
      assert HexDigits[d] as int == 'A' as int + d - 10;
    }
  }

  lemma {:induction false} UnescapeEscapeBytes(bytes: seq<Byte>)
    ensures UnescapeBytes(EscapeBytes(bytes)) == Some(bytes)
    decreases |bytes|
  {
    if bytes != [] {
      UnescapeEscapeBytes(bytes[1..]);
      UnescapeEscapeByte(bytes[0], EscapeBytes(bytes[1..]));
      assert [bytes[0]] + bytes[1..] == bytes;
    }
  }

  lemma {:induction false} EscapeBytesConcat(a: seq<Byte>, b: seq<Byte>)
    ensures EscapeBytes(a + b) == EscapeBytes(a) + EscapeBytes(b)
    decreases |a|
  {
    if a != [] {
      assert (a + b)[1..] == a[1..] + b;
      EscapeBytesConcat(a[1..], b);
    } else {
      assert a + b == b;
    }
  }

  /** Escaping a string escapes the bytes of its UTF-8 encoding. */
  lemma {:induction false} QueryEscapeBytes(s: string)
    ensures QueryEscape(s) == EscapeBytes(EncodeUtf8(s))
    decreases |s|
  {
    if s != [] {
      QueryEscapeBytes(s[1..]);
      EscapeBytesConcat(Utf8(s[0]), EncodeUtf8(s[1..]));
    }
  }

  /** `url.QueryUnescape` undoes `url.QueryEscape`. */
  lemma QueryUnescapeEscape(s: string)
    ensures QueryUnescape(QueryEscape(s)) == Some(s)
  {
    QueryEscapeBytes(s);
    UnescapeEscapeBytes(EncodeUtf8(s));
    DecodeEncodeUtf8(s);
  }

  // ---------------------------------------------------------------------
  // Splitting and regrouping

  /** `strings.Split(s, d)` for a one-character separator. */
  function Split(s: string, d: char): (parts: seq<string>)
    ensures |parts| >= 1
    decreases |s|
  {
    if s == [] then [""]
    else
      var rest := Split(s[1..], d);
      if s[0] == d then [""] + rest else [[s[0]] + rest[0]] + rest[1..]
  }

  /** Cutting at the first `d`: what comes before it and what comes after
      it; without `d`, the whole string and an empty remainder. */
  function Cut(s: string, d: char): (string, string)
    decreases |s|
  {
    if s == [] then ("", "")
    else if s[0] == d then ("", s[1..])
    else var (a, b) := Cut(s[1..], d); ([s[0]] + a, b)
  }

  predicate Lacks(s: string, d: char) {
    forall i :: 0 <= i < |s| ==> s[i] != d
  }

  /** One `key=value` piece of a query, both halves unescaped. */
  function ParsePart(part: string): Option<(string, string)> {
    var (k, v) := Cut(part, '=');
    var key := QueryUnescape(k);
    var value := QueryUnescape(v);
    if key.Some? && value.Some? then Some((key.value, value.value)) else None
  }

  /** The pairs of a list of pieces, skipping empty pieces; `None` if one
      piece does not unescape. */
  function ParseParts(parts: seq<string>): Option<seq<(string, string)>>
    decreases |parts|
  {
    if parts == [] then Some([])
    else
      var rest := ParseParts(parts[1..]);
      if parts[0] == "" then rest
      else
        var p := ParsePart(parts[0]);
        if p.Some? && rest.Some? then Some([p.value] + rest.value) else None
  }

  /** `url.ParseQuery` for `&`-separated queries: the pieces' pairs added in
      order to an empty multimap. */
  function ParseQuery(query: string): Option<Values> {
    var pairs := ParseParts(Split(query, '&'));
    if pairs.Some? then Some(AddAll(map[], pairs.value)) else None
  }

  lemma {:induction false} SplitPrefix(a: string, b: string, d: char)
    requires Lacks(a, d)
    ensures Split(a + [d] + b, d) == [a] + Split(b, d)
    decreases |a|
  {
    if a == [] {
      assert a + [d] + b == [d] + b;
      assert ([d] + b)[1..] == b;
    } else {
      var s := a + [d] + b;
      assert s[0] == a[0] && s[1..] == a[1..] + [d] + b;
      SplitPrefix(a[1..], b, d);
      assert [a[0]] + a[1..] == a;
    }
  }

  lemma {:induction false} SplitLacking(a: string, d: char)
    requires Lacks(a, d)
    ensures Split(a, d) == [a]
    decreases |a|
  {
    if a != [] {
      SplitLacking(a[1..], d);
      assert [a[0]] + a[1..] == a;
    }
  }

  /** Splitting a join gives back the pieces when none holds the separator. */
  lemma {:induction false} SplitJoin(parts: seq<string>, d: char)
    requires parts != []
    requires forall i :: 0 <= i < |parts| ==> Lacks(parts[i], d)
    ensures Split(Join(parts, d), d) == parts
    decreases |parts|
  {
    if |parts| == 1 {
      SplitLacking(parts[0], d);
    } else {
      SplitJoin(parts[1..], d);
      SplitPrefix(parts[0], Join(parts[1..], d), d);
      assert [parts[0]] + parts[1..] == parts;
    }
  }

  lemma {:induction false} CutAt(a: string, b: string, d: char)
    requires Lacks(a, d)
    ensures Cut(a + [d] + b, d) == (a, b)
    decreases |a|
  {
    if a == [] {
      assert a + [d] + b == [d] + b;
      assert ([d] + b)[1..] == b;
    } else {
      var s := a + [d] + b;
      assert s[0] == a[0] && s[1..] == a[1..] + [d] + b;
      CutAt(a[1..], b, d);
      assert [a[0]] + a[1..] == a;
    }
  }

  lemma EscapedLacks(s: string)
    ensures Lacks(QueryEscape(s), '&') && Lacks(QueryEscape(s), '=')
  {
    QueryEscapeChars(s);
  }

  lemma ParseEscapedPair(p: (string, string))
    ensures EscapePair(p) != ""
    ensures Lacks(EscapePair(p), '&')
    ensures ParsePart(EscapePair(p)) == Some(p)
  {
    var k := QueryEscape(p.0);
    var v := QueryEscape(p.1);
    EscapedLacks(p.0);
    EscapedLacks(p.1);
    assert EscapePair(p) == k + ['='] + v;
    assert |EscapePair(p)| > |k|;
    CutAt(k, v, '=');
    QueryUnescapeEscape(p.0);
    QueryUnescapeEscape(p.1);
  }

  lemma {:induction false} ParseEscapedPairs(pairs: seq<(string, string)>)
    ensures ParseParts(EscapePairs(pairs)) == Some(pairs)
    decreases |pairs|
  {
    if pairs != [] {
      ParseEscapedPairs(pairs[1..]);
      ParseEscapedPair(pairs[0]);
      assert EscapePairs(pairs)[1..] == EscapePairs(pairs[1..]);
      assert [pairs[0]] + pairs[1..] == pairs;
    }
  }

  /** Encoding a multimap and parsing the query string back gives the same
      multimap, values in the same order under each key, provided no key has
      an empty list of values. */
  lemma ParseEncode(m: Values)
    requires forall k :: k in m ==> m[k] != []
    ensures ParseQuery(Encode(m)) == Some(m)
  {
    var parts := EscapePairs(Pairs(m));
    RegroupPairs(m);
    ParseEscapedPairs(Pairs(m));
    if parts == [] {
      assert Encode(m) == "";
      assert Split("", '&') == [""];
      assert ParseParts([""]) == Some([]);
      assert Pairs(m) == [];
    } else {
      forall i | 0 <= i < |parts| ensures Lacks(parts[i], '&') {
        ParseEscapedPair(Pairs(m)[i]);
      }
      SplitJoin(parts, '&');
    }
  }
}
