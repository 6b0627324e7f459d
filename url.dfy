/** The part of Go's `url.URL` the request builder touches: a URL object
    shared by reference, whose `Path` and `RawQuery` the builder rewrites,
    and `URL.String()` for the fields it has. */
module HttpUrl {
  import opened Wrappers
  import opened UrlValues
  import opened UrlQueryParse

  /** Bytes `escape(s, encodePath)` writes as they are: the unreserved
      characters and the reserved ones a path may hold (section 3.3 of
      RFC 3986), `?` excepted. */
  predicate PathSafe(b: Byte) {
    || Unreserved(b)
    || b == '$' as int || b == '&' as int || b == '+' as int || b == ',' as int
    || b == '/' as int || b == ':' as int || b == ';' as int || b == '=' as int
    || b == '@' as int
  }

  function EscapePathByte(b: Byte): (s: string)
    ensures 1 <= |s| <= 3
  {
    if PathSafe(b) then [b as char] else ['%', HexDigits[b / 16], HexDigits[b % 16]]
  }

  function EscapePathBytes(bytes: seq<Byte>): string
    decreases |bytes|
  {
    if bytes == [] then "" else EscapePathByte(bytes[0]) + EscapePathBytes(bytes[1..])
  }

  function EscapePathChars(s: string): string
    decreases |s|
  {
    if s == [] then "" else EscapePathBytes(Utf8(s[0])) + EscapePathChars(s[1..])
  }

  /** `URL.EscapedPath()` for a URL without a raw path: the path escaped,
      except that `*` is written as it is. */
  function EscapedPath(path: string): string {
    if path == "*" then "*" else EscapePathChars(path)
  }

  /** Whether the first segment of a path holds a colon (it would read as a
      scheme, so `String()` writes `./` before it when nothing precedes). */
  predicate FirstSegmentHasColon(path: string) {
    !Lacks(Cut(path, '/').0, ':')
  }

  /** The text before the query: scheme, authority and escaped path. */
  function RenderBase(scheme: string, host: string, path: string): string {
    var head := if scheme != "" then scheme + ":" else "";
    var authority :=
      if scheme != "" || host != "" then (if host != "" || path != "" then "//" else "") + host else "";
    var escaped := EscapedPath(path);
    var slash := if escaped != "" && escaped[0] != '/' && host != "" then "/" else "";
    var dot := if head + authority + slash == "" && FirstSegmentHasColon(escaped) then "./" else "";
    head + authority + slash + dot + escaped
  }

  /** `URL.String()` for a URL made of a scheme, a host, a path and a raw
      query: the query follows a `?` when it is not empty. */
  function Render(scheme: string, host: string, path: string, rawQuery: string): string {
    RenderBase(scheme, host, path) + (if rawQuery != "" then "?" + rawQuery else "")
  }

  class URL {
    var scheme: string
    var host: string
    var path: string
    var rawQuery: string

    constructor (scheme: string, host: string, path: string, rawQuery: string)
      ensures this.scheme == scheme && this.host == host
      ensures this.path == path && this.rawQuery == rawQuery
    {
      this.scheme := scheme;
      this.host := host;
      this.path := path;
      this.rawQuery := rawQuery;
    }

    function String(): string
      reads this
    {
      Render(scheme, host, path, rawQuery)
    }
  }

  // ---------------------------------------------------------------------
  // Properties of the rendering

  lemma LacksConcat(a: string, b: string, d: char)
    requires Lacks(a, d) && Lacks(b, d)
    ensures Lacks(a + b, d)
  {
    assert forall i :: 0 <= i < |a + b| ==> (a + b)[i] == if i < |a| then a[i] else b[i - |a|];
  }

  lemma {:induction false} CutLacking(s: string, d: char)
    requires Lacks(s, d)
    ensures Cut(s, d) == (s, "")
    decreases |s|
  {
    if s != [] {
      CutLacking(s[1..], d);
      assert [s[0]] + s[1..] == s;
    }
  }

  lemma EscapePathByteLacks(b: Byte)
    ensures Lacks(EscapePathByte(b), '?')
  {
    if !PathSafe(b) {
      assert HexDigits[b / 16] != '?' && HexDigits[b % 16] != '?';
    }
  }

  lemma {:induction false} EscapePathBytesLacks(bytes: seq<Byte>)
    ensures Lacks(EscapePathBytes(bytes), '?')
    decreases |bytes|
  {
    if bytes != [] {
      EscapePathByteLacks(bytes[0]);
      EscapePathBytesLacks(bytes[1..]);
      LacksConcat(EscapePathByte(bytes[0]), EscapePathBytes(bytes[1..]), '?');
    }
  }

  lemma {:induction false} EscapePathCharsLacks(s: string)
    ensures Lacks(EscapePathChars(s), '?')
    decreases |s|
  {
    if s != [] {
      EscapePathBytesLacks(Utf8(s[0]));
      EscapePathCharsLacks(s[1..]);
      LacksConcat(EscapePathBytes(Utf8(s[0])), EscapePathChars(s[1..]), '?');
    }
  }

  /** An escaped path never holds `?`, so it cannot be mistaken for the
      start of the query. */
  lemma EscapedPathLacks(path: string)
    ensures Lacks(EscapedPath(path), '?')
  {
    EscapePathCharsLacks(path);
  }

  /** Characters the path escaping keeps: ASCII letters, digits and the
      path punctuation. */
  predicate PlainPathChar(c: char) {
    c as int < 0x80 && PathSafe(c as int)
  }

  /** A path made only of such characters is written as it is. */
  lemma {:induction false} EscapePathCharsPlain(s: string)
    requires forall i :: 0 <= i < |s| ==> PlainPathChar(s[i])
    ensures EscapePathChars(s) == s
    decreases |s|
  {
    if s != [] {
      EscapePathCharsPlain(s[1..]);
      assert Utf8(s[0]) == [s[0] as int];
      assert EscapePathBytes([s[0] as int]) == [s[0]];
      assert [s[0]] + s[1..] == s;
    }
  }

  lemma RenderBaseLacks(scheme: string, host: string, path: string)
    requires Lacks(scheme, '?') && Lacks(host, '?')
    ensures Lacks(RenderBase(scheme, host, path), '?')
  {
    var head := if scheme != "" then scheme + ":" else "";
    var authority :=
      if scheme != "" || host != "" then (if host != "" || path != "" then "//" else "") + host else "";
    var escaped := EscapedPath(path);
    var slash := if escaped != "" && escaped[0] != '/' && host != "" then "/" else "";
    var dot := if head + authority + slash == "" && FirstSegmentHasColon(escaped) then "./" else "";
    assert Lacks(head, '?') by {
      if scheme != "" { LacksConcat(scheme, ":", '?'); }
    }
    assert Lacks(authority, '?') by {
      if host != "" || path != "" { LacksConcat("//", host, '?'); } else { LacksConcat("", host, '?'); }
    }
    EscapedPathLacks(path);
    LacksConcat(head, authority, '?');
    LacksConcat(head + authority, slash, '?');
    LacksConcat(head + authority + slash, dot, '?');
    LacksConcat(head + authority + slash + dot, escaped, '?');
  }

  /** The query can be read back from a rendered URL: it is everything after
      the first `?`, and empty when there is no `?`. */
  lemma RenderedQuery(scheme: string, host: string, path: string, rawQuery: string)
    requires Lacks(scheme, '?') && Lacks(host, '?')
    ensures Cut(Render(scheme, host, path, rawQuery), '?').1 == rawQuery
  {
    var base := RenderBase(scheme, host, path);
    RenderBaseLacks(scheme, host, path);
    if rawQuery == "" {
      assert Render(scheme, host, path, rawQuery) == base;
      CutLacking(base, '?');
    } else {
      assert Render(scheme, host, path, rawQuery) == base + ['?'] + rawQuery;
      CutAt(base, rawQuery, '?');
    }
  }

  /** A URL with a scheme and a host starts with `scheme://host`, and a path
      that needs no escaping follows it as it is. */
  lemma RenderedPrefix(scheme: string, host: string, path: string, rawQuery: string)
    requires scheme != "" && host != ""
    requires path == "" || path[0] == '/'
    requires forall i :: 0 <= i < |path| ==> PlainPathChar(path[i])
    ensures Render(scheme, host, path, rawQuery)
            == scheme + "://" + host + path + (if rawQuery != "" then "?" + rawQuery else "")
  {
    if path == "*" {
      assert false;
    }
    EscapePathCharsPlain(path);
  }

  /** The query a URL carries decodes back to the multimap it was encoded
      from. */
  lemma RenderedValues(scheme: string, host: string, path: string, m: Values)
    requires Lacks(scheme, '?') && Lacks(host, '?')
    requires forall k :: k in m ==> m[k] != []
    ensures ParseQuery(Cut(Render(scheme, host, path, Encode(m)), '?').1) == Some(m)
  {
    RenderedQuery(scheme, host, path, Encode(m));
    ParseEncode(m);
  }
}
