/** Go's `url.Values`: a multimap from query keys to the list of their
    values, and its `Encode` into a query string (keys sorted, each key's
    values in the order they were added, percent-encoding as in section 2.1
    of RFC 3986 with the query-component rules of `url.QueryEscape`). */
module UrlValues {
  import opened Wrappers

  type Values = map<string, seq<string>>

  /** `v[k]`: a missing key reads as the empty list. */
  function Get(m: Values, k: string): seq<string> {
    if k in m then m[k] else []
  }

  /** `v[k] = append(v[k], value)`: the value goes to the end of the key's
      list; every other key keeps its list. */
  function Add(m: Values, k: string, value: string): (r: Values)
    ensures r.Keys == m.Keys + {k}
    ensures r[k] == Get(m, k) + [value]
  {
    m[k := Get(m, k) + [value]]
  }

  /** `v[k] = append(v[k], vs...)`: the values go to the end of the key's
      list, which exists afterwards even when `vs` is empty. */
  function Extend(m: Values, k: string, vs: seq<string>): (r: Values)
    ensures r.Keys == m.Keys + {k}
    ensures r[k] == Get(m, k) + vs
  {
    m[k := Get(m, k) + vs]
  }

  /** `key` is present exactly when `present`, and then holds `vs`. */
  predicate EntryIf(m: Values, key: string, present: bool, vs: seq<string>) {
    (key in m <==> present) && (present ==> m[key] == vs)
  }

  /** One step of a query builder: when `present`, the values `vs` are
      appended to the list of `key`, which exists afterwards even when `vs`
      is empty; otherwise nothing happens. */
  datatype Step = Step(present: bool, key: string, vs: seq<string>)

  function Perform(m: Values, s: Step): Values {
    if s.present then Extend(m, s.key, s.vs) else m
  }

  /** The steps performed in order, the last one last. */
  function Build(m: Values, steps: seq<Step>): Values
    decreases |steps|
  {
    if steps == [] then m else Perform(Build(m, steps[..|steps| - 1]), steps[|steps| - 1])
  }

  predicate DistinctKeys(steps: seq<Step>) {
    forall i, j :: 0 <= i < j < |steps| ==> steps[i].key != steps[j].key
  }

  lemma BuildSnoc(m: Values, steps: seq<Step>, s: Step)
    ensures Build(m, steps + [s]) == Perform(Build(m, steps), s)
  {
    assert (steps + [s])[..|steps|] == steps;
  }

  /** A key is present after the steps exactly when some present step
      names it. */
  lemma {:induction false} BuildKeys(steps: seq<Step>, k: string)
    ensures k in Build(map[], steps) <==> exists i :: 0 <= i < |steps| && steps[i].present && steps[i].key == k
    decreases |steps|
  {
    if steps != [] {
      var n := |steps| - 1;
      BuildKeys(steps[..n], k);
      if k in Build(map[], steps[..n]) {
        var i :| 0 <= i < n && steps[..n][i].present && steps[..n][i].key == k;
        assert steps[i].present && steps[i].key == k;
      }
      if exists i :: 0 <= i < |steps| && steps[i].present && steps[i].key == k {
        var i :| 0 <= i < |steps| && steps[i].present && steps[i].key == k;
        if i < n {
          assert steps[..n][i].present && steps[..n][i].key == k;
        }
      }
    }
  }

  /** When no two steps share a key, each key ends up holding exactly the
      values of its own step, and only if that step was present. */
  lemma {:induction false} BuildEntry(steps: seq<Step>, i: nat)
    requires DistinctKeys(steps) && i < |steps|
    ensures EntryIf(Build(map[], steps), steps[i].key, steps[i].present, steps[i].vs)
    decreases |steps|
  {
    var n := |steps| - 1;
    var prefix := steps[..n];
    assert DistinctKeys(prefix);
    if i == n {
      BuildKeys(prefix, steps[i].key);
    } else {
      BuildEntry(prefix, i);
      assert prefix[i] == steps[i];
    }
  }

  /** The values the present steps for `k` append, in order. */
  function Contributed(steps: seq<Step>, k: string): seq<string>
    decreases |steps|
  {
    if steps == [] then []
    else
      var last := steps[|steps| - 1];
      Contributed(steps[..|steps| - 1], k) + (if last.present && last.key == k then last.vs else [])
  }

  /** Steps only append: each key keeps the list it had and gains the
      values its present steps carry, at the end. */
  lemma {:induction false} BuildGet(m: Values, steps: seq<Step>, k: string)
    ensures Get(Build(m, steps), k) == Get(m, k) + Contributed(steps, k)
    decreases |steps|
  {
    if steps != [] {
      var n := |steps| - 1;
      BuildGet(m, steps[..n], k);
    }
  }

  /** Appending the values of a list one at a time appends the list. */
  lemma ExtendAdd(m: Values, k: string, vs: seq<string>, v: string)
    ensures Add(Extend(m, k, vs), k, v) == Extend(m, k, vs + [v])
  {
    assert Get(m, k) + vs + [v] == Get(m, k) + (vs + [v]);
  }

  /** When no step is present, nothing is built. */
  lemma {:induction false} BuildNothing(steps: seq<Step>)
    requires forall i :: 0 <= i < |steps| ==> !steps[i].present
    ensures Build(map[], steps) == map[]
    decreases |steps|
  {
    if steps != [] {
      BuildNothing(steps[..|steps| - 1]);
    }
  }

  /** Appending to a key that is absent makes a fresh entry. */
  lemma ExtendFresh(m: Values, k: string, vs: seq<string>)
    requires k !in m
    ensures Extend(m, k, vs) == m[k := vs]
  {
    assert Get(m, k) + vs == vs;
  }

  /** `BuildReplace` for the last step. */
  lemma BuildReplaceLast(steps: seq<Step>, s: Step)
    requires DistinctKeys(steps) && |steps| > 0 && s.key == steps[|steps| - 1].key
    ensures Build(map[], steps[|steps| - 1 := s]) ==
              if s.present then Build(map[], steps)[s.key := s.vs] else Build(map[], steps) - {s.key}
  {
    var n := |steps| - 1;
    var prefix := steps[..n];
    var before := Build(map[], prefix);
    var k := s.key;
    assert steps[n := s][..n] == prefix;
    assert Build(map[], steps[n := s]) == Perform(before, s);
    BuildKeys(prefix, k);
    assert k !in before;
    ExtendFresh(before, k, s.vs);
    ExtendFresh(before, k, steps[n].vs);
    assert before - {k} == before;
    assert before[k := steps[n].vs][k := s.vs] == before[k := s.vs];
    assert before[k := steps[n].vs] - {k} == before;
  }

  /** When no two steps share a key, replacing one step by another for the
      same key changes only that key's entry: it holds the new step's
      values if that step is present and is absent otherwise. */
  lemma {:induction false} BuildReplace(steps: seq<Step>, i: nat, s: Step)
    requires DistinctKeys(steps) && i < |steps| && s.key == steps[i].key
    ensures Build(map[], steps[i := s]) ==
              if s.present then Build(map[], steps)[s.key := s.vs] else Build(map[], steps) - {s.key}
    decreases |steps|
  {
    var n := |steps| - 1;
    if i == n {
      BuildReplaceLast(steps, s);
    } else {
      var prefix := steps[..n];
      assert DistinctKeys(prefix);
      var before := Build(map[], prefix);
      assert steps[i := s][..n] == prefix[i := s];
      BuildReplace(prefix, i, s);
      var t := steps[n];
      assert t.key != s.key;
      if t.present {
        var after := Build(map[], prefix[i := s]);
        assert Get(after, t.key) == Get(before, t.key);
        if s.present {
          assert Extend(after, t.key, t.vs) == Extend(before, t.key, t.vs)[s.key := s.vs];
        } else {
          assert Extend(after, t.key, t.vs) == Extend(before, t.key, t.vs) - {s.key};
        }
      }
    }
  }

  /** Adding a sequence of (key, value) pairs one at a time. */
  function AddAll(m: Values, pairs: seq<(string, string)>): Values
    decreases |pairs|
  {
    if pairs == [] then m else AddAll(Add(m, pairs[0].0, pairs[0].1), pairs[1..])
  }

  /** The values a sequence of pairs carries for one key, in order. */
  function ValuesOf(pairs: seq<(string, string)>, k: string): seq<string>
    decreases |pairs|
  {
    if pairs == [] then []
    else (if pairs[0].0 == k then [pairs[0].1] else []) + ValuesOf(pairs[1..], k)
  }

  function KeysOf(pairs: seq<(string, string)>): set<string> {
    set i | 0 <= i < |pairs| :: pairs[i].0
  }

  lemma ValuesOfAppend(pairs: seq<(string, string)>, p: (string, string), k: string)
    ensures ValuesOf(pairs + [p], k) == ValuesOf(pairs, k) + (if p.0 == k then [p.1] else [])
    decreases |pairs|
  {
    if pairs != [] {
      assert (pairs + [p])[1..] == pairs[1..] + [p];
      ValuesOfAppend(pairs[1..], p, k);
    }
  }

  lemma KeysOfCons(pairs: seq<(string, string)>)
    requires pairs != []
    ensures KeysOf(pairs) == {pairs[0].0} + KeysOf(pairs[1..])
  {
    forall x | x in KeysOf(pairs) ensures x in {pairs[0].0} + KeysOf(pairs[1..]) {
      var i :| 0 <= i < |pairs| && pairs[i].0 == x;
      if i > 0 { assert pairs[1..][i - 1].0 == x; }
    }
    forall x | x in KeysOf(pairs[1..]) ensures x in KeysOf(pairs) {
      var i :| 0 <= i < |pairs[1..]| && pairs[1..][i].0 == x;
      assert pairs[i + 1].0 == x;
    }
  }

  lemma {:induction false} AddAllKeys(m: Values, pairs: seq<(string, string)>)
    ensures AddAll(m, pairs).Keys == m.Keys + KeysOf(pairs)
    decreases |pairs|
  {
    if pairs != [] {
      AddAllKeys(Add(m, pairs[0].0, pairs[0].1), pairs[1..]);
      KeysOfCons(pairs);
    }
  }

  lemma {:induction false} AddAllValues(m: Values, pairs: seq<(string, string)>, k: string)
    ensures Get(AddAll(m, pairs), k) == Get(m, k) + ValuesOf(pairs, k)
    decreases |pairs|
  {
    if pairs != [] {
      var m' := Add(m, pairs[0].0, pairs[0].1);
      AddAllValues(m', pairs[1..], k);
      assert Get(m', k) == Get(m, k) + (if pairs[0].0 == k then [pairs[0].1] else []);
    }
  }

  /** Adding pairs never removes or reorders a value: each key's list grows
      by exactly the values the pairs carry for it, at its end, and the
      keys are the old ones plus the keys of the pairs. */
  lemma AddAllAppends(m: Values, pairs: seq<(string, string)>)
    ensures AddAll(m, pairs).Keys == m.Keys + KeysOf(pairs)
    ensures forall k :: Get(AddAll(m, pairs), k) == Get(m, k) + ValuesOf(pairs, k)
  {
    AddAllKeys(m, pairs);
    forall k ensures Get(AddAll(m, pairs), k) == Get(m, k) + ValuesOf(pairs, k) {
      AddAllValues(m, pairs, k);
    }
  }

  lemma AddAllConcat(m: Values, a: seq<(string, string)>, b: seq<(string, string)>)
    ensures AddAll(m, a + b) == AddAll(AddAll(m, a), b)
    decreases |a|
  {
    if a != [] {
      assert (a + b)[1..] == a[1..] + b;
      AddAllConcat(Add(m, a[0].0, a[0].1), a[1..], b);
    } else {
      assert a + b == b;
    }
  }

  // ---------------------------------------------------------------------
  // Percent-encoding (url.QueryEscape)

  type Byte = b: int | 0 <= b < 256

  /** The UTF-8 encoding of one Unicode scalar value. */
  function Utf8(c: char): (bytes: seq<Byte>)
    ensures 1 <= |bytes| <= 4
  {
    var n := c as int;
    if n < 0x80 then [n]
    else if n < 0x800 then [0xC0 + n / 64, 0x80 + n % 64]
    else if n < 0x10000 then [0xE0 + n / 4096, 0x80 + (n / 64) % 64, 0x80 + n % 64]
    else [0xF0 + n / 262144, 0x80 + (n / 4096) % 64, 0x80 + (n / 64) % 64, 0x80 + n % 64]
  }

  /** Section 2.3 of RFC 3986: the unreserved characters, never escaped. */
  predicate Unreserved(b: Byte) {
    || ('a' as int <= b <= 'z' as int)
    || ('A' as int <= b <= 'Z' as int)
    || ('0' as int <= b <= '9' as int)
    || b == '-' as int || b == '_' as int || b == '.' as int || b == '~' as int
  }

  const HexDigits := "0123456789ABCDEF"

  /** One byte of a query component: kept when unreserved, a space becomes
      `+`, anything else becomes `%` and two upper-case hex digits. */
  function EscapeByte(b: Byte): (s: string)
    ensures 1 <= |s| <= 3
  {
    if Unreserved(b) then [b as char]
    else if b == ' ' as int then "+"
    else ['%', HexDigits[b / 16], HexDigits[b % 16]]
  }

  function EscapeBytes(bytes: seq<Byte>): string
    decreases |bytes|
  {
    if bytes == [] then "" else EscapeByte(bytes[0]) + EscapeBytes(bytes[1..])
  }

  /** `url.QueryEscape`. */
  function QueryEscape(s: string): string
    decreases |s|
  {
    if s == [] then "" else EscapeBytes(Utf8(s[0])) + QueryEscape(s[1..])
  }

  /** Characters an escaped query component may contain. */
  predicate EscapedChar(c: char) {
    || ('a' <= c <= 'z') || ('A' <= c <= 'Z') || ('0' <= c <= '9')
    || c == '-' || c == '_' || c == '.' || c == '~' || c == '+' || c == '%'
  }

  predicate AllEscapedChars(s: string) {
    forall i :: 0 <= i < |s| ==> EscapedChar(s[i])
  }

  lemma {:induction false} EscapeBytesChars(bytes: seq<Byte>)
    ensures AllEscapedChars(EscapeBytes(bytes))
    decreases |bytes|
  {
    if bytes != [] {
      EscapeBytesChars(bytes[1..]);
      EscapeByteChars(bytes[0]);
      EscapedConcat(EscapeByte(bytes[0]), EscapeBytes(bytes[1..]));
    }
  }

  lemma EscapeByteChars(b: Byte)
    ensures AllEscapedChars(EscapeByte(b))
  {
    if !Unreserved(b) && b != ' ' as int {
      assert forall d :: 0 <= d < 16 ==> EscapedChar(HexDigits[d]);
    }
  }

  lemma EscapedConcat(a: string, b: string)
    requires AllEscapedChars(a) && AllEscapedChars(b)
    ensures AllEscapedChars(a + b)
  {
    assert forall i :: 0 <= i < |a + b| ==> (a + b)[i] == if i < |a| then a[i] else b[i - |a|];
  }

  /** An escaped component uses only unreserved characters, `+` and `%`; in
      particular it holds no `&` and no `=`, the separators of a query. */
  lemma {:induction false} QueryEscapeChars(s: string)
    ensures AllEscapedChars(QueryEscape(s))
    decreases |s|
  {
    if s != [] {
      EscapeBytesChars(Utf8(s[0]));
      QueryEscapeChars(s[1..]);
      var e := EscapeBytes(Utf8(s[0]));
      var r := QueryEscape(s[1..]);
      assert forall i :: 0 <= i < |e + r| ==> (e + r)[i] == if i < |e| then e[i] else r[i - |e|];
    }
  }

  // ---------------------------------------------------------------------
  // Sorted keys

  /** Go's `<` on strings: byte-wise on the UTF-8 encoding, which orders
      strings as code points do. */
  predicate Less(a: string, b: string)
    decreases |a|
  {
    if |a| == 0 then |b| > 0
    else if |b| == 0 then false
    else if a[0] < b[0] then true
    else if a[0] == b[0] then Less(a[1..], b[1..])
    else false
  }

  lemma {:induction false} LessIrreflexive(a: string)
    ensures !Less(a, a)
    decreases |a|
  {
    if |a| > 0 { LessIrreflexive(a[1..]); }
  }

  lemma {:induction false} LessTransitive(a: string, b: string, c: string)
    requires Less(a, b) && Less(b, c)
    ensures Less(a, c)
    decreases |a|
  {
    if |a| > 0 && |b| > 0 && |c| > 0 && a[0] == b[0] && b[0] == c[0] {
      LessTransitive(a[1..], b[1..], c[1..]);
    }
  }

  lemma {:induction false} LessTotal(a: string, b: string)
    ensures a == b || Less(a, b) || Less(b, a)
    decreases |a|
  {
    if |a| > 0 && |b| > 0 && a[0] == b[0] {
      LessTotal(a[1..], b[1..]);
      if a[1..] == b[1..] {
        assert a == [a[0]] + a[1..] && b == [b[0]] + b[1..];
      }
    }
  }

  lemma LessAsymmetric(a: string, b: string)
    requires Less(a, b)
    ensures !Less(b, a)
  {
    if Less(b, a) {
      LessTransitive(a, b, a);
      LessIrreflexive(a);
    }
  }

  predicate IsLeast(k: string, keys: set<string>) {
    k in keys && forall j :: j in keys && j != k ==> Less(k, j)
  }

  lemma {:induction false} LeastExists(keys: set<string>)
    requires keys != {}
    ensures exists k :: IsLeast(k, keys)
    decreases |keys|
  {
    var x :| x in keys;
    var rest := keys - {x};
    if rest == {} {
      assert keys == {x};
      assert IsLeast(x, keys);
    } else {
      LeastExists(rest);
      var m :| IsLeast(m, rest);
      LessTotal(x, m);
      if Less(x, m) {
        forall j | j in keys && j != x ensures Less(x, j) {
          if j != m { LessTransitive(x, m, j); }
        }
        assert IsLeast(x, keys);
      } else {
        assert IsLeast(m, keys);
      }
    }
  }

  lemma LeastUnique(keys: set<string>)
    ensures forall a, b :: IsLeast(a, keys) && IsLeast(b, keys) ==> a == b
  {
    forall a, b | IsLeast(a, keys) && IsLeast(b, keys) ensures a == b {
      if a != b {
        LessAsymmetric(a, b);
      }
    }
  }

  function Least(keys: set<string>): (k: string)
    requires keys != {}
    ensures IsLeast(k, keys)
  {
    LeastExists(keys);
    LeastUnique(keys);
    var k :| IsLeast(k, keys);
    k
  }

  predicate StrictlySorted(keys: seq<string>) {
    forall i, j :: 0 <= i < j < |keys| ==> Less(keys[i], keys[j])
  }

  /** `sort.Strings` over the keys of a map. */
  function SortedKeys(keys: set<string>): (r: seq<string>)
    ensures |r| == |keys|
    ensures forall k :: k in keys <==> k in r
    ensures StrictlySorted(r)
    decreases |keys|
  {
    if keys == {} then []
    else
      var k := Least(keys);
      var rest := SortedKeys(keys - {k});
      assert forall i :: 0 <= i < |rest| ==> Less(k, rest[i]) by {
        forall i | 0 <= i < |rest| ensures Less(k, rest[i]) {
          assert rest[i] in rest;
          assert rest[i] in keys - {k};
        }
      }
      [k] + rest
  }

  // ---------------------------------------------------------------------
  // Encode

  /** The (key, value) pairs of one key, in the order they were added. */
  function KeyPairs(k: string, vs: seq<string>): (pairs: seq<(string, string)>)
    ensures |pairs| == |vs|
    ensures forall i :: 0 <= i < |vs| ==> pairs[i] == (k, vs[i])
  {
    seq(|vs|, i requires 0 <= i < |vs| => (k, vs[i]))
  }

  function PairsOf(keys: seq<string>, m: Values): seq<(string, string)>
    requires forall i :: 0 <= i < |keys| ==> keys[i] in m
    decreases |keys|
  {
    if keys == [] then [] else KeyPairs(keys[0], m[keys[0]]) + PairsOf(keys[1..], m)
  }

  /** Every (key, value) pair of the multimap in the order `Encode` writes
      them: keys in sorted order, each key's values in insertion order. */
  function Pairs(m: Values): seq<(string, string)> {
    var keys := SortedKeys(m.Keys);
    assert forall i :: 0 <= i < |keys| ==> keys[i] in m by {
      forall i | 0 <= i < |keys| ensures keys[i] in m { assert keys[i] in keys; }
    }
    PairsOf(keys, m)
  }

  function EscapePair(p: (string, string)): string {
    QueryEscape(p.0) + "=" + QueryEscape(p.1)
  }

  function EscapePairs(pairs: seq<(string, string)>): (parts: seq<string>)
    ensures |parts| == |pairs|
    ensures forall i :: 0 <= i < |pairs| ==> parts[i] == EscapePair(pairs[i])
  {
    seq(|pairs|, i requires 0 <= i < |pairs| => EscapePair(pairs[i]))
  }

  /** `strings.Join(parts, sep)` for a one-character separator. */
  function Join(parts: seq<string>, sep: char): string
    decreases |parts|
  {
    if parts == [] then ""
    else if |parts| == 1 then parts[0]
    else parts[0] + [sep] + Join(parts[1..], sep)
  }

  /** `url.Values.Encode`: every pair written `key=value`, escaped, joined
      with `&`; the empty multimap encodes as the empty string. */
  function Encode(m: Values): string {
    Join(EscapePairs(Pairs(m)), '&')
  }

  lemma ValuesOfConcat(a: seq<(string, string)>, b: seq<(string, string)>, k: string)
    ensures ValuesOf(a + b, k) == ValuesOf(a, k) + ValuesOf(b, k)
    decreases |a|
  {
    if a != [] {
      assert (a + b)[1..] == a[1..] + b;
      ValuesOfConcat(a[1..], b, k);
    } else {
      assert a + b == b;
    }
  }

  lemma {:induction false} ValuesOfKeyPairs(k: string, vs: seq<string>, j: string)
    ensures ValuesOf(KeyPairs(k, vs), j) == if j == k then vs else []
    decreases |vs|
  {
    if vs != [] {
      assert KeyPairs(k, vs)[1..] == KeyPairs(k, vs[1..]);
      ValuesOfKeyPairs(k, vs[1..], j);
      assert [vs[0]] + vs[1..] == vs;
    }
  }

  lemma {:induction false} ValuesOfPairsOf(keys: seq<string>, m: Values, k: string)
    requires forall i :: 0 <= i < |keys| ==> keys[i] in m
    requires forall i, j :: 0 <= i < j < |keys| ==> keys[i] != keys[j]
    ensures ValuesOf(PairsOf(keys, m), k) == if k in keys then m[k] else []
    decreases |keys|
  {
    if keys != [] {
      ValuesOfConcat(KeyPairs(keys[0], m[keys[0]]), PairsOf(keys[1..], m), k);
      ValuesOfKeyPairs(keys[0], m[keys[0]], k);
      ValuesOfPairsOf(keys[1..], m, k);
      if k == keys[0] {
        assert k !in keys[1..] by {
          forall i | 0 <= i < |keys[1..]| ensures keys[1..][i] != k { assert keys[1..][i] == keys[i + 1]; }
        }
      } else {
        assert k in keys <==> k in keys[1..] by {
          assert keys == [keys[0]] + keys[1..];
        }
      }
    }
  }

  /** Reading one key's values back out of the encoded order gives exactly
      that key's list: nothing is dropped, duplicated or reordered. */
  lemma ValuesOfPairs(m: Values, k: string)
    ensures ValuesOf(Pairs(m), k) == Get(m, k)
  {
    var keys := SortedKeys(m.Keys);
    forall i, j | 0 <= i < j < |keys| ensures keys[i] != keys[j] {
      LessIrreflexive(keys[i]);
    }
    assert forall i :: 0 <= i < |keys| ==> keys[i] in m by {
      forall i | 0 <= i < |keys| ensures keys[i] in m { assert keys[i] in keys; }
    }
    ValuesOfPairsOf(keys, m, k);
  }

  lemma {:induction false} PairsOfOrder(keys: seq<string>, m: Values)
    requires forall i :: 0 <= i < |keys| ==> keys[i] in m
    requires StrictlySorted(keys)
    ensures forall i, j :: 0 <= i < j < |PairsOf(keys, m)| ==>
      PairsOf(keys, m)[i].0 == PairsOf(keys, m)[j].0 || Less(PairsOf(keys, m)[i].0, PairsOf(keys, m)[j].0)
    ensures forall i :: 0 <= i < |PairsOf(keys, m)| ==> PairsOf(keys, m)[i].0 in keys
    decreases |keys|
  {
    if keys != [] {
      var head := KeyPairs(keys[0], m[keys[0]]);
      var tail := PairsOf(keys[1..], m);
      PairsOfOrder(keys[1..], m);
      var ps := head + tail;
      assert forall i :: 0 <= i < |tail| ==> tail[i].0 in keys[1..];
      forall i | 0 <= i < |tail| ensures Less(keys[0], tail[i].0) {
        var t :| 0 <= t < |keys[1..]| && keys[1..][t] == tail[i].0;
        assert keys[t + 1] == tail[i].0;
      }
      forall i | 0 <= i < |ps| ensures ps[i].0 in keys {
        if i >= |head| { assert ps[i] == tail[i - |head|]; }
      }
      forall i, j | 0 <= i < j < |ps| ensures ps[i].0 == ps[j].0 || Less(ps[i].0, ps[j].0) {
        if j < |head| {
        } else if i < |head| {
          assert ps[j] == tail[j - |head|];
        } else {
          assert ps[i] == tail[i - |head|] && ps[j] == tail[j - |head|];
        }
      }
    }
  }

  /** `Encode` writes keys in sorted order: a pair never precedes a pair with
      a smaller key. */
  lemma PairsKeyOrder(m: Values)
    ensures forall i, j :: 0 <= i < j < |Pairs(m)| ==>
      Pairs(m)[i].0 == Pairs(m)[j].0 || Less(Pairs(m)[i].0, Pairs(m)[j].0)
  {
    var keys := SortedKeys(m.Keys);
    assert forall i :: 0 <= i < |keys| ==> keys[i] in m by {
      forall i | 0 <= i < |keys| ensures keys[i] in m { assert keys[i] in keys; }
    }
    PairsOfOrder(keys, m);
  }

  /** The keys of the encoded pairs are the keys whose list is non-empty. */
  lemma KeysOfPairs(m: Values)
    ensures forall k :: k in KeysOf(Pairs(m)) <==> k in m && m[k] != []
  {
    forall k ensures k in KeysOf(Pairs(m)) <==> k in m && m[k] != [] {
      ValuesOfPairs(m, k);
      KeysOfValues(Pairs(m), k);
    }
  }

  lemma {:induction false} KeysOfValues(pairs: seq<(string, string)>, k: string)
    ensures k in KeysOf(pairs) <==> ValuesOf(pairs, k) != []
    decreases |pairs|
  {
    if pairs != [] {
      KeysOfValues(pairs[1..], k);
      if k in KeysOf(pairs) && pairs[0].0 != k {
        var i :| 0 <= i < |pairs| && pairs[i].0 == k;
        assert pairs[1..][i - 1].0 == k;
      }
      if k in KeysOf(pairs[1..]) {
        var i :| 0 <= i < |pairs[1..]| && pairs[1..][i].0 == k;
        assert pairs[i + 1].0 == k;
      }
    }
  }

  /** Adding the encoded pairs one by one into an empty multimap rebuilds the
      multimap, provided no key has an empty list (`AddQueryParam` never
      creates one). */
  lemma RegroupPairs(m: Values)
    requires forall k :: k in m ==> m[k] != []
    ensures AddAll(map[], Pairs(m)) == m
  {
    var r := AddAll(map[], Pairs(m));
    RegroupKeys(m);
    forall k | k in m ensures r[k] == m[k] {
      RegroupKey(m, k);
    }
  }

  lemma RegroupKeys(m: Values)
    requires forall k :: k in m ==> m[k] != []
    ensures AddAll(map[], Pairs(m)).Keys == m.Keys
  {
    var empty: Values := map[];
    AddAllAppends(empty, Pairs(m));
    KeysOfPairs(m);
  }

  lemma RegroupKey(m: Values, k: string)
    requires k in m
    ensures Get(AddAll(map[], Pairs(m)), k) == m[k]
  {
    var empty: Values := map[];
    AddAllAppends(empty, Pairs(m));
    assert Get(AddAll(empty, Pairs(m)), k) == ValuesOf(Pairs(m), k);
    ValuesOfPairs(m, k);
  }
}
