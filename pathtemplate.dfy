/** Resolution of `/:name` placeholders in a request's sub-path
    (`buildSubpath` in http/request.go). The regular expression
    `/:(?P<PathParam>[[:alpha:]]+)*` is modelled by a hand-written scanner. */
module PathTemplate {
  import opened Wrappers

  const EmptyParamsMessage := "unable to replace the path parameter because it's empty"

  function MissingParamMessage(name: string): string {
    "unable to find the value of the path parameter " + name
  }

  /** `[[:alpha:]]`: an ASCII letter. */
  predicate IsAlpha(c: char) {
    'A' <= c <= 'Z' || 'a' <= c <= 'z'
  }

  predicate AllAlpha(s: string) {
    forall i :: 0 <= i < |s| ==> IsAlpha(s[i])
  }

  predicate NoColon(s: string) {
    forall i :: 0 <= i < |s| ==> s[i] != ':'
  }

  /** The longest prefix of `s` made of letters: what the greedy group
      `([[:alpha:]]+)*` captures after `/:` (empty when no letter follows). */
  function LetterRun(s: string): (r: string)
    ensures |r| <= |s| && r == s[..|r|]
    ensures AllAlpha(r)
    ensures |r| < |s| ==> !IsAlpha(s[|r|])
  {
    if |s| > 0 && IsAlpha(s[0]) then [s[0]] + LetterRun(s[1..]) else []
  }

  /** Whether the regular expression matches anywhere in `s`: it does exactly
      when `/:` occurs, since the repeated group may match nothing. */
  predicate Matches(s: string) {
    exists i :: 0 <= i < |s| - 1 && s[i] == '/' && s[i + 1] == ':'
  }

  /** The captured names of all non-overlapping matches, left to right
      (`FindAllStringSubmatch(s, -1)`, second column). */
  function Placeholders(s: string): seq<string>
    decreases |s|
  {
    if |s| < 2 then []
    else if s[0] == '/' && s[1] == ':' then
      var name := LetterRun(s[2..]);
      [name] + Placeholders(s[2 + |name|..])
    else Placeholders(s[1..])
  }

  /** The scanner finds a placeholder exactly when the regular expression
      matches. */
  lemma {:induction false} PlaceholdersIffMatches(s: string)
    ensures Placeholders(s) != [] <==> Matches(s)
    decreases |s|
  {
    if |s| < 2 {
    } else if s[0] == '/' && s[1] == ':' {
      assert Placeholders(s) != [];
    } else {
      PlaceholdersIffMatches(s[1..]);
      if Matches(s) {
        var i :| 0 <= i < |s| - 1 && s[i] == '/' && s[i + 1] == ':';
        assert i > 0;
        assert s[1..][i - 1] == '/' && s[1..][i] == ':';
      }
      if Matches(s[1..]) {
        var i :| 0 <= i < |s[1..]| - 1 && s[1..][i] == '/' && s[1..][i + 1] == ':';
        assert s[i + 1] == '/' && s[i + 2] == ':';
      }
    }
  }

  predicate OccursAt(s: string, pat: string, i: int) {
    0 <= i && i + |pat| <= |s| && s[i..i + |pat|] == pat
  }

  /** `strings.Replace(s, pat, v, 1)`: the first occurrence of `pat` is
      replaced by `v`; an empty `pat` matches at the start. */
  function ReplaceFirst(s: string, pat: string, v: string): string
    decreases |s|
  {
    if |pat| == 0 then v + s
    else if |s| < |pat| then s
    else if s[..|pat|] == pat then v + s[|pat|..]
    else [s[0]] + ReplaceFirst(s[1..], pat, v)
  }

  lemma OccursShift(s: string, pat: string, i: int)
    requires |s| > 0 && i >= 0
    ensures OccursAt(s, pat, i + 1) <==> OccursAt(s[1..], pat, i)
  {
    if i + 1 + |pat| <= |s| {
      assert s[1..][i..i + |pat|] == s[i + 1..i + 1 + |pat|];
    }
  }

  /** Without an occurrence of `pat` the string comes back unchanged. */
  lemma {:induction false} ReplaceFirstAbsent(s: string, pat: string, v: string)
    requires forall i :: !OccursAt(s, pat, i)
    ensures ReplaceFirst(s, pat, v) == s
    decreases |s|
  {
    assert !OccursAt(s, pat, 0);
    if |pat| > 0 && |s| >= |pat| {
      forall i | i >= 0 ensures !OccursAt(s[1..], pat, i) {
        OccursShift(s, pat, i);
      }
      ReplaceFirstAbsent(s[1..], pat, v);
      assert [s[0]] + s[1..] == s;
    }
  }

  /** Exactly the leftmost occurrence of `pat` is replaced. */
  lemma {:induction false} ReplaceFirstLeftmost(s: string, pat: string, v: string, i: int)
    requires OccursAt(s, pat, i)
    requires forall j :: 0 <= j < i ==> !OccursAt(s, pat, j)
    ensures ReplaceFirst(s, pat, v) == s[..i] + v + s[i + |pat|..]
    decreases |s|
  {
    if i == 0 {
      if |pat| == 0 {
        assert s[..0] + v + s[0..] == v + s;
      } else {
        assert s[..0] + v + s[|pat|..] == v + s[|pat|..];
      }
    } else {
      assert !OccursAt(s, pat, 0);
      assert |pat| > 0;
      OccursShift(s, pat, i - 1);
      forall j | 0 <= j < i - 1 ensures !OccursAt(s[1..], pat, j) {
        OccursShift(s, pat, j);
      }
      ReplaceFirstLeftmost(s[1..], pat, v, i - 1);
      assert |s| >= |pat| && s[..|pat|] != pat;
      assert ReplaceFirst(s, pat, v) == [s[0]] + ReplaceFirst(s[1..], pat, v);
      ConsSplice(s, i, |pat|, v);
    }
  }

  lemma ConsSplice(s: string, i: int, n: nat, v: string)
    requires 0 < i && i + n <= |s|
    ensures [s[0]] + (s[1..][..i - 1] + v + s[1..][i - 1 + n..]) == s[..i] + v + s[i + n..]
  {
    assert s[..i] == [s[0]] + s[1..][..i - 1];
    assert s[i + n..] == s[1..][i - 1 + n..];
  }

  /** The replacement loop of `buildSubpath`: for each captured name in turn,
      fail if the name has no value, otherwise replace the first remaining
      `:name` in the current string by its value. */
  function Substitute(current: string, names: seq<string>, params: map<string, string>): Result<string, string>
    decreases |names|
  {
    if names == [] then Ok(current)
    else if names[0] !in params then Err(MissingParamMessage(names[0]))
    else Substitute(ReplaceFirst(current, ":" + names[0], params[names[0]]), names[1..], params)
  }

  /** The loop fails exactly when some name has no value, and then it reports
      the first such name. */
  lemma {:induction false} SubstituteFailsIff(current: string, names: seq<string>, params: map<string, string>)
    ensures Substitute(current, names, params).Err? <==> exists i :: 0 <= i < |names| && names[i] !in params
    ensures Substitute(current, names, params).Err? ==>
              exists i :: && 0 <= i < |names| && names[i] !in params
                          && Substitute(current, names, params).error == MissingParamMessage(names[i])
                          && forall j :: 0 <= j < i ==> names[j] in params
    decreases |names|
  {
    if names != [] && names[0] in params {
      SubstituteFailsIff(ReplaceFirst(current, ":" + names[0], params[names[0]]), names[1..], params);
      assert forall i :: 1 <= i < |names| ==> names[i] == names[1..][i - 1];
      if Substitute(current, names, params).Err? {
        var i :| && 0 <= i < |names[1..]| && names[1..][i] !in params
                 && Substitute(current, names, params).error == MissingParamMessage(names[1..][i])
                 && forall j :: 0 <= j < i ==> names[1..][j] in params;
        assert forall j :: 0 <= j < i + 1 ==> names[j] in params by {
          forall j | 0 <= j < i + 1 ensures names[j] in params {
            if j > 0 { assert names[j] == names[1..][j - 1]; }
          }
        }
      }
    } else if names != [] {
      assert names[0] !in params;
    }
  }

  /** `buildSubpath` on a sub-path and the request's path parameters
      (`None` for a nil map). The error carries the message the source
      formats; on failure the source also returns an empty path. */
  function ResolveSubpath(subpath: string, params: Option<map<string, string>>): (r: Result<string, string>)
    ensures |subpath| == 0 ==> r == Ok("")
    ensures !Matches(subpath) ==> r == Ok(subpath)
    ensures Matches(subpath) && params.None? ==> r == Err(EmptyParamsMessage)
  {
    if |subpath| <= 0 then Ok("")
    else if !Matches(subpath) then Ok(subpath)
    else if params.None? then Err(EmptyParamsMessage)
    else Substitute(subpath, Placeholders(subpath), params.value)
  }

  /** Resolution fails exactly when the sub-path holds a placeholder and
      either there are no parameters at all or one of its names has no
      value. */
  lemma ResolveFailsIff(subpath: string, params: Option<map<string, string>>)
    ensures ResolveSubpath(subpath, params).Err? <==>
              (Matches(subpath) &&
               (params.None? || exists i :: 0 <= i < |Placeholders(subpath)| && Placeholders(subpath)[i] !in params.value))
  {
    if |subpath| > 0 && Matches(subpath) && params.Some? {
      var names := Placeholders(subpath);
      assert ResolveSubpath(subpath, params) == Substitute(subpath, names, params.value);
      SubstituteFailsIff(subpath, names, params.value);
    }
  }

  /** A sub-path template in the shape the resource wrappers use: a literal
      head, then segments `/:name` each followed by literal text. */
  datatype Segment = Segment(name: string, rest: string)
  datatype Template = Template(head: string, segments: seq<Segment>)

  function SegmentsText(segments: seq<Segment>): string
    decreases |segments|
  {
    if segments == [] then ""
    else "/:" + segments[0].name + segments[0].rest + SegmentsText(segments[1..])
  }

  function Text(t: Template): string {
    t.head + SegmentsText(t.segments)
  }

  function Names(segments: seq<Segment>): (names: seq<string>)
    ensures |names| == |segments|
    ensures forall i :: 0 <= i < |segments| ==> names[i] == segments[i].name
    decreases |segments|
  {
    if segments == [] then [] else [segments[0].name] + Names(segments[1..])
  }

  /** The path the template denotes once every name is replaced by its value. */
  function SegmentsFilled(segments: seq<Segment>, params: map<string, string>): string
    requires forall i :: 0 <= i < |segments| ==> segments[i].name in params
    decreases |segments|
  {
    if segments == [] then ""
    else "/" + params[segments[0].name] + segments[0].rest + SegmentsFilled(segments[1..], params)
  }

  /** Literal text without colons, names made of letters, and no letter right
      after a name (otherwise the scanner would read it as part of the name). */
  predicate SegmentOk(seg: Segment) {
    && AllAlpha(seg.name)
    && NoColon(seg.rest)
    && (|seg.rest| > 0 ==> !IsAlpha(seg.rest[0]))
  }

  predicate WellFormed(t: Template) {
    NoColon(t.head) && forall i :: 0 <= i < |t.segments| ==> SegmentOk(t.segments[i])
  }

  predicate ColonFreeValues(params: map<string, string>) {
    forall n :: n in params ==> NoColon(params[n])
  }

  lemma {:induction false} PlaceholdersSkipLiteral(h: string, x: string)
    requires NoColon(h)
    requires |x| > 0 ==> x[0] == '/'
    ensures Placeholders(h + x) == Placeholders(x)
    decreases |h|
  {
    if |h| > 0 {
      var s := h + x;
      if |s| >= 2 {
        assert s[1] != ':' by {
          if |h| > 1 { assert s[1] == h[1]; } else { assert |x| > 0 ==> s[1] == x[0]; }
        }
      }
      PlaceholdersSkipLiteral(h[1..], x);
      assert s[1..] == h[1..] + x;
    } else {
      assert h + x == x;
    }
  }

  lemma PlaceholdersAtMarker(name: string, after: string)
    requires AllAlpha(name)
    requires |after| > 0 ==> !IsAlpha(after[0])
    ensures Placeholders("/:" + name + after) == [name] + Placeholders(after)
  {
    var s := "/:" + name + after;
    assert s[2..] == name + after;
    LetterRunOfName(name, after);
    assert s[2 + |name|..] == after;
  }

  lemma {:induction false} PlaceholdersOfSegments(segments: seq<Segment>)
    requires forall i :: 0 <= i < |segments| ==> SegmentOk(segments[i])
    ensures Placeholders(SegmentsText(segments)) == Names(segments)
    decreases |segments|
  {
    if segments != [] {
      var seg := segments[0];
      assert SegmentOk(seg);
      var tail := SegmentsText(segments[1..]);
      assert |tail| > 0 ==> tail[0] == '/';
      assert forall i :: 0 <= i < |segments[1..]| ==> segments[1..][i] == segments[i + 1];
      PlaceholdersOfSegments(segments[1..]);
      PlaceholdersSkipLiteral(seg.rest, tail);
      var after := seg.rest + tail;
      assert |after| > 0 ==> !IsAlpha(after[0]) by {
        if |seg.rest| == 0 { assert after == tail; } else { assert after[0] == seg.rest[0]; }
      }
      PlaceholdersAtMarker(seg.name, after);
      assert SegmentsText(segments) == "/:" + seg.name + after;
    }
  }

  lemma {:induction false} LetterRunOfName(name: string, after: string)
    requires AllAlpha(name)
    requires |after| > 0 ==> !IsAlpha(after[0])
    ensures LetterRun(name + after) == name
    decreases |name|
  {
    if |name| > 0 {
      assert (name + after)[1..] == name[1..] + after;
      LetterRunOfName(name[1..], after);
    } else {
      assert name + after == after;
    }
  }

  lemma {:induction false} ReplaceFirstSkips(p: string, q: string, pat: string, v: string)
    requires NoColon(p)
    requires |pat| > 0 && pat[0] == ':'
    ensures ReplaceFirst(p + q, pat, v) == p + ReplaceFirst(q, pat, v)
    decreases |p|
  {
    var s := p + q;
    if |p| == 0 {
      assert s == q;
    } else if |s| < |pat| {
      assert ReplaceFirst(q, pat, v) == q;
    } else {
      assert s[0] == p[0];
      assert s[..|pat|][0] != pat[0];
      assert s[1..] == p[1..] + q;
      ReplaceFirstSkips(p[1..], q, pat, v);
      calc {
        ReplaceFirst(s, pat, v);
        [s[0]] + ReplaceFirst(s[1..], pat, v);
        [p[0]] + (p[1..] + ReplaceFirst(q, pat, v));
        { assert [p[0]] + p[1..] == p; }
        p + ReplaceFirst(q, pat, v);
      }
    }
  }

  /** One step of the replacement loop on a well-formed remainder: the first
      `:name` is the placeholder itself, because nothing before it has a colon. */
  lemma ReplaceAtPlaceholder(done: string, name: string, v: string, after: string)
    requires NoColon(done)
    ensures ReplaceFirst(done + "/:" + name + after, ":" + name, v) == done + "/" + v + after
  {
    var pat := ":" + name;
    var q := pat + after;
    assert done + "/:" + name + after == (done + "/") + q;
    assert NoColon(done + "/");
    ReplaceFirstSkips(done + "/", q, pat, v);
    assert q[..|pat|] == pat && q[|pat|..] == after;
    assert ReplaceFirst(q, pat, v) == v + after;
  }

  lemma SubstituteStep(current: string, names: seq<string>, params: map<string, string>)
    requires names != [] && names[0] in params
    ensures Substitute(current, names, params) ==
      Substitute(ReplaceFirst(current, ":" + names[0], params[names[0]]), names[1..], params)
  {
  }

  lemma FilledStep(done: string, segments: seq<Segment>, params: map<string, string>)
    requires segments != []
    requires forall i :: 0 <= i < |segments| ==> segments[i].name in params
    ensures done + SegmentsFilled(segments, params) ==
      (done + "/" + params[segments[0].name] + segments[0].rest) + SegmentsFilled(segments[1..], params)
  {
  }

  lemma RegroupMarker(done: string, name: string, rest: string, tail: string)
    ensures done + ("/:" + name + rest + tail) == done + "/:" + name + (rest + tail)
  {
  }

  /** The first placeholder of a well-formed remainder is replaced, and the
      loop goes on with the text after it. */
  lemma SubstituteFirstSegment(done: string, segments: seq<Segment>, params: map<string, string>)
    requires NoColon(done)
    requires segments != [] && segments[0].name in params
    ensures Substitute(done + SegmentsText(segments), Names(segments), params) ==
      Substitute((done + "/" + params[segments[0].name] + segments[0].rest) + SegmentsText(segments[1..]),
                 Names(segments[1..]), params)
  {
    var seg := segments[0];
    var v := params[seg.name];
    var tail := SegmentsText(segments[1..]);
    var names := Names(segments);
    SubstituteStep(done + SegmentsText(segments), names, params);
    assert SegmentsText(segments) == "/:" + seg.name + seg.rest + tail;
    RegroupMarker(done, seg.name, seg.rest, tail);
    ReplaceAtPlaceholder(done, seg.name, v, seg.rest + tail);
    assert done + "/" + v + (seg.rest + tail) == (done + "/" + v + seg.rest) + tail;
    assert names[1..] == Names(segments[1..]);
  }

  lemma {:induction false} SubstituteSegments(done: string, segments: seq<Segment>, params: map<string, string>)
    requires NoColon(done)
    requires forall i :: 0 <= i < |segments| ==> SegmentOk(segments[i])
    requires ColonFreeValues(params)
    requires forall i :: 0 <= i < |segments| ==> segments[i].name in params
    ensures Substitute(done + SegmentsText(segments), Names(segments), params) ==
      Ok(done + SegmentsFilled(segments, params))
    decreases |segments|
  {
    if segments == [] {
      assert done + "" == done;
    } else {
      var seg := segments[0];
      var done' := done + "/" + params[seg.name] + seg.rest;
      SubstituteFirstSegment(done, segments, params);
      assert NoColon(done') by {
        assert SegmentOk(seg) && NoColon(params[seg.name]);
      }
      assert forall i :: 0 <= i < |segments[1..]| ==> segments[1..][i] == segments[i + 1];
      SubstituteSegments(done', segments[1..], params);
      FilledStep(done, segments, params);
    }
  }

  /** A sub-path with a single placeholder: it resolves to the value of its
      name when the map has one, and otherwise fails naming it. */
  lemma ResolveSingle(name: string, after: string, params: map<string, string>)
    requires AllAlpha(name) && NoColon(after) && (|after| > 0 ==> !IsAlpha(after[0]))
    ensures ResolveSubpath("/:" + name + after, Some(params)) ==
              if name in params then Ok("/" + params[name] + after) else Err(MissingParamMessage(name))
  {
    var s := "/:" + name + after;
    PlaceholdersAtMarker(name, after);
    PlaceholdersIffMatches(after);
    assert Placeholders(s) == [name];
    assert s[0] == '/' && s[1] == ':';
    assert Matches(s);
    if name in params {
      ReplaceAtPlaceholder("", name, params[name], after);
      assert "" + "/:" + name + after == s;
      assert "" + "/" + params[name] + after == "/" + params[name] + after;
      assert [name][1..] == [];
      assert Substitute(s, [name], params) == Substitute(ReplaceFirst(s, ":" + name, params[name]), [], params);
    }
  }

  /** The scanner finds exactly the template's names, and a match exactly
      when there is a segment. */
  lemma TemplatePlaceholders(t: Template)
    requires WellFormed(t)
    ensures Placeholders(Text(t)) == Names(t.segments)
    ensures Matches(Text(t)) <==> t.segments != []
    ensures t.segments == [] ==> Text(t) == t.head
  {
    PlaceholdersSkipLiteral(t.head, SegmentsText(t.segments));
    PlaceholdersOfSegments(t.segments);
    PlaceholdersIffMatches(Text(t));
    if t.segments == [] {
      assert Text(t) == t.head + "";
    }
  }

  /** For a well-formed template and values without colons, resolution
      either fills every placeholder with its value, left to right, or fails
      naming the first name that has no value; never a partial result. */
  lemma ResolveTemplate(t: Template, params: map<string, string>)
    requires WellFormed(t)
    requires ColonFreeValues(params)
    ensures (forall i :: 0 <= i < |t.segments| ==> t.segments[i].name in params) ==>
      ResolveSubpath(Text(t), Some(params)) == Ok(t.head + SegmentsFilled(t.segments, params))
    ensures (exists i :: 0 <= i < |t.segments| && t.segments[i].name !in params) ==>
      exists i :: && 0 <= i < |t.segments| && t.segments[i].name !in params
                  && ResolveSubpath(Text(t), Some(params)) == Err(MissingParamMessage(t.segments[i].name))
                  && forall j :: 0 <= j < i ==> t.segments[j].name in params
  {
    var s := Text(t);
    TemplatePlaceholders(t);
    if forall i :: 0 <= i < |t.segments| ==> t.segments[i].name in params {
      SubstituteSegments(t.head, t.segments, params);
      if t.segments == [] {
        assert t.head + SegmentsFilled(t.segments, params) == t.head;
      }
    } else {
      var i :| 0 <= i < |t.segments| && t.segments[i].name !in params;
      assert Names(t.segments)[i] !in params;
      SubstituteFailsIff(s, Names(t.segments), params);
    }
  }
}
