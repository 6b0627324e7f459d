/** The response side of `http/request.go`: `Response.Error`, which turns a
    status code, a body and a stored error into a `RequestError`,
    `RequestError.Error`, which formats it, and `Response.SaveAsObj`.
    JSON decoding is represented by what the decoders make of a body. */
module HttpResponse {
  import opened Wrappers
  import opened Strconv

  /** A JSON value as the message scan sees it: the type assertion to
      `string` succeeds on a string and panics on anything else. */
  datatype JsonValue = JString(s: string) | JNonString

  /** What `Response.Error` makes of a response body.
      `ObjectBody`: the body decodes into `{message, status}` (`message` is
      empty when absent or null).
      `MapsBody`: it does not, but decodes as an array of objects.
      `Undecodable`: neither decode succeeds; `message` is what the object
      decoder filled in before it failed (a `message` string is kept when
      another field has the wrong JSON type, and is empty when the body is
      not valid JSON or not an object), `arrayError` is the second
      decoder's error text. An empty body is `Undecodable` with an empty
      message. */
  datatype ErrorBody =
    | ObjectBody(message: string)
    | MapsBody(items: seq<map<string, JsonValue>>)
    | Undecodable(message: string, arrayError: string)

  const StatusOK := 200
  const StatusPartialContent := 206

  /** The statuses `Error` accepts: 200 to 206 (section 6.3 of RFC 7231). */
  predicate Accepted(status: int) {
    StatusOK <= status <= StatusPartialContent
  }

  const ErrorPrefix := "something wrong happened with the request to Grafana."

  /** The error the client returns; `err` is the text of the wrapped Go
      error, if any. */
  datatype RequestError = RequestError(message: string, statusCode: int, err: Option<string>) {
    /** `RequestError.Error()`: the fixed prefix, then the error, the message
        and the status code, each only when set. */
    function Error(): (s: string)
      ensures |s| >= |ErrorPrefix| && s[..|ErrorPrefix|] == ErrorPrefix
    {
      ErrorPrefix
      + (if err.Some? then " Error: " + err.value else "")
      + (if |message| > 0 then " Message: " + message else "")
      + (if statusCode > 0 then " StatusCode: " + FormatInt(statusCode) else "")
    }
  }

  /** What `%s` prints for a Go error: its text, or `%!s(<nil>)` for nil. */
  function ErrText(err: Option<string>): string {
    if err.Some? then err.value else "%!s(<nil>)"
  }

  /** The error `Error` builds when neither decoder understands the body. */
  function DecodeFailure(err: Option<string>, arrayError: string): string {
    "initial error : " + ErrText(err)
    + ". Something horrible append when the client tryed to decode the error message: " + arrayError
  }

  const SaveErrorPrefix := "unable to decode the response body. Error "

  datatype ErrorOutcome = NoError | Failed(e: RequestError) | Panicked

  datatype SaveOutcome = Saved | RequestFailed(e: RequestError) | DecodeFailed(text: string) | SavePanicked

  /** Whether an item of the array holds no non-empty `message`. */
  predicate Silent(item: map<string, JsonValue>) {
    "message" !in item || item["message"] == JString("")
  }

  /** The message scan over an array of objects: the first non-empty string
      `message`; `Some("")` when there is none; `None` when a non-string
      `message` comes first (the type assertion panics). */
  function ScanMessages(items: seq<map<string, JsonValue>>): Option<string>
    decreases |items|
  {
    if items == [] then Some("")
    else if "message" in items[0] then
      match items[0]["message"]
      case JNonString => None
      case JString(s) => if s != "" then Some(s) else ScanMessages(items[1..])
    else ScanMessages(items[1..])
  }

  /** The nested loops of `Response.Error` over an array of objects: each
      object's `message`, if present, is taken (asserting it is a string),
      and the scan stops at the first non-empty one. */
  method FindMessage(items: seq<map<string, JsonValue>>) returns (found: Option<string>)
    ensures found == ScanMessages(items)
  {
    var message := "";
    var i := 0;
    while i < |items|
      invariant 0 <= i <= |items|
      invariant message == ""
      invariant ScanMessages(items[i..]) == ScanMessages(items)
    {
      assert items[i..][1..] == items[i + 1..];
      if "message" in items[i] {
        match items[i]["message"] {
          case JNonString =>
            return None;
          case JString(s) =>
            message := s;
        }
      }
      if |message| > 0 {
        break;
      }
      i := i + 1;
    }
    return Some(message);
  }

  /** The message and the error `Error` records for a status outside
      200-206; `None` when the scan panics. */
  function MessageOf(body: Option<ErrorBody>, err: Option<string>): Option<(string, Option<string>)> {
    match body
    case None => Some(("", err))
    case Some(ObjectBody(m)) => Some((m, err))
    case Some(Undecodable(m, arrayError)) => Some((m, Some(DecodeFailure(err, arrayError))))
    case Some(MapsBody(items)) =>
      var scanned := ScanMessages(items);
      if scanned.Some? then Some((scanned.value, err)) else None
  }

  /** The final test of `Error`: an error is returned when anything is set. */
  function Finish(e: RequestError): ErrorOutcome {
    if e.err.Some? || e.statusCode > 0 || |e.message| > 0 then Failed(e) else NoError
  }

  /** The response fields `Error` and `SaveAsObj` read; `body` is `None`
      for Go's nil body. */
  datatype Response = Response(body: Option<ErrorBody>, err: Option<string>, statusCode: int) {

    /** What `Response.Error` returns. */
    function ErrorOf(): ErrorOutcome {
      if Accepted(statusCode) then Finish(RequestError("", 0, err))
      else
        var found := MessageOf(body, err);
        if found.None? then Panicked
        else Finish(RequestError(found.value.0, statusCode, found.value.1))
    }

    /** The body decoding of `Response.Error` for a status outside 200-206:
        the message it finds and the error it records. */
    method DecodeBody() returns (found: Option<(string, Option<string>)>)
      ensures found == MessageOf(body, err)
    {
      var message, e := "", err;
      if body.Some? {
        match body.value {
          case ObjectBody(m) =>
            message := m;
          case Undecodable(m, arrayError) =>
            message := m;
            e := Some(DecodeFailure(err, arrayError));
          case MapsBody(items) =>
            var scanned := FindMessage(items);
            if scanned.None? {
              return None;
            }
            message := scanned.value;
        }
      }
      return Some((message, e));
    }

    /** `Response.Error`: the status check, the two decodes and the scan
        over the array with its early exits. */
    method Error() returns (outcome: ErrorOutcome)
      ensures outcome == ErrorOf()
    {
      var e := RequestError("", 0, err);
      if statusCode < StatusOK || statusCode > StatusPartialContent {
        var found := DecodeBody();
        if found.None? {
          return Panicked;
        }
        e := RequestError(found.value.0, statusCode, found.value.1);
      }
      if e.err.Some? || e.statusCode > 0 || |e.message| > 0 {
        return Failed(e);
      }
      return NoError;
    }

    /** `Response.SaveAsObj`; `decodeError` is what decoding the body into
        the caller's object reports. */
    function SaveAsObj(decodeError: Option<string>): (outcome: SaveOutcome)
      ensures outcome == Saved ==> ErrorOf() == NoError
      ensures outcome.DecodeFailed? ==> ErrorOf() == NoError && body.Some? && decodeError.Some?
    {
      match ErrorOf()
      case Panicked => SavePanicked
      case Failed(e) => RequestFailed(e)
      case NoError =>
        if body.Some? && decodeError.Some? then DecodeFailed(SaveErrorPrefix + decodeError.value) else Saved
    }
  }

  // ---------------------------------------------------------------------
  // Properties

  /** Some item's `message` is `x` and every item before it is silent. */
  predicate MessageFirst(items: seq<map<string, JsonValue>>, x: JsonValue) {
    exists i :: && 0 <= i < |items| && "message" in items[i] && items[i]["message"] == x
                && forall j :: 0 <= j < i ==> Silent(items[j])
  }

  /** A silent first item changes nothing about which message comes first. */
  lemma MessageFirstShift(items: seq<map<string, JsonValue>>, x: JsonValue)
    requires |items| > 0 && Silent(items[0]) && x != JString("")
    ensures MessageFirst(items, x) <==> MessageFirst(items[1..], x)
  {
    if MessageFirst(items[1..], x) {
      var i :| && 0 <= i < |items[1..]| && "message" in items[1..][i] && items[1..][i]["message"] == x
               && forall j :: 0 <= j < i ==> Silent(items[1..][j]);
      assert forall j :: 0 <= j < i + 1 ==> Silent(items[j]) by {
        forall j | 0 <= j < i + 1 ensures Silent(items[j]) {
          if j > 0 { assert items[j] == items[1..][j - 1]; }
        }
      }
      assert items[i + 1] == items[1..][i];
    }
    if MessageFirst(items, x) {
      var i :| && 0 <= i < |items| && "message" in items[i] && items[i]["message"] == x
               && forall j :: 0 <= j < i ==> Silent(items[j]);
      assert i > 0;
      assert forall j :: 0 <= j < i - 1 ==> Silent(items[1..][j]) by {
        forall j | 0 <= j < i - 1 ensures Silent(items[1..][j]) {
          assert items[1..][j] == items[j + 1];
        }
      }
      assert items[1..][i - 1] == items[i];
    }
  }

  /** The scan returns the first non-empty string message; it returns the
      empty message exactly when no item has one, and it panics exactly when
      a non-string message comes before any non-empty one. */
  lemma {:induction false} ScanMessagesFirst(items: seq<map<string, JsonValue>>)
    ensures ScanMessages(items) == Some("") <==> forall i :: 0 <= i < |items| ==> Silent(items[i])
    ensures ScanMessages(items).Some? && ScanMessages(items).value != "" ==>
              MessageFirst(items, JString(ScanMessages(items).value))
    ensures ScanMessages(items).None? <==> MessageFirst(items, JNonString)
    decreases |items|
  {
    if items != [] {
      ScanMessagesFirst(items[1..]);
      if Silent(items[0]) {
        assert forall i :: 1 <= i < |items| ==> items[i] == items[1..][i - 1];
        assert ScanMessages(items) == ScanMessages(items[1..]);
        MessageFirstShift(items, JNonString);
        if ScanMessages(items).Some? && ScanMessages(items).value != "" {
          MessageFirstShift(items, JString(ScanMessages(items).value));
        }
      } else {
        assert !(forall i :: 0 <= i < |items| ==> Silent(items[i])) by {
          assert !Silent(items[0]);
        }
      }
    }
  }

  /** For a status in 200-206 nothing is decoded: the outcome is nil exactly
      when no error is stored, and otherwise carries just that error. */
  lemma ErrorAccepted(r: Response)
    requires Accepted(r.statusCode)
    ensures r.ErrorOf() == NoError <==> r.err.None?
    ensures r.err.Some? ==> r.ErrorOf() == Failed(RequestError("", 0, r.err))
  {
  }

  /** For any positive status outside 200-206 the outcome is an error
      carrying that status, unless the message scan panics; for a body the
      object decoder reads, the message is the object's `message`. */
  lemma ErrorRejected(r: Response)
    requires r.statusCode > 0 && !Accepted(r.statusCode)
    ensures r.ErrorOf() != NoError
    ensures r.ErrorOf().Failed? ==> r.ErrorOf().e.statusCode == r.statusCode
    ensures r.ErrorOf() == Panicked <==> r.body.Some? && r.body.value.MapsBody? && ScanMessages(r.body.value.items).None?
    ensures r.body.Some? && r.body.value.ObjectBody? ==> r.ErrorOf() == Failed(RequestError(r.body.value.message, r.statusCode, r.err))
    ensures r.body.Some? && r.body.value.MapsBody? && ScanMessages(r.body.value.items).Some? ==>
              r.ErrorOf() == Failed(RequestError(ScanMessages(r.body.value.items).value, r.statusCode, r.err))
  {
  }

  /** A stored error is never lost: the outcome is an error (or a panic)
      whose `Err` is the stored error, or, when neither decoder understands
      the body, the composed decode error that quotes it. */
  lemma ErrorKeepsStoredError(r: Response)
    requires r.err.Some?
    ensures r.ErrorOf() != NoError
    ensures r.ErrorOf().Failed? ==>
              r.ErrorOf().e.err == r.err || r.ErrorOf().e.err == Some(DecodeFailure(r.err, r.body.value.arrayError))
  {
  }

  /** When neither decoder understands the body of a rejected response, the
      outcome's `Err` is the composed decode error, whatever was stored, and
      its message is whatever the object decoder filled in before failing. */
  lemma ErrorUndecodable(r: Response)
    requires !Accepted(r.statusCode)
    requires r.body.Some? && r.body.value.Undecodable?
    ensures r.ErrorOf() ==
              Failed(RequestError(r.body.value.message, r.statusCode, Some(DecodeFailure(r.err, r.body.value.arrayError))))
  {
  }

  /** The formatted error is the bare prefix exactly when no field is set. */
  lemma ErrorTextBare(e: RequestError)
    ensures e.Error() == ErrorPrefix <==> e.err.None? && e.message == "" && e.statusCode <= 0
  {
    var s := e.Error();
    if e.err.Some? || e.message != "" || e.statusCode > 0 {
      assert |s| > |ErrorPrefix|;
    }
  }

  /** The parts after the prefix, in order: ` Error: ` and the wrapped
      error exactly when one is set, then ` Message: ` and the message
      exactly when it is not empty, then only the status part (or nothing). */
  lemma ErrorTextParts(e: RequestError)
    ensures
      var s := e.Error();
      var p := |ErrorPrefix|;
      var k := p + (if e.err.Some? then 8 + |e.err.value| else 0);
      var m := k + (if |e.message| > 0 then 10 + |e.message| else 0);
      && |s| >= m
      && (e.err.Some? ==> s[p..k] == " Error: " + e.err.value)
      && (|e.message| > 0 ==> s[k..m] == " Message: " + e.message)
      && (s[m..] == "" <==> e.statusCode <= 0)
      && (e.statusCode > 0 ==> |s| >= m + 13 && s[m..m + 13] == " StatusCode: ")
  {
    var errPart := if e.err.Some? then " Error: " + e.err.value else "";
    var msgPart := if |e.message| > 0 then " Message: " + e.message else "";
    var statusPart := if e.statusCode > 0 then " StatusCode: " + FormatInt(e.statusCode) else "";
    assert e.Error() == ErrorPrefix + errPart + msgPart + statusPart;
    ConcatParts(ErrorPrefix, errPart, msgPart, statusPart);
    if e.statusCode > 0 {
      assert statusPart[..13] == " StatusCode: ";
    }
  }

  /** Each part of a four-part concatenation is found at its offset. */
  lemma ConcatParts(a: string, b: string, c: string, d: string)
    ensures var s := a + b + c + d;
      && s[|a|..|a| + |b|] == b
      && s[|a| + |b|..|a| + |b| + |c|] == c
      && s[|a| + |b| + |c|..] == d
  {
    var s := a + b + c + d;
    assert s[|a|..|a| + |b|] == b by {
      assert forall i :: 0 <= i < |b| ==> s[|a| + i] == b[i];
    }
    assert s[|a| + |b|..|a| + |b| + |c|] == c by {
      assert forall i :: 0 <= i < |c| ==> s[|a| + |b| + i] == c[i];
    }
    assert s[|a| + |b| + |c|..] == d by {
      assert forall i :: 0 <= i < |d| ==> s[|a| + |b| + |c| + i] == d[i];
    }
  }

  /** A positive status code ends the formatted error, and reading the digits
      back gives the status. */
  lemma ErrorTextStatus(e: RequestError)
    requires e.statusCode > 0
    ensures
      var digits := FormatInt(e.statusCode);
      var s := e.Error();
      && |s| >= |digits| + 13
      && s[|s| - |digits| - 13..|s| - |digits|] == " StatusCode: "
      && ParseInt(s[|s| - |digits|..]) == Some(e.statusCode)
  {
    var digits := FormatInt(e.statusCode);
    var s := e.Error();
    var front := ErrorPrefix
      + (if e.err.Some? then " Error: " + e.err.value else "")
      + (if |e.message| > 0 then " Message: " + e.message else "");
    assert s == front + " StatusCode: " + digits;
    assert s[|s| - |digits|..] == digits;
    assert s[|s| - |digits| - 13..|s| - |digits|] == " StatusCode: ";
    ParseFormat(e.statusCode);
  }

  /** `SaveAsObj` succeeds exactly when `Error` is nil and the body, if any,
      decodes into the caller's object; for a real status (positive) that
      means a status in 200-206 and no stored error. */
  lemma SaveAsObjSucceeds(r: Response, decodeError: Option<string>)
    ensures r.SaveAsObj(decodeError) == Saved <==> r.ErrorOf() == NoError && (r.body.None? || decodeError.None?)
    ensures r.statusCode > 0 ==>
              (r.SaveAsObj(decodeError) == Saved <==>
                 Accepted(r.statusCode) && r.err.None? && (r.body.None? || decodeError.None?))
  {
    match r.ErrorOf()
    case NoError =>
      if r.statusCode > 0 && !Accepted(r.statusCode) {
        ErrorRejected(r);
      }
    case Failed(e) =>
      if Accepted(r.statusCode) {
        ErrorAccepted(r);
      }
    case Panicked =>
  }

  /** A decode failure is reported with the fixed prefix and the decoder's
      text, and only for a response `Error` accepts. */
  lemma SaveAsObjDecodeFailure(r: Response, decodeError: Option<string>)
    requires r.ErrorOf() == NoError && r.body.Some? && decodeError.Some?
    ensures r.SaveAsObj(decodeError) == DecodeFailed(SaveErrorPrefix + decodeError.value)
  {
  }
}
