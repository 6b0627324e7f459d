/** The request builder of `http/request.go`: a mutable `Request` that
    collects a sub-path, path parameters, query parameters, a body and a
    deferred error, resolves them into a URL written into the shared base
    URL, chooses the headers and hands the request to the transport. */
module HttpRequest {
  import opened Wrappers
  import opened UrlValues
  import opened PathTemplate
  import opened HttpUrl
  import opened HttpResponse
  import UrlQueryParse

  /** What `prepareRequest` hands to the HTTP client. */
  datatype Prepared = Prepared(httpMethod: string, url: string, header: map<string, string>, body: Option<seq<Byte>>)

  /** What the HTTP client reports for a prepared request. `cancelled` is
      the context's error when the context was done by then. */
  datatype Delivery =
    | TransportFailed(err: string, cancelled: Option<string>)
    | Delivered(statusCode: int, body: ErrorBody, readErr: Option<string>)

  /** The `Response` that `Do` builds from what the client reports. */
  function ResponseOf(delivery: Delivery): Response {
    match delivery
    case TransportFailed(e, cancelled) => Response(None, Some(cancelled.GetOr(e)), 0)
    case Delivered(status, body, readErr) => Response(Some(body), readErr, status)
  }

  /** The fields of a request that its builder methods change. */
  datatype Builder = Builder(
    subpath: string,
    queryParam: Option<Values>,
    pathParam: Option<map<string, string>>,
    body: Option<seq<Byte>>,
    err: Option<string>)

  /** Every key of the multimap, when there is one, holds a value. */
  ghost predicate NoEmptyLists(qp: Option<Values>) {
    qp.Some? ==> forall k :: k in qp.value ==> qp.value[k] != []
  }

  const JsonType := "application/json"

  class Request {
    const httpMethod: string
    const token: string
    const baseURL: URL?
    const pathPrefix: string
    var subpath: string
    var queryParam: Option<Values>
    var pathParam: Option<map<string, string>>
    var body: Option<seq<Byte>>
    var err: Option<string>

    function State(): Builder
      reads this
    {
      Builder(subpath, queryParam, pathParam, body, err)
    }

    /** Every query key holds at least one value: keys only appear through
        `AddQueryParam`, which gives them one. */
    ghost predicate Valid()
      reads this
    {
      NoEmptyLists(queryParam)
    }

    /** `NewRequest`: nothing set but the method, base URL, prefix and token. */
    constructor (httpMethod: string, baseURL: URL?, pathPrefix: string, token: string)
      ensures this.httpMethod == httpMethod && this.baseURL == baseURL
      ensures this.pathPrefix == pathPrefix && this.token == token
      ensures State() == Builder("", None, None, None, None)
      ensures Valid()
    {
      this.httpMethod := httpMethod;
      this.baseURL := baseURL;
      this.pathPrefix := pathPrefix;
      this.token := token;
      subpath := "";
      queryParam := None;
      pathParam := None;
      body := None;
      err := None;
    }

    /** Appends `value` to the values of `name`, creating the multimap when
        it is nil. */
    method AddQueryParam(name: string, value: string) returns (r: Request)
      modifies this
      ensures r == this
      ensures State() == old(State()).(queryParam := Some(Add(old(queryParam).GetOr(map[]), name, value)))
      ensures old(Valid()) ==> Valid()
    {
      if queryParam.None? {
        queryParam := Some(map[]);
      }
      queryParam := Some(Add(queryParam.value, name, value));
      r := this;
    }

    /** Sets the value of a path parameter, creating the map when it is nil;
        a later value replaces an earlier one. */
    method SetPathParam(name: string, value: string) returns (r: Request)
      modifies this
      ensures r == this
      ensures State() == old(State()).(pathParam := Some(old(pathParam).GetOr(map[])[name := value]))
      ensures Valid() == old(Valid())
    {
      if pathParam.None? {
        pathParam := Some(map[]);
      }
      pathParam := Some(pathParam.value[name := value]);
      r := this;
    }

    method SetSubPath(subPath: string) returns (r: Request)
      modifies this
      ensures r == this
      ensures State() == old(State()).(subpath := subPath)
      ensures Valid() == old(Valid())
    {
      subpath := subPath;
      r := this;
    }

    /** `Body`: `marshalled` is what JSON-encoding the object gives. Its
        bytes become the body; an encoding error is kept for `Do`. */
    method Body(marshalled: Result<seq<Byte>, string>) returns (r: Request)
      modifies this
      ensures r == this
      ensures marshalled.Ok? ==> State() == old(State()).(body := Some(marshalled.value))
      ensures marshalled.Err? ==> State() == old(State()).(err := Some(marshalled.error))
      ensures Valid() == old(Valid())
    {
      if marshalled.Err? {
        err := Some(marshalled.error);
      } else {
        body := Some(marshalled.value);
      }
      r := this;
    }

    /** `buildSubpath`: the scan for `/:name` placeholders and the
        replacement loop, which stops at the first name without a value. */
    method BuildSubpath() returns (path: string, error: Option<string>)
      ensures ResolveSubpath(subpath, pathParam) == if error.Some? then Err(error.value) else Ok(path)
      ensures error.Some? ==> path == ""
    {
      path := subpath;
      if |path| <= 0 {
        return "", None;
      }
      if !Matches(path) {
        return path, None;
      }
      if pathParam.None? {
        return "", Some(EmptyParamsMessage);
      }
      var params := pathParam.value;
      var names := Placeholders(path);
      var i := 0;
      while i < |names|
        invariant 0 <= i <= |names|
        invariant Substitute(path, names[i..], params) == Substitute(subpath, names, params)
      {
        assert names[i..][1..] == names[i + 1..];
        var name := names[i];
        if name !in params {
          return "", Some(MissingParamMessage(name));
        }
        path := ReplaceFirst(path, ":" + name, params[name]);
        i := i + 1;
      }
      assert names[i..] == [];
      error := None;
    }

    /** The query the URL carries: the encoded parameters when the multimap
        exists, otherwise whatever the shared base URL already holds. */
    function Query(): string
      reads this, baseURL
    {
      if queryParam.Some? then Encode(queryParam.value)
      else if baseURL != null then baseURL.rawQuery
      else ""
    }

    /** The string `url()` returns in the current state: empty when the
        sub-path does not resolve, otherwise the base URL's scheme and host,
        the prefix and resolved sub-path, and the query. */
    function Target(): string
      reads this, baseURL
    {
      var resolved := ResolveSubpath(subpath, pathParam);
      if resolved.Err? then ""
      else
        var scheme := if baseURL != null then baseURL.scheme else "";
        var host := if baseURL != null then baseURL.host else "";
        Render(scheme, host, pathPrefix + resolved.value, Query())
    }

    /** `url()`: writes the path, and the query when there is one, into the
        shared base URL (or a fresh one) and renders it. A sub-path that does
        not resolve yields the empty string and no error. */
    method Url() returns (s: string, error: Option<string>)
      modifies baseURL
      ensures s == old(Target()) && error.None?
      ensures ResolveSubpath(subpath, pathParam).Err? ==> s == "" && (baseURL != null ==> unchanged(baseURL))
      ensures ResolveSubpath(subpath, pathParam).Ok? && baseURL != null ==>
                && baseURL.path == pathPrefix + ResolveSubpath(subpath, pathParam).value
                && baseURL.rawQuery == old(Query())
                && baseURL.scheme == old(baseURL.scheme) && baseURL.host == old(baseURL.host)
    {
      var subPath, buildError := BuildSubpath();
      if buildError.Some? {
        return "", None;
      }
      var finalURL: URL;
      if baseURL != null {
        finalURL := baseURL;
      } else {
        finalURL := new URL("", "", "", "");
      }
      finalURL.path := pathPrefix + subPath;
      if queryParam.Some? {
        finalURL.rawQuery := Encode(queryParam.value);
      }
      s := finalURL.String();
      error := None;
    }

    /** `prepareRequest`: the URL, the body, and the headers: `Accept`
        always, `Content-Type` only with a body, and a bearer
        `Authorization` (section 2.1 of RFC 6750) only with a token. */
    method PrepareRequest() returns (p: Prepared)
      modifies baseURL
      ensures p.httpMethod == httpMethod && p.url == old(Target()) && p.body == body
      ensures "Accept" in p.header && p.header["Accept"] == JsonType
      ensures "Content-Type" in p.header <==> body.Some?
      ensures "Content-Type" in p.header ==> p.header["Content-Type"] == JsonType
      ensures "Authorization" in p.header <==> |token| > 0
      ensures "Authorization" in p.header ==> p.header["Authorization"] == "Bearer " + token
      ensures p.header.Keys <= {"Accept", "Content-Type", "Authorization"}
      ensures baseURL != null && ResolveSubpath(subpath, pathParam).Ok? ==>
                baseURL.path == pathPrefix + ResolveSubpath(subpath, pathParam).value && baseURL.rawQuery == old(Query())
      ensures baseURL != null && ResolveSubpath(subpath, pathParam).Err? ==> unchanged(baseURL)
    {
      var finalUrl, _ := Url();
      var header: map<string, string> := map[];
      if body.Some? {
        header := header["Content-Type" := JsonType];
      }
      header := header["Accept" := JsonType];
      if |token| > 0 {
        header := header["Authorization" := "Bearer " + token];
      }
      p := Prepared(httpMethod, finalUrl, header, body);
    }

    /** `Do`: a stored error is returned at once and nothing is sent;
        otherwise the prepared request goes to the client, whose report
        becomes the response. */
    method Do(delivery: Delivery) returns (resp: Response, sent: Option<Prepared>)
      modifies baseURL
      ensures err.Some? ==> resp == Response(None, err, 0) && sent.None?
      ensures err.Some? && baseURL != null ==> unchanged(baseURL)
      ensures err.None? ==> && sent.Some? && sent.value.httpMethod == httpMethod && sent.value.url == old(Target())
                            && sent.value.body == body && resp == ResponseOf(delivery)
      ensures err.None? && baseURL != null && ResolveSubpath(subpath, pathParam).Err? ==> unchanged(baseURL)
      ensures err.None? && baseURL != null && ResolveSubpath(subpath, pathParam).Ok? ==>
                baseURL.path == pathPrefix + ResolveSubpath(subpath, pathParam).value && baseURL.rawQuery == old(Query())
    {
      if err.Some? {
        return Response(None, err, 0), None;
      }
      var p := PrepareRequest();
      sent := Some(p);
      resp := ResponseOf(delivery);
    }
  }

  // ---------------------------------------------------------------------
  // Properties

  /** A request whose building failed surfaces exactly that error through
      `Response.Error`. */
  lemma StoredErrorSurfaces(err: string)
    ensures Response(None, Some(err), 0).ErrorOf() == Failed(RequestError("", 0, Some(err)))
  {
  }

  /** When the sub-path resolves and the request has query parameters, the
      query of the URL it targets decodes back to exactly those parameters
      (provided the base URL's scheme and host hold no `?`). */
  lemma TargetCarriesQuery(r: Request)
    requires r.Valid()
    requires r.queryParam.Some? && ResolveSubpath(r.subpath, r.pathParam).Ok?
    requires r.baseURL != null ==> UrlQueryParse.Lacks(r.baseURL.scheme, '?') && UrlQueryParse.Lacks(r.baseURL.host, '?')
    ensures UrlQueryParse.ParseQuery(UrlQueryParse.Cut(r.Target(), '?').1) == Some(r.queryParam.value)
  {
    var scheme := if r.baseURL != null then r.baseURL.scheme else "";
    var host := if r.baseURL != null then r.baseURL.host else "";
    RenderedValues(scheme, host, r.pathPrefix + ResolveSubpath(r.subpath, r.pathParam).value, r.queryParam.value);
  }

  /** The base URL is shared by every request of a client and `url()` only
      overwrites its query when the request has query parameters: a request
      without any sends the query of the request built before it. */
  method SharedBaseQuery(base: URL, firstPrefix: string, secondPrefix: string, key: string, value: string)
    returns (first: string, second: string)
    requires UrlQueryParse.Lacks(base.scheme, '?') && UrlQueryParse.Lacks(base.host, '?')
    modifies base
    ensures UrlQueryParse.Cut(first, '?').1 == Encode(map[key := [value]])
    ensures UrlQueryParse.Cut(second, '?').1 == Encode(map[key := [value]])
  {
    var query := Encode(map[key := [value]]);
    var r1 := new Request("GET", base, firstPrefix, "");
    r1 := r1.AddQueryParam(key, value);
    var empty: Values := map[];
    var added := Add(empty, key, value);
    assert added.Keys == {key} && added[key] == [value];
    assert added == map[key := [value]];
    assert ResolveSubpath(r1.subpath, r1.pathParam) == Ok("");
    assert r1.Query() == query;
    assert r1.Target() == Render(base.scheme, base.host, firstPrefix + "", query);
    var firstError;
    first, firstError := r1.Url();
    assert base.rawQuery == query;
    RenderedQuery(base.scheme, base.host, firstPrefix + "", query);
    var r2 := new Request("GET", base, secondPrefix, "");
    assert ResolveSubpath(r2.subpath, r2.pathParam) == Ok("");
    assert r2.Query() == query;
    assert r2.Target() == Render(base.scheme, base.host, secondPrefix + "", query);
    var secondError;
    second, secondError := r2.Url();
    RenderedQuery(base.scheme, base.host, secondPrefix + "", query);
  }
}
