/** The resource wrappers whose builder chains carry a wrong literal: the
    path parameter stored under a key the template does not name, or a
    sub-path set twice. Each is modelled as its chain of builder calls on a
    fresh request, ending in `Do`; what the server answers is the
    `delivery` parameter. */
module Endpoints {
  import opened Wrappers
  import opened Strconv
  import opened PathTemplate
  import opened HttpUrl
  import opened HttpResponse
  import opened HttpRequest
  import opened UrlValues

  /** The template `/:teamId` names `teamId`, which a map holding only the
      key `/:teamId` does not have. */
  lemma TeamIdUnresolved(v: string)
    ensures ResolveSubpath("/:teamId", Some(map["/:teamId" := v])) == Err(MissingParamMessage("teamId"))
  {
    ResolveSingle("teamId", "", map["/:teamId" := v]);
    assert "/:" + "teamId" + "" == "/:teamId";
  }

  /** The templates `/:d/orgs` and `/:d` name `d`, which a map holding only
      the key `id` does not have. */
  lemma UserDUnresolved(v: string)
    ensures ResolveSubpath("/:d/orgs", Some(map["id" := v])) == Err(MissingParamMessage("d"))
    ensures ResolveSubpath("/:d", Some(map["id" := v])) == Err(MissingParamMessage("d"))
  {
    ResolveSingle("d", "/orgs", map["id" := v]);
    assert "/:" + "d" + "/orgs" == "/:d/orgs";
    ResolveSingle("d", "", map["id" := v]);
    assert "/:" + "d" + "" == "/:d";
  }

  /** The template `/:orgId` with a value for `orgId` resolves to that
      value. */
  lemma OrgIdResolved(v: string)
    ensures ResolveSubpath("/:orgId", Some(map["orgId" := v])) == Ok("/" + v)
  {
    ResolveSingle("orgId", "", map["orgId" := v]);
    assert "/:" + "orgId" + "" == "/:orgId";
    assert "/" + v + "" == "/" + v;
  }

  /** `team.GetByID` (api/v1/team.go): the identifier is stored under
      `/:teamId`, so the sub-path never resolves and the request goes out
      with an empty URL. */
  method TeamGetByID(base: URL?, token: string, teamID: Int64, delivery: Delivery)
    returns (resp: Response, sent: Option<Prepared>)
    modifies base
    ensures sent.Some? && sent.value.httpMethod == "GET" && sent.value.url == ""
    ensures resp == ResponseOf(delivery)
    ensures base != null ==> unchanged(base)
  {
    var request := new Request("GET", base, "/api/teams", token);
    var r := request.SetSubPath("/:teamId");
    r := request.SetPathParam("/:teamId", FormatInt(teamID));
    TeamIdUnresolved(FormatInt(teamID));
    resp, sent := request.Do(delivery);
  }

  /** `users.GetOrgs` (api/v1/users.go): the template names `d` but the
      identifier is stored under `id`, so the request goes out with an
      empty URL. */
  method UsersGetOrgs(base: URL?, token: string, userID: Int64, delivery: Delivery)
    returns (resp: Response, sent: Option<Prepared>)
    modifies base
    ensures sent.Some? && sent.value.httpMethod == "GET" && sent.value.url == ""
    ensures resp == ResponseOf(delivery)
    ensures base != null ==> unchanged(base)
  {
    var request := new Request("GET", base, "/api/users", token);
    var r := request.SetSubPath("/:d/orgs");
    r := request.SetPathParam("id", FormatInt(userID));
    UserDUnresolved(FormatInt(userID));
    resp, sent := request.Do(delivery);
  }

  /** `users.Update` (api/v1/users.go): the same mismatch under `/:d`. A body
      that cannot be serialised stops the request before it is sent. */
  method UsersUpdate(base: URL?, token: string, userID: Int64, user: Result<seq<Byte>, string>, delivery: Delivery)
    returns (resp: Response, sent: Option<Prepared>)
    modifies base
    ensures user.Err? ==> sent.None? && resp == Response(None, Some(user.error), 0)
    ensures user.Ok? ==> && sent.Some? && sent.value.httpMethod == "PUT" && sent.value.url == ""
                         && sent.value.body == Some(user.value) && resp == ResponseOf(delivery)
    ensures base != null ==> unchanged(base)
  {
    var request := new Request("PUT", base, "/api/users", token);
    var r := request.SetSubPath("/:d");
    r := request.SetPathParam("id", FormatInt(userID));
    r := request.Body(user);
    UserDUnresolved(FormatInt(userID));
    resp, sent := request.Do(delivery);
  }

  /** `orgs.UpdateAddress` (api/orgs.go): the second `SetSubPath` replaces
      the first, so the request goes to `/api/orgs/<id>` and `/address` is
      lost. */
  method OrgsUpdateAddress(base: URL?, token: string, orgID: Int64, address: Result<seq<Byte>, string>, delivery: Delivery)
    returns (request: Request, resp: Response, sent: Option<Prepared>)
    modifies base
    ensures request.subpath == "/:orgId"
    ensures ResolveSubpath(request.subpath, request.pathParam) == Ok("/" + FormatInt(orgID))
    ensures base != null && address.Ok? ==> base.path == "/api/orgs/" + FormatInt(orgID)
    ensures address.Ok? ==> sent.Some? && sent.value.httpMethod == "PUT" && sent.value.body == Some(address.value)
    ensures address.Err? ==> sent.None? && resp == Response(None, Some(address.error), 0)
  {
    request := new Request("PUT", base, "/api/orgs", token);
    var r := request.SetSubPath("/address");
    r := request.SetSubPath("/:orgId");
    r := request.SetPathParam("orgId", FormatInt(orgID));
    r := request.Body(address);
    assert request.pathParam == Some(map["orgId" := FormatInt(orgID)]);
    OrgIdResolved(FormatInt(orgID));
    resp, sent := request.Do(delivery);
    OrgPath(FormatInt(orgID));
  }

  lemma OrgPath(v: string)
    ensures "/api/orgs" + ("/" + v) == "/api/orgs/" + v
  {
    assert ("/api/orgs" + ("/" + v))[..10] == "/api/orgs/";
  }
}
