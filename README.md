# grafana-go-client: request builder and query parameters

This project models the request core of the Go client for the Grafana HTTP
API, and proves properties about that model:

- **The request builder** (`http/request.go`) collects several pieces:
  - a sub-path that may hold `/:name` placeholders;
  - path parameters;
  - query parameters, a multimap of type `url.Values`;
  - a JSON body;
  - an error recorded along the way.

  `Do` then resolves these into a URL, which it writes into the base URL
  shared by every request of the client. It chooses the `Accept`,
  `Content-Type` and `Authorization` headers and hands the request to the
  transport. `Response.Error` turns a status outside 200–206 into a
  `RequestError`: the message comes from the error body, read as an object or
  as an array of objects. `SaveAsObj` decodes a successful body.
- **The query builders of `api/query.go`.** Each `GetValues` turns a query
  struct into a `url.Values`: a key is sent only when its field is set. There
  are seven of them: annotation, alert, users, teams, orgs, playlist and
  search.
- **The mutable query structs of `api/v1/query.go`.** Fluent setters assign a
  field and return the receiver; `Add*` appends to a slice field.
- **The `setQueryParam*` helpers.** The v1 annotation, search, team, users
  and playlist helpers and `setQueryParamOrgs` of `api/orgs.go` copy a query
  struct onto a request through `AddQueryParam`.
- **The resource wrappers whose builder chains misuse the request API.**
  These are `team.GetByID`, `users.GetOrgs`, `users.Update` and
  `orgs.UpdateAddress`.

The standard-library pieces this code relies on are written out concretely:

- `url.Values.Encode`: keys sorted, and `QueryEscape` over UTF-8 bytes;
- the `/:name` regular expression and `strings.Replace`;
- `URL.String()` for a scheme, host, path and query;
- `strconv.FormatInt`.

The parser of a query string (`ParseQuery`, `QueryUnescape`, UTF-8
decoding) is the reference that proves `Encode` loses nothing.

The defects of the source are modelled as written, and stated as proved
properties of the model:

- the v1 annotation helper sends `from`'s value under `to`;
- the v1 users helper sends `page`'s value under `perpage`;
- `team.GetByID` stores its identifier under the key `/:teamId`;
- `users.GetOrgs` and `users.Update` fill `id` while the template names `d`;
- `orgs.UpdateAddress` sets the sub-path twice.

Modules:

| file | module | what |
|---|---|---|
| wrappers.dfy | Wrappers | `Option`, `Result` |
| strconv.dfy | Strconv | base-10 formatting and its parser |
| urlvalues.dfy | UrlValues | `url.Values`, `Add`, the builder steps, `QueryEscape`, `Encode` |
| queryparse.dfy | UrlQueryParse | `QueryUnescape`, UTF-8 decoding, `ParseQuery` |
| pathtemplate.dfy | PathTemplate | placeholder scan and substitution of `buildSubpath` |
| url.dfy | HttpUrl | the base URL object and `String()` |
| response.dfy | HttpResponse | `Response.Error`, `SaveAsObj`, `RequestError.Error` |
| request.dfy | HttpRequest | the `Request` class |
| query.dfy | ApiQuery | the `api/query.go` structs and `GetValues` |
| v1query.dfy | V1Query | the `api/v1/query.go` classes |
| v1params.dfy | V1Params | the `setQueryParam*` helpers |
| endpoints.dfy | Endpoints | the wrappers with a wrong literal |

### How the query builders are specified

A query builder is a sequence of `Step`s. A `Step(present, key, vs)` means:
"when `present`, append `vs` to `key`". `Build` performs the steps in order.

- Each `GetValues` method has the loop-free or looping code of the source,
  and is proved equal to `Build` of its struct's `Steps()`.
- The lemmas then state what the result is, key by key: the key is present
  exactly when its field is set, it holds exactly the field's values, and no
  other key appears.
- The `setQueryParam*` helpers go through `AddQueryParam`. A loop over an
  empty slice makes no call, so the helpers are specified by `SendAll`. It
  skips steps with no values and leaves a nil multimap nil. The lemmas
  compare them with `GetValues`.

## Model

| member | source | states |
|---|---|---|
| Strconv.FormatInt | api/query.go:49-51 | the base-10 text of an integer: digits only, a leading `-` for a negative number |
| Strconv.ParseFormat | api/query.go:49-51 | parsing the formatted text gives the number back, so `FormatInt` loses nothing |
| Strconv.FormatInjective | api/query.go:49-51 | two numbers with the same text are equal |
| Strconv.FormatAll | api/query.go:286-290 | one text per id, in order, each that id's `FormatInt` |
| Strconv.FormatBool | api/query.go:300 | `"true"` exactly for true, `"false"` otherwise |
| UrlValues.Add | http/request.go:57-63 | the value goes at the end of the key's list; the key set gains the key and nothing else |
| UrlValues.Extend | api/query.go:279-282 | the values go at the end of the key's list, in order; the key exists afterwards even for an empty list |
| UrlValues.BuildKeys | api/query.go:46-86 | a key is in the built multimap exactly when some performed step names it |
| UrlValues.BuildEntry | api/query.go:46-86 | with distinct keys, each step's key is present exactly when the step is performed, and then holds exactly its values |
| UrlValues.BuildGet | api/query.go:46-86 | the list of any key is its old list followed by what the steps contributed to it, in order |
| UrlValues.BuildNothing | api/query.go:46-86 | when no step is performed, the result is the empty multimap |
| UrlValues.BuildReplace | api/query.go:46-86 | replacing one step of a distinct-keyed builder changes only that key's entry |
| UrlValues.AddAllAppends | http/request.go:57-63 | adding pairs one by one: the keys are the old keys plus the pairs' keys, and each key's list gains its pairs' values in order |
| UrlValues.AddAllConcat | http/request.go:57-63 | adding two runs of pairs is adding the first run, then the second |
| UrlValues.EscapeByte | http/request.go:183-185 | one escaped byte is one to three characters |
| UrlValues.QueryEscapeChars | http/request.go:183-185 | an escaped component uses only unreserved characters, `+` and `%`, so it holds no `&`, `=` or `?` |
| UrlValues.SortedKeys | http/request.go:183-185 | the keys are listed once each, in strictly increasing byte order |
| UrlValues.LessTotal | http/request.go:183-185 | the key order is total, so the encoded order is determined |
| UrlValues.LessTransitive | http/request.go:183-185 | the key order is transitive |
| UrlValues.PairsKeyOrder | http/request.go:183-185 | the encoded pairs come key by key in sorted order |
| UrlValues.ValuesOfPairs | http/request.go:183-185 | the encoded pairs of a key are exactly its list, in order |
| UrlValues.KeysOfPairs | http/request.go:183-185 | a key appears among the encoded pairs exactly when its list is not empty |
| UrlValues.RegroupPairs | http/request.go:183-185 | regrouping the encoded pairs gives the multimap back when no list is empty |
| UrlQueryParse.DecodeEncodeUtf8 | http/request.go:183-185 | UTF-8 decoding undoes UTF-8 encoding |
| UrlQueryParse.UnescapeEscapeBytes | http/request.go:183-185 | unescaping undoes the percent-escaping of any byte sequence |
| UrlQueryParse.QueryUnescapeEscape | http/request.go:183-185 | `QueryUnescape(QueryEscape(s))` is `s` for every string |
| UrlQueryParse.SplitJoin | http/request.go:183-185 | splitting at `&` undoes joining parts that hold no `&` |
| UrlQueryParse.ParseEscapedPair | http/request.go:183-185 | one escaped `key=value` piece parses back into its pair |
| UrlQueryParse.ParseEscapedPairs | http/request.go:183-185 | the escaped pieces parse back into the pairs, in order |
| UrlQueryParse.ParseEncode | http/request.go:183-185 | parsing the encoded query gives the multimap back when no key has an empty list |
| PathTemplate.LetterRun | http/request.go:197 | the captured name is the longest run of letters: a prefix made of letters, followed by a non-letter or the end |
| PathTemplate.PlaceholdersIffMatches | http/request.go:197-201 | the scan finds a placeholder exactly when the expression matches, i.e. when `/:` occurs |
| PathTemplate.ReplaceFirstAbsent | http/request.go:216 | replacing a pattern that does not occur leaves the text unchanged |
| PathTemplate.ReplaceFirstLeftmost | http/request.go:216 | only the leftmost occurrence is replaced |
| PathTemplate.SubstituteFailsIff | http/request.go:208-219 | substitution fails exactly when a name has no value, and the error names the first such name |
| PathTemplate.ResolveSubpath | http/request.go:190-206 | an empty sub-path resolves to `""`; one without a placeholder to itself; one with a placeholder and nil parameters to the empty-parameters error |
| PathTemplate.ResolveFailsIff | http/request.go:190-221 | resolution fails exactly when there is a placeholder and either no parameters or a name without a value |
| PathTemplate.TemplatePlaceholders | http/request.go:197-210 | in a well-formed template the scan finds exactly the segment names, in order |
| PathTemplate.ResolveSingle | http/request.go:190-221 | a single placeholder becomes `/` and its value, or the missing-parameter error naming it |
| PathTemplate.ResolveTemplate | http/request.go:190-221 | for a well-formed template (no colon outside the placeholders, each name a maximal run of letters) and parameter values holding no colon: with every name bound, each `/:name` becomes `/` and its value; otherwise the error names the first unbound name. A value holding `:name` can be hit by a later replacement, so the conditions are needed |
| HttpUrl.URL.constructor | http/request.go:177-180 | the URL holds the scheme, host, path and raw query it is given |
| HttpUrl.EscapePathCharsPlain | http/request.go:181 | a path of plain path characters is written as it is |
| HttpUrl.RenderedQuery | http/request.go:183-187 | the text after the first `?` of the written URL is exactly the raw query |
| HttpUrl.RenderedPrefix | http/request.go:181-187 | with a scheme, a host and a plain absolute path, the URL is `scheme://host` + path, then `?` and the query when there is one |
| HttpUrl.RenderedValues | http/request.go:183-187 | the query of the written URL parses back into the multimap |
| HttpResponse.RequestError.Error | http/request.go:234-249 | the text always starts with the fixed prefix |
| HttpResponse.ErrorTextParts | http/request.go:234-249 | after the prefix come ` Error: ` and the wrapped error exactly when one is set, then ` Message: ` and the message exactly when it is not empty, then ` StatusCode: ` exactly when the status is positive, and nothing else |
| HttpResponse.ErrorTextBare | http/request.go:234-249 | the text is the bare prefix exactly when no error, no message and no positive status is set |
| HttpResponse.ErrorTextStatus | http/request.go:245-247 | a positive status ends the text as ` StatusCode: ` and digits that parse back to the status |
| HttpResponse.FindMessage | http/request.go:274-285 | the loop returns the scan's result: the first non-empty string message, or a panic on a non-string message |
| HttpResponse.ScanMessagesFirst | http/request.go:274-285 | `""` exactly when every item is silent; a non-empty result is the first non-silent message; a panic exactly when a non-string message comes first |
| HttpResponse.Response.DecodeBody | http/request.go:262-290 | the message and error found in the body: the object's message, the array's first message, or, when both decodes fail, the message the object decoder filled in before failing and the double-decode error text |
| HttpResponse.Response.Error | http/request.go:257-299 | returns what `ErrorOf` says the source returns |
| HttpResponse.ErrorAccepted | http/request.go:258-298 | with a status in 200–206, there is an error exactly when a stored error exists, and it carries only that error |
| HttpResponse.ErrorRejected | http/request.go:260-298 | a positive status outside 200–206 is always an error carrying that status; it panics exactly on a non-string array message; the message comes from the object or the array scan |
| HttpResponse.ErrorKeepsStoredError | http/request.go:258-271 | a stored error is never lost: it is either kept or wrapped in the double-decode error |
| HttpResponse.ErrorUndecodable | http/request.go:266-289 | an undecodable body gives the message the object decoder filled in before failing (kept by the assignment after the decodes), the status, and the double-decode error text |
| HttpResponse.Response.SaveAsObj | http/request.go:301-315 | it saves only when `Error` reports nothing; a decode failure needs a body and a failing decode |
| HttpResponse.SaveAsObjSucceeds | http/request.go:301-315 | it saves exactly when `Error` reports nothing and there is no body or the body decodes; for a positive status, exactly when the status is in 200–206, no error is stored and the body decodes |
| HttpResponse.SaveAsObjDecodeFailure | http/request.go:308-311 | a failing decode of an accepted body gives the decode error behind the fixed prefix |
| HttpRequest.StoredErrorSurfaces | http/request.go:95-97 | the response of a request with a stored error reports exactly that error |
| HttpRequest.Request.constructor | http/request.go:47-55 | a new request has its method, base URL, prefix and token, and nothing else set |
| HttpRequest.Request.AddQueryParam | http/request.go:57-63 | creates the multimap when nil, then appends the value to its key; nothing else changes; no key is left with an empty list |
| HttpRequest.Request.SetPathParam | http/request.go:65-71 | creates the map when nil, then sets or overwrites the name's value; nothing else changes |
| HttpRequest.Request.SetSubPath | http/request.go:73-76 | replaces the sub-path; nothing else changes |
| HttpRequest.Request.Body | http/request.go:83-92 | a serialised body is stored, or the serialisation error is recorded; nothing else changes |
| HttpRequest.Request.BuildSubpath | http/request.go:190-221 | returns the resolved sub-path or the resolution error, and an empty path with an error |
| HttpRequest.Request.Url | http/request.go:170-188 | a failed resolution gives `""` and no error, leaving the base URL alone; otherwise the base URL's path becomes prefix + sub-path and its query the encoded multimap, when there is one |
| HttpRequest.TargetCarriesQuery | http/request.go:170-188 | the query of the target URL parses back into exactly the request's query parameters |
| HttpRequest.SharedBaseQuery | http/request.go:170-188 | a request with no query reuses the query a previous request wrote into the shared base URL |
| HttpRequest.Request.PrepareRequest | http/request.go:138-168 | `Accept` is always JSON; `Content-Type` is JSON exactly when there is a body; `Authorization` is `Bearer` + token exactly when the token is not empty; no other header |
| HttpRequest.Request.Do | http/request.go:94-136 | a stored error is returned without sending anything; otherwise the prepared request is sent and the response built from what the transport reports |
| ApiQuery.QueryParamAnnotation.GetValues | api/query.go:46-86 | the multimap its steps build |
| ApiQuery.AnnotationKeysDistinct | api/query.go:46-86 | no two annotation steps share a key |
| ApiQuery.AnnotationEntries | api/query.go:46-86 | each key is present exactly when its field is set, and then holds that field's value; `tags` holds the tags in order |
| ApiQuery.AnnotationKeySet | api/query.go:46-86 | no other key appears; the multimap is empty exactly when no field is set |
| ApiQuery.QueryParamAlert.GetValues | api/query.go:108-149 | the multimap its steps build, with the id loops appending each formatted id |
| ApiQuery.AlertEntries | api/query.go:108-149 | each key is present exactly when its field is set, with the field's value or the slice's elements in order |
| ApiQuery.AlertKeySet | api/query.go:108-149 | no other key appears; the multimap is empty exactly when no field is set |
| ApiQuery.QueryParameterUsers.GetValues | api/query.go:161-177 | the multimap its steps build |
| ApiQuery.UsersEntries | api/query.go:161-177 | `page`, `perpage` and `query` each appear exactly when set, with their own values; nothing else |
| ApiQuery.QueryParameterTeams.GetValues | api/query.go:191-211 | the multimap its steps build |
| ApiQuery.TeamsEntries | api/query.go:191-211 | `perpage`, `name`, `query` and `page` each appear exactly when set, with their own values; nothing else |
| ApiQuery.QueryParameterOrgs.GetValues | api/query.go:219-231 | the multimap its steps build |
| ApiQuery.OrgsEntries | api/query.go:219-231 | `query` and `name` each appear exactly when not empty; nothing else |
| ApiQuery.QueryParameterPlaylist.GetValues | api/query.go:241-253 | the multimap its steps build |
| ApiQuery.PlaylistEntries | api/query.go:241-253 | `query` and `limit` each appear exactly when set; nothing else |
| ApiQuery.QueryParameterSearch.GetValues | api/query.go:273-311 | the multimap its steps build |
| ApiQuery.SearchEntries | api/query.go:273-311 | `starred` is always sent; `tag` exactly when the tags are non-nil (even an empty list); the other keys exactly when set |
| ApiQuery.SearchKeySet | api/query.go:273-311 | no other key appears; an empty query sends only `starred=false` |
| V1Query.QueryParamAnnotation.constructor | api/v1/query.go:20-37 | a new struct has every field at its zero value |
| V1Query.QueryParamAnnotation.From | api/v1/query.go:39-42 | sets `from` only and returns the receiver |
| V1Query.QueryParamAnnotation.To | api/v1/query.go:44-47 | sets `to` only and returns the receiver |
| V1Query.QueryParamAnnotation.AlertID | api/v1/query.go:49-52 | sets `alertId` only and returns the receiver |
| V1Query.QueryParamAnnotation.UserID | api/v1/query.go:54-57 | sets `userId` only and returns the receiver |
| V1Query.QueryParamAnnotation.DashboardID | api/v1/query.go:59-62 | sets `dashboardId` only and returns the receiver |
| V1Query.QueryParamAnnotation.PanelID | api/v1/query.go:64-67 | sets `panelId` only and returns the receiver |
| V1Query.QueryParamAnnotation.AddTag | api/v1/query.go:69-72 | appends the tag after the existing ones; nothing else changes |
| V1Query.QueryParamAnnotation.Type | api/v1/query.go:74-77 | sets the type only and returns the receiver |
| V1Query.QueryParamAnnotation.Limit | api/v1/query.go:79-82 | sets `limit` only and returns the receiver |
| V1Query.FromTwice | api/v1/query.go:39-42 | setting twice keeps the second value; setting the same value twice is setting it once |
| V1Query.TagChain | api/v1/query.go:69-72 | chained `AddTag` calls keep call order and leave the other fields alone |
| V1Query.QueryParamAlert.constructor | api/v1/query.go:84-101 | a new struct has every field at its zero value |
| V1Query.QueryParamAlert.Query | api/v1/query.go:103-106 | sets the query only and returns the receiver |
| V1Query.QueryParamAlert.PanelID | api/v1/query.go:108-111 | sets `panelId` only and returns the receiver |
| V1Query.QueryParamAlert.Limit | api/v1/query.go:113-116 | sets `limit` only and returns the receiver |
| V1Query.QueryParamAlert.AddAlertState | api/v1/query.go:118-121 | appends the state; nothing else changes |
| V1Query.QueryParamAlert.AddDashboardTag | api/v1/query.go:123-126 | appends the tag; nothing else changes |
| V1Query.QueryParamAlert.AddDashboardID | api/v1/query.go:128-131 | appends the id; nothing else changes |
| V1Query.QueryParamAlert.AddFolderID | api/v1/query.go:133-136 | appends the id; nothing else changes |
| V1Query.QueryParameterUsers.constructor | api/v1/query.go:140-145 | a new struct has every field at its zero value |
| V1Query.QueryParameterUsers.Query | api/v1/query.go:147-150 | sets the query only and returns the receiver |
| V1Query.QueryParameterUsers.PerPage | api/v1/query.go:152-155 | sets `perPage` only and returns the receiver |
| V1Query.QueryParameterUsers.Page | api/v1/query.go:157-160 | sets `page` only and returns the receiver |
| V1Query.QueryParameterTeams.constructor | api/v1/query.go:162-167 | a new struct has every field at its zero value |
| V1Query.QueryParameterTeams.Query | api/v1/query.go:169-172 | sets the query only and returns the receiver |
| V1Query.QueryParameterTeams.Name | api/v1/query.go:174-177 | sets the name only and returns the receiver |
| V1Query.QueryParameterTeams.PerPage | api/v1/query.go:179-182 | sets `perPage` only and returns the receiver |
| V1Query.QueryParameterTeams.Page | api/v1/query.go:184-187 | sets `page` only and returns the receiver |
| V1Params.SendAllBuild | http/request.go:57-63 | a run of `AddQueryParam` calls builds what `Build` builds from the steps that carry values |
| V1Params.SendAllCreates | http/request.go:57-63 | the multimap exists afterwards exactly when it existed before or some call was made |
| V1Params.SendAllKeeps | http/request.go:57-63 | every key keeps its old values and gains what the steps contributed, in order |
| V1Params.StepAppends | http/request.go:57-63 | with distinct keys, each step's key gains exactly that step's values, after its old values |
| V1Params.SentEntry | http/request.go:57-63 | on a fresh request, a step's key is present exactly when the step makes a call, and then holds exactly its values |
| V1Params.SentAsBuilt | http/request.go:57-63 | when every performed step carries a value, a fresh request gets what `GetValues` builds |
| V1Params.SendAllNonEmpty | http/request.go:57-63 | calls through `AddQueryParam` never leave a key with an empty list |
| V1Params.SetQueryParamAnnotation | api/v1/annotation.go:103-142 | the request's query becomes the old one plus the helper's calls, `to` carrying `from`'s value; nothing else changes |
| V1Params.AnnotationSent | api/v1/annotation.go:103-142 | on a fresh request each key is present exactly when its field is set; `to` holds `from`'s value; no other key |
| V1Params.AnnotationAgainstApi | api/v1/annotation.go:108-110 | against `GetValues`, only `to` differs, and the two agree exactly when `to` is not set or equals `from` |
| V1Params.SetQueryParamSearch | api/v1/search.go:52-89 | the request's query becomes the old one plus the search steps' calls; nothing else changes |
| V1Params.SearchStarredOnce | api/v1/search.go:52-89 | `starred` gains exactly one value, after any already there |
| V1Params.SearchTagsAppend | api/v1/search.go:57-61 | `tag` gains the tags in order |
| V1Params.SearchIdsAppend | api/v1/search.go:67-77 | `dashboardIds` and `folderIds` gain the formatted ids in order |
| V1Params.SearchAgainstApi | api/v1/search.go:52-89 | on a fresh request it matches `GetValues`, except that an empty non-nil tag list sends no `tag` key, where `GetValues` sends an empty one |
| V1Params.SetQueryParamTeam | api/v1/team.go:127-143 | the request's query becomes the old one plus the team steps' calls; nothing else changes |
| V1Params.TeamSent | api/v1/team.go:127-143 | on a fresh request it equals `GetValues`, each key present exactly when set, with its own value |
| V1Params.SetQueryParamUsers | api/v1/users.go:118-130 | the request's query becomes the old one plus the helper's calls, `perpage` carrying `page`'s value; nothing else changes |
| V1Params.UsersSent | api/v1/users.go:118-130 | on a fresh request `perpage` is present exactly when perPage is set, and holds page's value |
| V1Params.UsersAgainstApi | api/v1/users.go:118-130 | against `GetValues`, only `perpage` differs, and the two agree exactly when it is not sent or page equals perPage |
| V1Params.SetQueryParamPlaylist | api/v1/playlists.go:121-130 | the request's query becomes the old one plus the playlist steps' calls; nothing else changes |
| V1Params.PlaylistAppends | api/v1/playlists.go:121-130 | every key keeps its values; `query` and `limit` gain one value each when set; nothing else gains anything |
| V1Params.SetQueryParamOrgs | api/orgs.go:197-206 | the request's query becomes the old one plus the orgs steps' calls; nothing else changes |
| V1Params.OrgsAppends | api/orgs.go:197-206 | every key keeps its values; `query` and `name` gain their text when not empty; nothing else gains anything |
| Endpoints.TeamIdUnresolved | api/v1/team.go:58-66 | the template `/:teamId` does not resolve with a map keyed `/:teamId` |
| Endpoints.TeamGetByID | api/v1/team.go:58-66 | the request is sent with an empty URL |
| Endpoints.UserDUnresolved | api/v1/users.go:90-107 | the templates `/:d/orgs` and `/:d` do not resolve with a map keyed `id` |
| Endpoints.UsersGetOrgs | api/v1/users.go:90-98 | the request is sent with an empty URL |
| Endpoints.UsersUpdate | api/v1/users.go:100-107 | a body that cannot be serialised stops the request; otherwise it is sent with an empty URL and the body |
| Endpoints.OrgIdResolved | api/orgs.go:124-132 | the template `/:orgId` resolves to `/` and the id |
| Endpoints.OrgsUpdateAddress | api/orgs.go:124-132 | the second `SetSubPath` wins, so the request goes to `/api/orgs/<id>` and `/address` is lost |

## Left out

- **Network and context.** Dispatch through `http.Client`, context
  cancellation, `ioutil.ReadAll` and closing the body are not modelled. What
  the transport reports is the `Delivery` parameter of `Do`.
- **JSON.** Encoding and decoding are not modelled:
  - a body is a serialised byte string, or the serialisation error;
  - an error body is the `ErrorBody` the decoders make of it, including the
    message a failing object decode has already filled in;
  - `SaveAsObj`'s decode is the `decodeError` parameter.
- **`http.NewRequest` failures** (an invalid method or URL) are not modelled.
  A prepared request is always built.
- **A nil response body after a delivered response** is not modelled. The
  transport's body is always present when a response arrives, which matches
  what `ReadAll` returns.
- **The rest of `url.URL`.** Only the scheme, host, path and raw query are
  modelled. Other fields, and host escaping, are not.
- **Invalid UTF-8.** Go strings are byte strings and may hold invalid
  UTF-8. The model's strings are sequences of Unicode characters, which
  `QueryEscape` and the path escaping turn into UTF-8. Escaping and key
  sorting of strings that are not valid UTF-8 are therefore not modelled.
- **`ParseQuery` errors.** The reference parser returns `None` for any
  malformed piece instead of collecting the errors. It is only used as the
  inverse of `Encode`.
- **Map iteration order.** The message scan in `Response.Error` treats each
  array item by its single `message` entry. The order in which Go visits the
  other keys does not change the outcome, so the model does not represent it.
- **The panic.** A non-string `message` panics through the type assertion.
  It is the `Panicked` outcome.
- **`setQueryParamOrgs` field names.** The function reads lower-case fields
  `query` and `name`, which `QueryParameterOrgs` in `api/query.go` does not
  declare. The model uses the exported fields.
- **The v1 search and playlist structs.** The v1 `QueryParameterSearch` and
  `QueryParameterPlaylist` declarations are not part of this model. The
  helpers take the `ApiQuery` datatypes, which have the fields they read.
- **nil versus empty slices.** These are not distinguished, except for
  search's tags, where `GetValues` tests for nil. That case is an `Option`.
- ApiQuery.QueryParamAlert.GetValues: the loops that format ids one by one
  are modelled as formatting the list first, then appending it. The result
  is the same list.
- V1Params.SetQueryParamSearch: the loops that format ids one by one are
  modelled as formatting the list first, then appending it. The result is
  the same list.
- **Integer width.** `int64` fields are the 64-bit range `Int64`. The code
  only compares them with zero and formats them, so no arithmetic can wrap
  around. Go's `int` (the status code, search's `limit`) is treated the same
  way.
- **Other wrapper methods.** The remaining resource-wrapper methods, the
  client factories and the types packages are not part of this model. Their
  bodies only chain the modelled builder calls.
- **`Request.Context`** only stores the context for the transport, which is
  not modelled.
