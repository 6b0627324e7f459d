/** The `setQueryParam*` helpers of the v1 wrappers (and of `api/orgs.go`).
    Each one adds the set fields of a query struct to a request through
    repeated `AddQueryParam` calls, so it only ever appends to the request's
    query multimap, creating the multimap on the first call.

    A helper is a run of guarded calls. A guarded single call, or a guarded
    loop of calls, is performed by `AddWhen`, `AddEach` or
    `AddEachFormatted`, which record the step they performed as a ghost
    `Step`; each helper is then proved to send exactly its list of steps,
    and the facts about one key are proved once for every list of steps. */
module V1Params {
  import opened Wrappers
  import opened Strconv
  import opened UrlValues
  import opened HttpRequest
  import ApiQuery
  import V1Query

  // ---------------------------------------------------------------------
  // What a run of `AddQueryParam` calls does to the query multimap

  /** One `AddQueryParam(key, v)` call per value of `vs` when `present`: with
      no value to add nothing happens, not even the creation of a nil
      multimap. */
  function Send(qp: Option<Values>, s: Step): Option<Values> {
    if s.present && s.vs != [] then Some(Extend(qp.GetOr(map[]), s.key, s.vs)) else qp
  }

  function SendAll(qp: Option<Values>, steps: seq<Step>): Option<Values>
    decreases |steps|
  {
    if steps == [] then qp else Send(SendAll(qp, steps[..|steps| - 1]), steps[|steps| - 1])
  }

  /** A step as the calls perform it: one without values does nothing. */
  function Effective(s: Step): Step {
    s.(present := s.present && s.vs != [])
  }

  function EffectiveAll(steps: seq<Step>): (r: seq<Step>)
    ensures |r| == |steps|
    ensures forall i :: 0 <= i < |steps| ==> r[i] == Effective(steps[i])
  {
    seq(|steps|, i requires 0 <= i < |steps| => Effective(steps[i]))
  }

  /** The calls build what a map-based builder would build from the
      effective steps. */
  lemma {:induction false} SendAllBuild(qp: Option<Values>, steps: seq<Step>)
    ensures SendAll(qp, steps).GetOr(map[]) == Build(qp.GetOr(map[]), EffectiveAll(steps))
    decreases |steps|
  {
    if steps != [] {
      var n := |steps| - 1;
      SendAllBuild(qp, steps[..n]);
      assert EffectiveAll(steps)[..n] == EffectiveAll(steps[..n]);
    }
  }

  /** The multimap exists afterwards exactly when it existed before or some
      call was made: a nil multimap stays nil when every guard is off. */
  lemma {:induction false} SendAllCreates(qp: Option<Values>, steps: seq<Step>)
    ensures SendAll(qp, steps).Some? <==>
              qp.Some? || exists i :: 0 <= i < |steps| && steps[i].present && steps[i].vs != []
    decreases |steps|
  {
    if steps != [] {
      var n := |steps| - 1;
      SendAllCreates(qp, steps[..n]);
      if exists i :: 0 <= i < |steps| && steps[i].present && steps[i].vs != [] {
        var i :| 0 <= i < |steps| && steps[i].present && steps[i].vs != [];
        if i < n {
          assert steps[..n][i] == steps[i];
        }
      }
      if exists i :: 0 <= i < n && steps[..n][i].present && steps[..n][i].vs != [] {
        var i :| 0 <= i < n && steps[..n][i].present && steps[..n][i].vs != [];
        assert steps[i] == steps[..n][i];
      }
    }
  }

  lemma {:induction false} ContributedEffective(steps: seq<Step>, k: string)
    ensures Contributed(EffectiveAll(steps), k) == Contributed(steps, k)
    decreases |steps|
  {
    if steps != [] {
      var n := |steps| - 1;
      assert EffectiveAll(steps)[..n] == EffectiveAll(steps[..n]);
      ContributedEffective(steps[..n], k);
    }
  }

  /** The calls never remove or reorder a value: each key keeps the list it
      had and gains, at its end, the values the steps carry for it. */
  lemma SendAllKeeps(qp: Option<Values>, steps: seq<Step>, k: string)
    ensures Get(SendAll(qp, steps).GetOr(map[]), k) == Get(qp.GetOr(map[]), k) + Contributed(steps, k)
  {
    SendAllBuild(qp, steps);
    BuildGet(qp.GetOr(map[]), EffectiveAll(steps), k);
    ContributedEffective(steps, k);
  }

  /** When no two steps share a key, a step contributes exactly its own
      values to its key, and only when present. */
  lemma ContributedDistinct(steps: seq<Step>, i: nat)
    requires DistinctKeys(steps) && i < |steps|
    ensures Contributed(steps, steps[i].key) == if steps[i].present then steps[i].vs else []
  {
    BuildGet(map[], steps, steps[i].key);
    BuildEntry(steps, i);
  }

  /** When no two steps share a key, the key of a step gains exactly that
      step's values, at the end, and only when the step is present. */
  lemma StepAppends(qp: Option<Values>, steps: seq<Step>, i: nat)
    requires DistinctKeys(steps) && i < |steps|
    ensures Get(SendAll(qp, steps).GetOr(map[]), steps[i].key) ==
              Get(qp.GetOr(map[]), steps[i].key) + (if steps[i].present then steps[i].vs else [])
  {
    SendAllKeeps(qp, steps, steps[i].key);
    ContributedDistinct(steps, i);
  }

  /** A key no step names gains nothing. */
  lemma ContributedNone(steps: seq<Step>, k: string)
    requires forall i :: 0 <= i < |steps| ==> steps[i].key != k
    ensures Contributed(steps, k) == []
  {
    BuildGet(map[], steps, k);
    BuildKeys(steps, k);
  }

  /** On a request with no query yet, when no two steps share a key, each
      key ends up holding its step's values exactly when the step was
      present with at least one value. */
  lemma SentEntry(steps: seq<Step>, i: nat)
    requires DistinctKeys(steps) && i < |steps|
    ensures EntryIf(SendAll(None, steps).GetOr(map[]), steps[i].key, steps[i].present && steps[i].vs != [], steps[i].vs)
  {
    SendAllBuild(None, steps);
    assert DistinctKeys(EffectiveAll(steps));
    BuildEntry(EffectiveAll(steps), i);
  }

  /** Where every present step carries a value, the calls on a request with
      no query build the same multimap as the map-based builder. */
  lemma SentAsBuilt(steps: seq<Step>)
    requires forall i :: 0 <= i < |steps| ==> steps[i].present ==> steps[i].vs != []
    ensures SendAll(None, steps).GetOr(map[]) == Build(map[], steps)
  {
    SendAllBuild(None, steps);
    assert EffectiveAll(steps) == steps;
  }

  /** A call without values is skipped, so the calls never leave a key
      without a value. */
  lemma {:induction false} SendAllNonEmpty(qp: Option<Values>, steps: seq<Step>)
    ensures NoEmptyLists(qp) ==> NoEmptyLists(SendAll(qp, steps))
    decreases |steps|
  {
    if steps != [] {
      SendAllNonEmpty(qp, steps[..|steps| - 1]);
    }
  }

  // ---------------------------------------------------------------------
  // Guarded calls on a request

  /** `if present { request.AddQueryParam(key, value) }`. The ghost `done`
      lists the steps performed since the helper started from the query
      `start`. */
  method AddWhen(request: Request, ghost start: Option<Values>, ghost done: seq<Step>,
                 present: bool, key: string, value: string)
    returns (ghost done': seq<Step>)
    modifies request
    requires request.queryParam == SendAll(start, done)
    ensures done' == done + [Step(present, key, [value])]
    ensures request.State() == old(request.State()).(queryParam := SendAll(start, done'))
  {
    if present {
      var r := request.AddQueryParam(key, value);
    }
    done' := done + [Step(present, key, [value])];
    assert done'[..|done|] == done;
  }

  /** `if present { for _, x := range items { request.AddQueryParam(key, x) } }`. */
  method AddEach(request: Request, ghost start: Option<Values>, ghost done: seq<Step>,
                 present: bool, key: string, items: seq<string>)
    returns (ghost done': seq<Step>)
    modifies request
    requires request.queryParam == SendAll(start, done)
    ensures done' == done + [Step(present, key, items)]
    ensures request.State() == old(request.State()).(queryParam := SendAll(start, done'))
  {
    done' := done + [Step(present, key, items)];
    assert done'[..|done|] == done;
    if present {
      ghost var before := SendAll(start, done).GetOr(map[]);
      for i := 0 to |items|
        invariant i == 0 ==> request.State() == old(request.State())
        invariant i > 0 ==> request.State() == old(request.State()).(queryParam := Some(Extend(before, key, items[..i])))
      {
        if i == 0 {
          assert items[..1] == [items[0]];
        } else {
          ExtendAdd(before, key, items[..i], items[i]);
          assert items[..i] + [items[i]] == items[..i + 1];
        }
        var r := request.AddQueryParam(key, items[i]);
      }
      assert items[..|items|] == items;
    }
  }

  /** The same loop over identifiers, each written in base 10. Writing the
      identifiers out before the loop rather than inside it gives the same
      calls. */
  method AddEachFormatted(request: Request, ghost start: Option<Values>, ghost done: seq<Step>,
                          present: bool, key: string, ids: seq<Int64>)
    returns (ghost done': seq<Step>)
    modifies request
    requires request.queryParam == SendAll(start, done)
    ensures done' == done + [Step(present, key, FormatAll(ids))]
    ensures request.State() == old(request.State()).(queryParam := SendAll(start, done'))
  {
    done' := AddEach(request, start, done, present, key, FormatAll(ids));
  }

  // ---------------------------------------------------------------------
  // setQueryParamAnnotation (api/v1/annotation.go)

  /** The calls of `setQueryParamAnnotation`, in source order. The `to` key
      carries the value of `from`, as the source is written. */
  function AnnotationSteps(q: ApiQuery.QueryParamAnnotation): seq<Step> {
    [] + [Step(q.from > 0, "from", [FormatInt(q.from)])]
    + [Step(q.to > 0, "to", [FormatInt(q.from)])]
    + [Step(q.userId > 0, "userId", [FormatInt(q.userId)])]
    + [Step(q.alertId > 0, "alertId", [FormatInt(q.alertId)])]
    + [Step(q.dashboardId > 0, "dashboardId", [FormatInt(q.dashboardId)])]
    + [Step(q.panelId > 0, "panelId", [FormatInt(q.panelId)])]
    + [Step(q.limit > 0, "limit", [FormatInt(q.limit)])]
    + [Step(|q.annotationType| > 0, "type", [q.annotationType])]
    + [Step(|q.tags| > 0, "tags", q.tags)]
  }

  /** A nil and an empty tag slice are the same here: the loop makes no
      call for either. */
  method SetQueryParamAnnotation(request: Request, query: V1Query.QueryParamAnnotation)
    modifies request
    ensures request.State() == old(request.State()).(queryParam := SendAll(old(request.queryParam), AnnotationSteps(query.Fields())))
    ensures old(request.Valid()) ==> request.Valid()
  {
    ghost var start := request.queryParam;
    ghost var done: seq<Step> := [];
    done := AddWhen(request, start, done, query.from > 0, "from", FormatInt(query.from));
    done := AddWhen(request, start, done, query.to > 0, "to", FormatInt(query.from));
    done := AddWhen(request, start, done, query.userId > 0, "userId", FormatInt(query.userId));
    done := AddWhen(request, start, done, query.alertId > 0, "alertId", FormatInt(query.alertId));
    done := AddWhen(request, start, done, query.dashboardId > 0, "dashboardId", FormatInt(query.dashboardId));
    done := AddWhen(request, start, done, query.panelId > 0, "panelId", FormatInt(query.panelId));
    done := AddWhen(request, start, done, query.limit > 0, "limit", FormatInt(query.limit));
    done := AddWhen(request, start, done, |query.annotationType| > 0, "type", query.annotationType);
    done := AddEach(request, start, done, |query.tags| > 0, "tags", query.tags);
    SendAllNonEmpty(start, done);
  }

  /** Every call the helper can make carries a value. */
  lemma AnnotationCarries(q: ApiQuery.QueryParamAnnotation)
    ensures forall i :: 0 <= i < |AnnotationSteps(q)| ==> AnnotationSteps(q)[i].present ==> AnnotationSteps(q)[i].vs != []
  {}

  /** On a request with no query yet, against `GetValues` of the same struct
      in `api/query.go`: the same keys and values, except that `to` holds
      the value of `from`; the two agree exactly when `to` is not sent or
      equals `from`. */
  lemma AnnotationAgainstApi(q: ApiQuery.QueryParamAnnotation)
    ensures var sent := SendAll(None, AnnotationSteps(q)).GetOr(map[]);
            var built := Build(map[], q.Steps());
      && sent == (if q.to > 0 then built["to" := [FormatInt(q.from)]] else built)
      && (sent == built <==> q.to <= 0 || q.from == q.to)
  {
    var steps := AnnotationSteps(q);
    var to := Step(q.to > 0, "to", [FormatInt(q.from)]);
    var built := Build(map[], q.Steps());
    assert steps == q.Steps()[1 := to];
    AnnotationCarries(q);
    SentAsBuilt(steps);
    ApiQuery.AnnotationKeysDistinct(q);
    BuildReplace(q.Steps(), 1, to);
    BuildEntry(q.Steps(), 1);
    if q.to <= 0 {
      assert built - {"to"} == built;
    } else if FormatInt(q.from) == FormatInt(q.to) {
      FormatInjective(q.from, q.to);
    } else {
      assert built["to" := [FormatInt(q.from)]]["to"] != built["to"];
    }
  }

  /** On a request with no query yet: each numeric key is sent exactly when
      its field is positive, with one base-10 value, `to` with the value of
      `from`; `type` exactly when it is not empty; one `tags` value per tag,
      in order; and no other key. */
  lemma AnnotationSent(q: ApiQuery.QueryParamAnnotation)
    ensures var values := SendAll(None, AnnotationSteps(q)).GetOr(map[]);
      && EntryIf(values, "from", q.from > 0, [FormatInt(q.from)])
      && EntryIf(values, "to", q.to > 0, [FormatInt(q.from)])
      && EntryIf(values, "userId", q.userId > 0, [FormatInt(q.userId)])
      && EntryIf(values, "alertId", q.alertId > 0, [FormatInt(q.alertId)])
      && EntryIf(values, "dashboardId", q.dashboardId > 0, [FormatInt(q.dashboardId)])
      && EntryIf(values, "panelId", q.panelId > 0, [FormatInt(q.panelId)])
      && EntryIf(values, "limit", q.limit > 0, [FormatInt(q.limit)])
      && EntryIf(values, "type", |q.annotationType| > 0, [q.annotationType])
      && EntryIf(values, "tags", |q.tags| > 0, q.tags)
      && values.Keys <= ApiQuery.AnnotationKeys
  {
    AnnotationAgainstApi(q);
    ApiQuery.AnnotationEntries(q);
    ApiQuery.AnnotationKeySet(q);
  }

  // ---------------------------------------------------------------------
  // setQueryParamSearch (api/v1/search.go)

  /** The calls of `setQueryParamSearch` are the appends of the `api`
      builder for the same struct, in the same order (`strconv.Itoa` and
      `FormatInt` agree): `q.Steps()`. */
  method SetQueryParamSearch(request: Request, query: ApiQuery.QueryParameterSearch)
    modifies request
    ensures request.State() == old(request.State()).(queryParam := SendAll(old(request.queryParam), query.Steps()))
    ensures old(request.Valid()) ==> request.Valid()
  {
    ghost var start := request.queryParam;
    ghost var done: seq<Step> := [];
    done := AddWhen(request, start, done, |query.query| > 0, "query", query.query);
    done := AddEach(request, start, done, query.tags.Some?, "tag", query.tags.GetOr([]));
    done := AddWhen(request, start, done, |query.searchType| > 0, "type", query.searchType);
    done := AddEachFormatted(request, start, done, |query.dashboardIds| > 0, "dashboardIds", query.dashboardIds);
    done := AddEachFormatted(request, start, done, |query.folderIds| > 0, "folderIds", query.folderIds);
    done := AddWhen(request, start, done, true, "starred", FormatBool(query.starred));
    done := AddWhen(request, start, done, query.limit > 0, "limit", FormatInt(query.limit));
    done := AddWhen(request, start, done, |query.permission| > 0, "permission", query.permission);
    SendAllNonEmpty(start, done);
  }

  /** Whatever the request already holds, `starred` gains exactly one
      value, after the values already there. */
  lemma SearchStarredOnce(qp: Option<Values>, q: ApiQuery.QueryParameterSearch)
    ensures Get(SendAll(qp, q.Steps()).GetOr(map[]), "starred") ==
              Get(qp.GetOr(map[]), "starred") + [FormatBool(q.starred)]
  {
    ApiQuery.SearchKeysDistinct(q);
    StepAppends(qp, q.Steps(), 5);
  }

  /** Whatever the request already holds, `tag` gains one value per tag, in
      order, after the values already there. */
  lemma SearchTagsAppend(qp: Option<Values>, q: ApiQuery.QueryParameterSearch)
    ensures Get(SendAll(qp, q.Steps()).GetOr(map[]), "tag") == Get(qp.GetOr(map[]), "tag") + q.tags.GetOr([])
  {
    ApiQuery.SearchKeysDistinct(q);
    StepAppends(qp, q.Steps(), 1);
  }

  /** Whatever the request already holds, `dashboardIds` and `folderIds`
      gain one base-10 value per identifier, in order, after the values
      already there. */
  lemma SearchIdsAppend(qp: Option<Values>, q: ApiQuery.QueryParameterSearch)
    ensures var before := qp.GetOr(map[]);
            var after := SendAll(qp, q.Steps()).GetOr(map[]);
      && Get(after, "dashboardIds") == Get(before, "dashboardIds") + FormatAll(q.dashboardIds)
      && Get(after, "folderIds") == Get(before, "folderIds") + FormatAll(q.folderIds)
  {
    ApiQuery.SearchKeysDistinct(q);
    StepAppends(qp, q.Steps(), 3);
    StepAppends(qp, q.Steps(), 4);
  }

  /** Every call the helper can make carries a value, but for the tags. */
  lemma SearchCarries(q: ApiQuery.QueryParameterSearch)
    ensures forall i :: 0 <= i < |q.Steps()| && i != 1 ==> q.Steps()[i].present ==> q.Steps()[i].vs != []
  {}

  /** On a request with no query yet, against `GetValues` in `api/query.go`:
      the same multimap, except for a non-nil empty tag list, for which the
      `api` builder has a `tag` key with no value and the helper has none. */
  lemma SearchAgainstApi(q: ApiQuery.QueryParameterSearch)
    ensures var sent := SendAll(None, q.Steps()).GetOr(map[]);
            var built := Build(map[], q.Steps());
      && (q.tags != Some([]) ==> sent == built)
      && (q.tags == Some([]) ==> "tag" !in sent && built == sent["tag" := []])
  {
    var steps := q.Steps();
    var built := Build(map[], steps);
    SearchCarries(q);
    SendAllBuild(None, steps);
    if q.tags != Some([]) {
      assert EffectiveAll(steps) == steps;
    } else {
      var silent := Step(false, "tag", []);
      assert EffectiveAll(steps) == steps[1 := silent];
      ApiQuery.SearchKeysDistinct(q);
      BuildReplace(steps, 1, silent);
      BuildEntry(steps, 1);
      assert (built - {"tag"})["tag" := []] == built;
    }
  }

  // ---------------------------------------------------------------------
  // setQueryParamTeam (api/v1/team.go)

  /** The calls of `setQueryParamTeam` are those of the `api` builder for
      the same fields: `query.Fields().Steps()`. */
  method SetQueryParamTeam(request: Request, query: V1Query.QueryParameterTeams)
    modifies request
    ensures request.State() == old(request.State()).(queryParam := SendAll(old(request.queryParam), query.Fields().Steps()))
    ensures old(request.Valid()) ==> request.Valid()
  {
    ghost var start := request.queryParam;
    ghost var done: seq<Step> := [];
    done := AddWhen(request, start, done, query.perPage > 0, "perpage", FormatInt(query.perPage));
    done := AddWhen(request, start, done, |query.name| > 0, "name", query.name);
    done := AddWhen(request, start, done, |query.query| > 0, "query", query.query);
    done := AddWhen(request, start, done, query.page > 0, "page", FormatInt(query.page));
    SendAllNonEmpty(start, done);
  }

  /** On a request with no query yet: `perpage` exactly when perPage is
      positive, with perPage's value; `name` and `query` exactly when not
      empty; `page` exactly when positive; nothing else. */
  lemma TeamSent(q: ApiQuery.QueryParameterTeams)
    ensures var values := SendAll(None, q.Steps()).GetOr(map[]);
      && values == Build(map[], q.Steps())
      && EntryIf(values, "perpage", q.perPage > 0, [FormatInt(q.perPage)])
      && EntryIf(values, "name", |q.name| > 0, [q.name])
      && EntryIf(values, "query", |q.query| > 0, [q.query])
      && EntryIf(values, "page", q.page > 0, [FormatInt(q.page)])
      && values.Keys <= {"perpage", "name", "query", "page"}
  {
    SentAsBuilt(q.Steps());
    ApiQuery.TeamsEntries(q);
  }

  // ---------------------------------------------------------------------
  // setQueryParamUsers (api/v1/users.go)

  /** The calls of `setQueryParamUsers`, in source order. The `perpage` key
      carries the value of `page`, as the source is written. */
  function UsersSteps(q: ApiQuery.QueryParameterUsers): seq<Step> {
    [] + [Step(q.page > 0, "page", [FormatInt(q.page)])]
    + [Step(q.perPage > 0, "perpage", [FormatInt(q.page)])]
    + [Step(|q.query| > 0, "query", [q.query])]
  }

  method SetQueryParamUsers(request: Request, query: V1Query.QueryParameterUsers)
    modifies request
    ensures request.State() == old(request.State()).(queryParam := SendAll(old(request.queryParam), UsersSteps(query.Fields())))
    ensures old(request.Valid()) ==> request.Valid()
  {
    ghost var start := request.queryParam;
    ghost var done: seq<Step> := [];
    done := AddWhen(request, start, done, query.page > 0, "page", FormatInt(query.page));
    done := AddWhen(request, start, done, query.perPage > 0, "perpage", FormatInt(query.page));
    done := AddWhen(request, start, done, |query.query| > 0, "query", query.query);
    SendAllNonEmpty(start, done);
  }

  /** On a request with no query yet, against `GetValues` in `api/query.go`:
      only `perpage` differs, holding page's value, and the two agree
      exactly when `perpage` is not sent or page equals perPage. */
  lemma UsersAgainstApi(q: ApiQuery.QueryParameterUsers)
    ensures var sent := SendAll(None, UsersSteps(q)).GetOr(map[]);
            var built := Build(map[], q.Steps());
      && sent == (if q.perPage > 0 then built["perpage" := [FormatInt(q.page)]] else built)
      && (sent == built <==> q.perPage <= 0 || q.page == q.perPage)
  {
    var steps := UsersSteps(q);
    var perpage := Step(q.perPage > 0, "perpage", [FormatInt(q.page)]);
    var built := Build(map[], q.Steps());
    assert steps == q.Steps()[1 := perpage];
    SentAsBuilt(steps);
    assert DistinctKeys(q.Steps());
    BuildReplace(q.Steps(), 1, perpage);
    BuildEntry(q.Steps(), 1);
    if q.perPage <= 0 {
      assert built - {"perpage"} == built;
    } else if FormatInt(q.page) == FormatInt(q.perPage) {
      FormatInjective(q.page, q.perPage);
    } else {
      assert built["perpage" := [FormatInt(q.page)]]["perpage"] != built["perpage"];
    }
  }

  /** On a request with no query yet: `page` exactly when positive;
      `perpage` exactly when perPage is positive, but with page's value;
      `query` exactly when not empty; nothing else. */
  lemma UsersSent(q: ApiQuery.QueryParameterUsers)
    ensures var values := SendAll(None, UsersSteps(q)).GetOr(map[]);
      && EntryIf(values, "page", q.page > 0, [FormatInt(q.page)])
      && EntryIf(values, "perpage", q.perPage > 0, [FormatInt(q.page)])
      && EntryIf(values, "query", |q.query| > 0, [q.query])
      && values.Keys <= {"page", "perpage", "query"}
  {
    UsersAgainstApi(q);
    ApiQuery.UsersEntries(q);
  }

  // ---------------------------------------------------------------------
  // setQueryParamPlaylist (api/v1/playlists.go)

  method SetQueryParamPlaylist(request: Request, query: ApiQuery.QueryParameterPlaylist)
    modifies request
    ensures request.State() == old(request.State()).(queryParam := SendAll(old(request.queryParam), query.Steps()))
    ensures old(request.Valid()) ==> request.Valid()
  {
    ghost var start := request.queryParam;
    ghost var done: seq<Step> := [];
    done := AddWhen(request, start, done, |query.query| > 0, "query", query.query);
    done := AddWhen(request, start, done, query.limit > 0, "limit", FormatInt(query.limit));
    SendAllNonEmpty(start, done);
  }

  /** Whatever the request already holds, every key keeps its values and
      gains at most one: `query` its text when not empty, `limit` its
      base-10 value when positive, any other key nothing. */
  lemma PlaylistAppends(qp: Option<Values>, q: ApiQuery.QueryParameterPlaylist, k: string)
    ensures Get(SendAll(qp, q.Steps()).GetOr(map[]), k) == Get(qp.GetOr(map[]), k) +
      (if k == "query" && |q.query| > 0 then [q.query]
       else if k == "limit" && q.limit > 0 then [FormatInt(q.limit)]
       else [])
  {
    var steps := q.Steps();
    SendAllKeeps(qp, steps, k);
    assert DistinctKeys(steps);
    if k == "query" {
      ContributedDistinct(steps, 0);
    } else if k == "limit" {
      ContributedDistinct(steps, 1);
    } else {
      ContributedNone(steps, k);
    }
  }

  // ---------------------------------------------------------------------
  // setQueryParamOrgs (api/orgs.go)

  method SetQueryParamOrgs(request: Request, query: ApiQuery.QueryParameterOrgs)
    modifies request
    ensures request.State() == old(request.State()).(queryParam := SendAll(old(request.queryParam), query.Steps()))
    ensures old(request.Valid()) ==> request.Valid()
  {
    ghost var start := request.queryParam;
    ghost var done: seq<Step> := [];
    done := AddWhen(request, start, done, |query.query| > 0, "query", query.query);
    done := AddWhen(request, start, done, |query.name| > 0, "name", query.name);
    SendAllNonEmpty(start, done);
  }

  /** Whatever the request already holds, every key keeps its values and
      gains at most one: `query` and `name` their text when not empty, any
      other key nothing. */
  lemma OrgsAppends(qp: Option<Values>, q: ApiQuery.QueryParameterOrgs, k: string)
    ensures Get(SendAll(qp, q.Steps()).GetOr(map[]), k) == Get(qp.GetOr(map[]), k) +
      (if k == "query" && |q.query| > 0 then [q.query]
       else if k == "name" && |q.name| > 0 then [q.name]
       else [])
  {
    var steps := q.Steps();
    SendAllKeeps(qp, steps, k);
    assert DistinctKeys(steps);
    if k == "query" {
      ContributedDistinct(steps, 0);
    } else if k == "name" {
      ContributedDistinct(steps, 1);
    } else {
      ContributedNone(steps, k);
    }
  }
}
