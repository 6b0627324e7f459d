/** The query structs of `api/query.go` and their `GetValues` methods, each
    of which builds a fresh multimap of query parameters from the struct's
    set fields.

    Every builder is a run of guarded appends, one per field. Each guarded
    append is performed by `AppendWhen` (or, for the fields the source
    appends element by element, by `AppendEach` and `AppendEachFormatted`),
    which also records the step it performed; `GetValues` is then proved
    to build exactly the struct's list of steps, and the per-key facts are
    proved once for all lists of steps in `UrlValues`. */
module ApiQuery {
  import opened Wrappers
  import opened Strconv
  import opened UrlValues

  /** `if present { values[key] = append(values[key], vs...) }`. The ghost
      `done` lists the steps performed since the map was made. */
  method AppendWhen(values: Values, ghost done: seq<Step>, present: bool, key: string, vs: seq<string>)
    returns (r: Values, ghost done': seq<Step>)
    requires values == Build(map[], done)
    ensures done' == done + [Step(present, key, vs)]
    ensures r == Build(map[], done')
  {
    r := values;
    if present {
      r := Extend(values, key, vs);
    }
    done' := done + [Step(present, key, vs)];
    BuildSnoc(map[], done, Step(present, key, vs));
  }

  /** `for _, x := range items { values[key] = append(values[key], x) }`
      over a non-empty list: the key ends up holding its old values and
      then the items, in order. */
  method AppendAll(values: Values, key: string, items: seq<string>) returns (r: Values)
    requires |items| > 0
    ensures r == Extend(values, key, items)
  {
    r := values;
    var i := 0;
    while i < |items|
      invariant 0 <= i <= |items|
      invariant i == 0 ==> r == values
      invariant i > 0 ==> r == Extend(values, key, items[..i])
    {
      if i == 0 {
        assert items[..1] == [items[0]];
      } else {
        ExtendAdd(values, key, items[..i], items[i]);
        assert items[..i] + [items[i]] == items[..i + 1];
      }
      r := Add(r, key, items[i]);
      i := i + 1;
    }
    assert items[..i] == items;
  }

  /** `if len(items) > 0 { for _, x := range items { ... } }`. */
  method AppendEach(values: Values, ghost done: seq<Step>, key: string, items: seq<string>)
    returns (r: Values, ghost done': seq<Step>)
    requires values == Build(map[], done)
    ensures done' == done + [Step(|items| > 0, key, items)]
    ensures r == Build(map[], done')
  {
    r := values;
    if |items| > 0 {
      r := AppendAll(values, key, items);
    }
    done' := done + [Step(|items| > 0, key, items)];
    BuildSnoc(map[], done, Step(|items| > 0, key, items));
  }

  /** The same loop over identifiers, each written in base 10. Writing the
      identifiers out before the loop rather than inside it gives the same
      list of values. */
  method AppendEachFormatted(values: Values, ghost done: seq<Step>, key: string, ids: seq<Int64>)
    returns (r: Values, ghost done': seq<Step>)
    requires values == Build(map[], done)
    ensures done' == done + [Step(|ids| > 0, key, FormatAll(ids))]
    ensures r == Build(map[], done')
  {
    r := values;
    if |ids| > 0 {
      r := AppendAll(values, key, FormatAll(ids));
    }
    done' := done + [Step(|ids| > 0, key, FormatAll(ids))];
    BuildSnoc(map[], done, Step(|ids| > 0, key, FormatAll(ids)));
  }

  // ---------------------------------------------------------------------
  // QueryParamAnnotation

  datatype QueryParamAnnotation = QueryParamAnnotation(
    from: Int64, to: Int64, userId: Int64, alertId: Int64, dashboardId: Int64, panelId: Int64,
    tags: seq<string>, annotationType: string, limit: Int64)
  {
    /** The guarded appends of `GetValues`, in source order. */
    function Steps(): seq<Step> {
      [] + [Step(from > 0, "from", [FormatInt(from)])]
      + [Step(to > 0, "to", [FormatInt(to)])]
      + [Step(userId > 0, "userId", [FormatInt(userId)])]
      + [Step(alertId > 0, "alertId", [FormatInt(alertId)])]
      + [Step(dashboardId > 0, "dashboardId", [FormatInt(dashboardId)])]
      + [Step(panelId > 0, "panelId", [FormatInt(panelId)])]
      + [Step(limit > 0, "limit", [FormatInt(limit)])]
      + [Step(|annotationType| > 0, "type", [annotationType])]
      + [Step(|tags| > 0, "tags", tags)]
    }

    method GetValues() returns (values: Values)
      ensures values == Build(map[], Steps())
    {
      ghost var done: seq<Step> := [];
      values := map[];
      values, done := AppendWhen(values, done, from > 0, "from", [FormatInt(from)]);
      values, done := AppendWhen(values, done, to > 0, "to", [FormatInt(to)]);
      values, done := AppendWhen(values, done, userId > 0, "userId", [FormatInt(userId)]);
      values, done := AppendWhen(values, done, alertId > 0, "alertId", [FormatInt(alertId)]);
      values, done := AppendWhen(values, done, dashboardId > 0, "dashboardId", [FormatInt(dashboardId)]);
      values, done := AppendWhen(values, done, panelId > 0, "panelId", [FormatInt(panelId)]);
      values, done := AppendWhen(values, done, limit > 0, "limit", [FormatInt(limit)]);
      values, done := AppendWhen(values, done, |annotationType| > 0, "type", [annotationType]);
      values, done := AppendWhen(values, done, |tags| > 0, "tags", tags);
    }
  }

  const AnnotationKeys: set<string> :=
    {"from", "to", "userId", "alertId", "dashboardId", "panelId", "limit", "type", "tags"}

  lemma AnnotationKeysDistinct(q: QueryParamAnnotation)
    ensures DistinctKeys(q.Steps())
  {}

  /** Each numeric field is sent, once and in base 10, exactly when it is
      positive; the type exactly when it is not empty; the tags exactly when
      there are some, all of them and in order. */
  lemma AnnotationEntries(q: QueryParamAnnotation)
    ensures var values := Build(map[], q.Steps());
      && EntryIf(values, "from", q.from > 0, [FormatInt(q.from)])
      && EntryIf(values, "to", q.to > 0, [FormatInt(q.to)])
      && EntryIf(values, "userId", q.userId > 0, [FormatInt(q.userId)])
      && EntryIf(values, "alertId", q.alertId > 0, [FormatInt(q.alertId)])
      && EntryIf(values, "dashboardId", q.dashboardId > 0, [FormatInt(q.dashboardId)])
      && EntryIf(values, "panelId", q.panelId > 0, [FormatInt(q.panelId)])
      && EntryIf(values, "limit", q.limit > 0, [FormatInt(q.limit)])
      && EntryIf(values, "type", |q.annotationType| > 0, [q.annotationType])
      && EntryIf(values, "tags", |q.tags| > 0, q.tags)
  {
    AnnotationIdEntries(q);
    var steps := q.Steps();
    AnnotationKeysDistinct(q);
    BuildEntry(steps, 6);
    BuildEntry(steps, 7);
    BuildEntry(steps, 8);
  }

  lemma AnnotationIdEntries(q: QueryParamAnnotation)
    ensures var values := Build(map[], q.Steps());
      && EntryIf(values, "from", q.from > 0, [FormatInt(q.from)])
      && EntryIf(values, "to", q.to > 0, [FormatInt(q.to)])
      && EntryIf(values, "userId", q.userId > 0, [FormatInt(q.userId)])
      && EntryIf(values, "alertId", q.alertId > 0, [FormatInt(q.alertId)])
      && EntryIf(values, "dashboardId", q.dashboardId > 0, [FormatInt(q.dashboardId)])
      && EntryIf(values, "panelId", q.panelId > 0, [FormatInt(q.panelId)])
  {
    var steps := q.Steps();
    AnnotationKeysDistinct(q);
    BuildEntry(steps, 0);
    BuildEntry(steps, 1);
    BuildEntry(steps, 2);
    BuildEntry(steps, 3);
    BuildEntry(steps, 4);
    BuildEntry(steps, 5);
  }

  /** No other key is ever sent, and nothing at all is sent exactly when no
      field is set. */
  lemma AnnotationKeysWithin(q: QueryParamAnnotation)
    ensures Build(map[], q.Steps()).Keys <= AnnotationKeys
  {
    forall k | k in Build(map[], q.Steps()) ensures k in AnnotationKeys {
      BuildKeys(q.Steps(), k);
    }
  }

  lemma AnnotationKeySet(q: QueryParamAnnotation)
    ensures Build(map[], q.Steps()).Keys <= AnnotationKeys
    ensures Build(map[], q.Steps()) == map[] <==>
              && q.from <= 0 && q.to <= 0 && q.userId <= 0 && q.alertId <= 0 && q.dashboardId <= 0
              && q.panelId <= 0 && q.limit <= 0 && q.annotationType == "" && q.tags == []
  {
    var steps := q.Steps();
    AnnotationKeysWithin(q);
    if q.from <= 0 && q.to <= 0 && q.userId <= 0 && q.alertId <= 0 && q.dashboardId <= 0
       && q.panelId <= 0 && q.limit <= 0 && q.annotationType == "" && q.tags == [] {
      BuildNothing(steps);
    } else {
      AnnotationEntries(q);
    }
  }

  // ---------------------------------------------------------------------
  // QueryParamAlert

  datatype QueryParamAlert = QueryParamAlert(
    panelId: Int64, limit: Int64, query: string, dashboardQuery: string,
    states: seq<string>, dashboardIds: seq<Int64>, folderIds: seq<Int64>, dashboardTags: seq<string>)
  {
    function Steps(): seq<Step> {
      [] + [Step(panelId > 0, "panelId", [FormatInt(panelId)])]
      + [Step(|dashboardQuery| > 0, "dashboardQuery", [dashboardQuery])]
      + [Step(|query| > 0, "query", [query])]
      + [Step(limit > 0, "limit", [FormatInt(limit)])]
      + [Step(|states| > 0, "state", states)]
      + [Step(|dashboardIds| > 0, "dashboardId", FormatAll(dashboardIds))]
      + [Step(|folderIds| > 0, "folderId", FormatAll(folderIds))]
      + [Step(|dashboardTags| > 0, "dashboardTag", dashboardTags)]
    }

    method GetValues() returns (values: Values)
      ensures values == Build(map[], Steps())
    {
      ghost var done: seq<Step> := [];
      values := map[];
      values, done := AppendWhen(values, done, panelId > 0, "panelId", [FormatInt(panelId)]);
      values, done := AppendWhen(values, done, |dashboardQuery| > 0, "dashboardQuery", [dashboardQuery]);
      values, done := AppendWhen(values, done, |query| > 0, "query", [query]);
      values, done := AppendWhen(values, done, limit > 0, "limit", [FormatInt(limit)]);
      values, done := AppendEach(values, done, "state", states);
      values, done := AppendEachFormatted(values, done, "dashboardId", dashboardIds);
      values, done := AppendEachFormatted(values, done, "folderId", folderIds);
      values, done := AppendWhen(values, done, |dashboardTags| > 0, "dashboardTag", dashboardTags);
    }
  }

  const AlertKeys: set<string> :=
    {"panelId", "dashboardQuery", "query", "limit", "state", "dashboardId", "folderId", "dashboardTag"}

  lemma AlertKeysDistinct(q: QueryParamAlert)
    ensures DistinctKeys(q.Steps())
  {}

  /** panelId and limit are sent exactly when positive, query and
      dashboardQuery exactly when not empty; each list is sent exactly when
      it is not empty, element for element and in order. */
  lemma AlertEntries(q: QueryParamAlert)
    ensures var values := Build(map[], q.Steps());
      && EntryIf(values, "panelId", q.panelId > 0, [FormatInt(q.panelId)])
      && EntryIf(values, "dashboardQuery", |q.dashboardQuery| > 0, [q.dashboardQuery])
      && EntryIf(values, "query", |q.query| > 0, [q.query])
      && EntryIf(values, "limit", q.limit > 0, [FormatInt(q.limit)])
      && EntryIf(values, "state", |q.states| > 0, q.states)
      && EntryIf(values, "dashboardId", |q.dashboardIds| > 0, FormatAll(q.dashboardIds))
      && EntryIf(values, "folderId", |q.folderIds| > 0, FormatAll(q.folderIds))
      && EntryIf(values, "dashboardTag", |q.dashboardTags| > 0, q.dashboardTags)
  {
    var steps := q.Steps();
    AlertKeysDistinct(q);
    BuildEntry(steps, 0);
    BuildEntry(steps, 1);
    BuildEntry(steps, 2);
    BuildEntry(steps, 3);
    BuildEntry(steps, 4);
    BuildEntry(steps, 5);
    BuildEntry(steps, 6);
    BuildEntry(steps, 7);
  }

  lemma AlertKeySet(q: QueryParamAlert)
    ensures Build(map[], q.Steps()).Keys <= AlertKeys
    ensures Build(map[], q.Steps()) == map[] <==>
              && q.panelId <= 0 && q.limit <= 0 && q.query == "" && q.dashboardQuery == ""
              && q.states == [] && q.dashboardIds == [] && q.folderIds == [] && q.dashboardTags == []
  {
    var steps := q.Steps();
    forall k | k in Build(map[], steps) ensures k in AlertKeys {
      BuildKeys(steps, k);
    }
    if q.panelId <= 0 && q.limit <= 0 && q.query == "" && q.dashboardQuery == ""
       && q.states == [] && q.dashboardIds == [] && q.folderIds == [] && q.dashboardTags == [] {
      BuildNothing(steps);
    } else {
      AlertEntries(q);
    }
  }

  // ---------------------------------------------------------------------
  // QueryParameterUsers, QueryParameterTeams, QueryParameterOrgs,
  // QueryParameterPlaylist

  datatype QueryParameterUsers = QueryParameterUsers(perPage: Int64, page: Int64, query: string)
  {
    function Steps(): seq<Step> {
      [] + [Step(page > 0, "page", [FormatInt(page)])]
      + [Step(perPage > 0, "perpage", [FormatInt(perPage)])]
      + [Step(|query| > 0, "query", [query])]
    }

    method GetValues() returns (values: Values)
      ensures values == Build(map[], Steps())
    {
      ghost var done: seq<Step> := [];
      values := map[];
      values, done := AppendWhen(values, done, page > 0, "page", [FormatInt(page)]);
      values, done := AppendWhen(values, done, perPage > 0, "perpage", [FormatInt(perPage)]);
      values, done := AppendWhen(values, done, |query| > 0, "query", [query]);
    }
  }

  /** Each key is sent exactly when its field is set, with one value, and
      no other key is sent. */
  lemma UsersEntries(q: QueryParameterUsers)
    ensures var values := Build(map[], q.Steps());
      && EntryIf(values, "page", q.page > 0, [FormatInt(q.page)])
      && EntryIf(values, "perpage", q.perPage > 0, [FormatInt(q.perPage)])
      && EntryIf(values, "query", |q.query| > 0, [q.query])
      && values.Keys <= {"page", "perpage", "query"}
  {
    var steps := q.Steps();
    assert DistinctKeys(steps);
    BuildEntry(steps, 0);
    BuildEntry(steps, 1);
    BuildEntry(steps, 2);
    forall k | k in Build(map[], steps) ensures k in {"page", "perpage", "query"} {
      BuildKeys(steps, k);
    }
  }

  datatype QueryParameterTeams = QueryParameterTeams(perPage: Int64, page: Int64, query: string, name: string)
  {
    function Steps(): seq<Step> {
      [] + [Step(perPage > 0, "perpage", [FormatInt(perPage)])]
      + [Step(|name| > 0, "name", [name])]
      + [Step(|query| > 0, "query", [query])]
      + [Step(page > 0, "page", [FormatInt(page)])]
    }

    method GetValues() returns (values: Values)
      ensures values == Build(map[], Steps())
    {
      ghost var done: seq<Step> := [];
      values := map[];
      values, done := AppendWhen(values, done, perPage > 0, "perpage", [FormatInt(perPage)]);
      values, done := AppendWhen(values, done, |name| > 0, "name", [name]);
      values, done := AppendWhen(values, done, |query| > 0, "query", [query]);
      values, done := AppendWhen(values, done, page > 0, "page", [FormatInt(page)]);
    }
  }

  lemma TeamsEntries(q: QueryParameterTeams)
    ensures var values := Build(map[], q.Steps());
      && EntryIf(values, "perpage", q.perPage > 0, [FormatInt(q.perPage)])
      && EntryIf(values, "name", |q.name| > 0, [q.name])
      && EntryIf(values, "query", |q.query| > 0, [q.query])
      && EntryIf(values, "page", q.page > 0, [FormatInt(q.page)])
      && values.Keys <= {"perpage", "name", "query", "page"}
  {
    var steps := q.Steps();
    assert DistinctKeys(steps);
    BuildEntry(steps, 0);
    BuildEntry(steps, 1);
    BuildEntry(steps, 2);
    BuildEntry(steps, 3);
    forall k | k in Build(map[], steps) ensures k in {"perpage", "name", "query", "page"} {
      BuildKeys(steps, k);
    }
  }

  datatype QueryParameterOrgs = QueryParameterOrgs(name: string, query: string)
  {
    function Steps(): seq<Step> {
      [] + [Step(|query| > 0, "query", [query])]
      + [Step(|name| > 0, "name", [name])]
    }

    method GetValues() returns (values: Values)
      ensures values == Build(map[], Steps())
    {
      ghost var done: seq<Step> := [];
      values := map[];
      values, done := AppendWhen(values, done, |query| > 0, "query", [query]);
      values, done := AppendWhen(values, done, |name| > 0, "name", [name]);
    }
  }

  lemma OrgsEntries(q: QueryParameterOrgs)
    ensures var values := Build(map[], q.Steps());
      && EntryIf(values, "query", |q.query| > 0, [q.query])
      && EntryIf(values, "name", |q.name| > 0, [q.name])
      && values.Keys <= {"query", "name"}
  {
    var steps := q.Steps();
    assert DistinctKeys(steps);
    BuildEntry(steps, 0);
    BuildEntry(steps, 1);
    forall k | k in Build(map[], steps) ensures k in {"query", "name"} {
      BuildKeys(steps, k);
    }
  }

  datatype QueryParameterPlaylist = QueryParameterPlaylist(limit: Int64, query: string)
  {
    function Steps(): seq<Step> {
      [] + [Step(|query| > 0, "query", [query])]
      + [Step(limit > 0, "limit", [FormatInt(limit)])]
    }

    method GetValues() returns (values: Values)
      ensures values == Build(map[], Steps())
    {
      ghost var done: seq<Step> := [];
      values := map[];
      values, done := AppendWhen(values, done, |query| > 0, "query", [query]);
      values, done := AppendWhen(values, done, limit > 0, "limit", [FormatInt(limit)]);
    }
  }

  lemma PlaylistEntries(q: QueryParameterPlaylist)
    ensures var values := Build(map[], q.Steps());
      && EntryIf(values, "query", |q.query| > 0, [q.query])
      && EntryIf(values, "limit", q.limit > 0, [FormatInt(q.limit)])
      && values.Keys <= {"query", "limit"}
  {
    var steps := q.Steps();
    assert DistinctKeys(steps);
    BuildEntry(steps, 0);
    BuildEntry(steps, 1);
    forall k | k in Build(map[], steps) ensures k in {"query", "limit"} {
      BuildKeys(steps, k);
    }
  }

  // ---------------------------------------------------------------------
  // QueryParameterSearch

  /** `tags` is `None` for a nil slice: a non-nil empty slice still creates
      the `tag` key, with no value. */
  datatype QueryParameterSearch = QueryParameterSearch(
    query: string, tags: Option<seq<string>>, searchType: string, dashboardIds: seq<Int64>,
    folderIds: seq<Int64>, starred: bool, limit: Int64, permission: string)
  {
    function Steps(): seq<Step> {
      [] + [Step(|query| > 0, "query", [query])]
      + [Step(tags.Some?, "tag", tags.GetOr([]))]
      + [Step(|searchType| > 0, "type", [searchType])]
      + [Step(|dashboardIds| > 0, "dashboardIds", FormatAll(dashboardIds))]
      + [Step(|folderIds| > 0, "folderIds", FormatAll(folderIds))]
      + [Step(true, "starred", [FormatBool(starred)])]
      + [Step(limit > 0, "limit", [FormatInt(limit)])]
      + [Step(|permission| > 0, "permission", [permission])]
    }

    method GetValues() returns (values: Values)
      ensures values == Build(map[], Steps())
    {
      ghost var done: seq<Step> := [];
      values := map[];
      values, done := AppendWhen(values, done, |query| > 0, "query", [query]);
      values, done := AppendWhen(values, done, tags.Some?, "tag", tags.GetOr([]));
      values, done := AppendWhen(values, done, |searchType| > 0, "type", [searchType]);
      values, done := AppendEachFormatted(values, done, "dashboardIds", dashboardIds);
      values, done := AppendEachFormatted(values, done, "folderIds", folderIds);
      // the one append without a guard
      values, done := AppendWhen(values, done, true, "starred", [FormatBool(starred)]);
      values, done := AppendWhen(values, done, limit > 0, "limit", [FormatInt(limit)]);
      values, done := AppendWhen(values, done, |permission| > 0, "permission", [permission]);
    }
  }

  const SearchKeys: set<string> :=
    {"query", "tag", "type", "dashboardIds", "folderIds", "starred", "limit", "permission"}

  lemma SearchKeysDistinct(q: QueryParameterSearch)
    ensures DistinctKeys(q.Steps())
  {}

  /** `starred` is always sent, with exactly one value, "true" or "false";
      `tag` is sent whenever the tag list is non-nil, even empty; the other
      keys exactly when their field is set. */
  lemma SearchEntries(q: QueryParameterSearch)
    ensures var values := Build(map[], q.Steps());
      && EntryIf(values, "query", |q.query| > 0, [q.query])
      && EntryIf(values, "tag", q.tags.Some?, q.tags.GetOr([]))
      && EntryIf(values, "type", |q.searchType| > 0, [q.searchType])
      && EntryIf(values, "dashboardIds", |q.dashboardIds| > 0, FormatAll(q.dashboardIds))
      && EntryIf(values, "folderIds", |q.folderIds| > 0, FormatAll(q.folderIds))
      && EntryIf(values, "starred", true, [if q.starred then "true" else "false"])
      && EntryIf(values, "limit", q.limit > 0, [FormatInt(q.limit)])
      && EntryIf(values, "permission", |q.permission| > 0, [q.permission])
  {
    var steps := q.Steps();
    SearchKeysDistinct(q);
    BuildEntry(steps, 0);
    BuildEntry(steps, 1);
    BuildEntry(steps, 2);
    BuildEntry(steps, 3);
    BuildEntry(steps, 4);
    BuildEntry(steps, 5);
    BuildEntry(steps, 6);
    BuildEntry(steps, 7);
  }

  /** No other key is sent; a zero-valued search sends only
      `starred=false`. */
  lemma SearchKeySet(q: QueryParameterSearch)
    ensures Build(map[], q.Steps()).Keys <= SearchKeys
    ensures q == QueryParameterSearch("", None, "", [], [], false, 0, "") ==>
              Build(map[], q.Steps()) == map["starred" := ["false"]]
  {
    var steps := q.Steps();
    forall k | k in Build(map[], steps) ensures k in SearchKeys {
      BuildKeys(steps, k);
    }
    if q == QueryParameterSearch("", None, "", [], [], false, 0, "") {
      SearchEntries(q);
      var values := Build(map[], steps);
      forall k | k in values ensures k == "starred" {
        BuildKeys(steps, k);
      }
      assert values.Keys == {"starred"};
    }
  }
}
