/** The query structs of `api/v1/query.go`. Unlike their `api` namesakes
    they are mutable: the fluent setters assign one field of the receiver
    and hand the receiver back, and the `Add*` methods append to a slice
    field in place. Each class exposes its fields as the value `Fields()`
    of the matching `ApiQuery` datatype, which has the same fields. */
module V1Query {
  import opened Strconv
  import ApiQuery

  class QueryParamAnnotation {
    var from: Int64
    var to: Int64
    var userId: Int64
    var alertId: Int64
    var dashboardId: Int64
    var panelId: Int64
    var tags: seq<string>
    var annotationType: string
    var limit: Int64

    function Fields(): ApiQuery.QueryParamAnnotation
      reads this
    {
      ApiQuery.QueryParamAnnotation(from, to, userId, alertId, dashboardId, panelId, tags, annotationType, limit)
    }

    /** `&QueryParamAnnotation{}`: every field at its zero value. */
    constructor ()
      ensures Fields() == ApiQuery.QueryParamAnnotation(0, 0, 0, 0, 0, 0, [], "", 0)
    {
      from, to, userId, alertId, dashboardId, panelId := 0, 0, 0, 0, 0, 0;
      tags, annotationType, limit := [], "", 0;
    }

    method From(from: Int64) returns (r: QueryParamAnnotation)
      modifies this
      ensures r == this && Fields() == old(Fields()).(from := from)
    {
      this.from := from;
      r := this;
    }

    method To(to: Int64) returns (r: QueryParamAnnotation)
      modifies this
      ensures r == this && Fields() == old(Fields()).(to := to)
    {
      this.to := to;
      r := this;
    }

    method AlertID(alertID: Int64) returns (r: QueryParamAnnotation)
      modifies this
      ensures r == this && Fields() == old(Fields()).(alertId := alertID)
    {
      alertId := alertID;
      r := this;
    }

    method UserID(userID: Int64) returns (r: QueryParamAnnotation)
      modifies this
      ensures r == this && Fields() == old(Fields()).(userId := userID)
    {
      userId := userID;
      r := this;
    }

    method DashboardID(dashboardID: Int64) returns (r: QueryParamAnnotation)
      modifies this
      ensures r == this && Fields() == old(Fields()).(dashboardId := dashboardID)
    {
      dashboardId := dashboardID;
      r := this;
    }

    method PanelID(panelID: Int64) returns (r: QueryParamAnnotation)
      modifies this
      ensures r == this && Fields() == old(Fields()).(panelId := panelID)
    {
      panelId := panelID;
      r := this;
    }

    /** Appends one tag after those already added. */
    method AddTag(tag: string) returns (r: QueryParamAnnotation)
      modifies this
      ensures r == this && Fields() == old(Fields()).(tags := old(tags) + [tag])
    {
      tags := tags + [tag];
      r := this;
    }

    method Type(t: string) returns (r: QueryParamAnnotation)
      modifies this
      ensures r == this && Fields() == old(Fields()).(annotationType := t)
    {
      annotationType := t;
      r := this;
    }

    method Limit(limit: Int64) returns (r: QueryParamAnnotation)
      modifies this
      ensures r == this && Fields() == old(Fields()).(limit := limit)
    {
      this.limit := limit;
      r := this;
    }
  }

  /** Setting a field twice keeps the second value, and setting it twice to
      the same value is the same as setting it once. */
  method FromTwice(q: QueryParamAnnotation, first: Int64, second: Int64)
    modifies q
    ensures q.Fields() == old(q.Fields()).(from := second)
    ensures first == second ==> q.Fields() == old(q.Fields()).(from := first)
  {
    var r := q.From(first);
    r := r.From(second);
  }

  /** A chain of calls on the returned receiver: the tags end up in call
      order, and the other fields keep their values. */
  method TagChain(q: QueryParamAnnotation, a: string, b: string)
    modifies q
    ensures q.tags == old(q.tags) + [a, b]
    ensures q.Fields() == old(q.Fields()).(tags := old(q.tags) + [a, b])
  {
    var r := q.AddTag(a);
    r := r.AddTag(b);
  }

  class QueryParamAlert {
    var panelId: Int64
    var limit: Int64
    var query: string
    var dashboardQuery: string
    var states: seq<string>
    var dashboardIds: seq<Int64>
    var folderIds: seq<Int64>
    var dashboardTags: seq<string>

    function Fields(): ApiQuery.QueryParamAlert
      reads this
    {
      ApiQuery.QueryParamAlert(panelId, limit, query, dashboardQuery, states, dashboardIds, folderIds, dashboardTags)
    }

    constructor ()
      ensures Fields() == ApiQuery.QueryParamAlert(0, 0, "", "", [], [], [], [])
    {
      panelId, limit, query, dashboardQuery := 0, 0, "", "";
      states, dashboardIds, folderIds, dashboardTags := [], [], [], [];
    }

    method Query(query: string) returns (r: QueryParamAlert)
      modifies this
      ensures r == this && Fields() == old(Fields()).(query := query)
    {
      this.query := query;
      r := this;
    }

    method PanelID(panelID: Int64) returns (r: QueryParamAlert)
      modifies this
      ensures r == this && Fields() == old(Fields()).(panelId := panelID)
    {
      panelId := panelID;
      r := this;
    }

    method Limit(limit: Int64) returns (r: QueryParamAlert)
      modifies this
      ensures r == this && Fields() == old(Fields()).(limit := limit)
    {
      this.limit := limit;
      r := this;
    }

    /** An alert state is a string type in the source. */
    method AddAlertState(state: string) returns (r: QueryParamAlert)
      modifies this
      ensures r == this && Fields() == old(Fields()).(states := old(states) + [state])
    {
      states := states + [state];
      r := this;
    }

    method AddDashboardTag(dashboardTag: string) returns (r: QueryParamAlert)
      modifies this
      ensures r == this && Fields() == old(Fields()).(dashboardTags := old(dashboardTags) + [dashboardTag])
    {
      dashboardTags := dashboardTags + [dashboardTag];
      r := this;
    }

    method AddDashboardID(dashboardID: Int64) returns (r: QueryParamAlert)
      modifies this
      ensures r == this && Fields() == old(Fields()).(dashboardIds := old(dashboardIds) + [dashboardID])
    {
      dashboardIds := dashboardIds + [dashboardID];
      r := this;
    }

    method AddFolderID(folderId: Int64) returns (r: QueryParamAlert)
      modifies this
      ensures r == this && Fields() == old(Fields()).(folderIds := old(folderIds) + [folderId])
    {
      folderIds := folderIds + [folderId];
      r := this;
    }
  }

  class QueryParameterUsers {
    var perPage: Int64
    var page: Int64
    var query: string

    function Fields(): ApiQuery.QueryParameterUsers
      reads this
    {
      ApiQuery.QueryParameterUsers(perPage, page, query)
    }

    constructor ()
      ensures Fields() == ApiQuery.QueryParameterUsers(0, 0, "")
    {
      perPage, page, query := 0, 0, "";
    }

    method Query(query: string) returns (r: QueryParameterUsers)
      modifies this
      ensures r == this && Fields() == old(Fields()).(query := query)
    {
      this.query := query;
      r := this;
    }

    method PerPage(perPage: Int64) returns (r: QueryParameterUsers)
      modifies this
      ensures r == this && Fields() == old(Fields()).(perPage := perPage)
    {
      this.perPage := perPage;
      r := this;
    }

    method Page(page: Int64) returns (r: QueryParameterUsers)
      modifies this
      ensures r == this && Fields() == old(Fields()).(page := page)
    {
      this.page := page;
      r := this;
    }
  }

  class QueryParameterTeams {
    var perPage: Int64
    var page: Int64
    var query: string
    var name: string

    function Fields(): ApiQuery.QueryParameterTeams
      reads this
    {
      ApiQuery.QueryParameterTeams(perPage, page, query, name)
    }

    constructor ()
      ensures Fields() == ApiQuery.QueryParameterTeams(0, 0, "", "")
    {
      perPage, page, query, name := 0, 0, "", "";
    }

    method Query(query: string) returns (r: QueryParameterTeams)
      modifies this
      ensures r == this && Fields() == old(Fields()).(query := query)
    {
      this.query := query;
      r := this;
    }

    method Name(name: string) returns (r: QueryParameterTeams)
      modifies this
      ensures r == this && Fields() == old(Fields()).(name := name)
    {
      this.name := name;
      r := this;
    }

    method PerPage(perPage: Int64) returns (r: QueryParameterTeams)
      modifies this
      ensures r == this && Fields() == old(Fields()).(perPage := perPage)
    {
      this.perPage := perPage;
      r := this;
    }

    method Page(page: Int64) returns (r: QueryParameterTeams)
      modifies this
      ensures r == this && Fields() == old(Fields()).(page := page)
    {
      this.page := page;
      r := this;
    }
  }
}
