/**
 * Search tools (`server/mcp_tools/search_tools.py`): global, group and
 * project search share one query shape. `scope` and `search` are always
 * sent, `confidential` whenever it is not None (so False is sent), and
 * `order_by`, `sort` and `state` only when truthy.
 */
module Search {
  import opened Values
  import opened Params
  import opened Http

  /** The query of global and group search, one row per statement of the builder. */
  function SearchRows(scope: Value, searchQuery: Value, confidential: Value, orderBy: Value, sort: Value, state: Value)
    : seq<Insertion>
  {
    [Always("scope", scope), Always("search", searchQuery), IfNotNone("confidential", confidential),
     IfTruthy("order_by", orderBy), IfTruthy("sort", sort), IfTruthy("state", state)]
  }

  /**
   * The query of global and group search: `scope` and `search` always,
   * `confidential` iff not None, the other three iff truthy, each with its
   * argument as value, and no other key.
   */
  predicate SearchQuery(params: map<string, Value>, scope: Value, searchQuery: Value, confidential: Value,
                        orderBy: Value, sort: Value, state: Value)
  {
    && "scope" in params && params["scope"] == scope
    && "search" in params && params["search"] == searchQuery
    && ("confidential" in params <==> confidential != Null)
    && ("order_by" in params <==> Truthy(orderBy))
    && ("sort" in params <==> Truthy(sort))
    && ("state" in params <==> Truthy(state))
    && ("confidential" in params ==> params["confidential"] == confidential)
    && ("order_by" in params ==> params["order_by"] == orderBy)
    && ("sort" in params ==> params["sort"] == sort)
    && ("state" in params ==> params["state"] == state)
    && params.Keys <= {"scope", "search", "confidential", "order_by", "sort", "state"}
  }

  /** Builds the query of global and group search. */
  method SearchParams(scope: Value, searchQuery: Value, confidential: Value, orderBy: Value, sort: Value, state: Value)
    returns (params: map<string, Value>)
    ensures SearchQuery(params, scope, searchQuery, confidential, orderBy, sort, state)
  {
    var t := SearchRows(scope, searchQuery, confidential, orderBy, sort, state);
    params := Insert(map[], t);
    LemmaApplyAt(map[], t, 0);
    LemmaApplyAt(map[], t, 1);
    LemmaApplyAt(map[], t, 2);
    LemmaApplyAt(map[], t, 3);
    LemmaApplyAt(map[], t, 4);
    LemmaApplyAt(map[], t, 5);
    LemmaApplyKeys(map[], t);
  }

  /** The query of project search: the same, with `ref` after `confidential`. */
  function ProjectSearchRows(scope: Value, searchQuery: Value, confidential: Value, ref: Value,
                             orderBy: Value, sort: Value, state: Value): seq<Insertion>
  {
    [Always("scope", scope), Always("search", searchQuery), IfNotNone("confidential", confidential),
     IfTruthy("ref", ref), IfTruthy("order_by", orderBy), IfTruthy("sort", sort), IfTruthy("state", state)]
  }

  /** The query of project search: the same, plus `ref` iff truthy, with its value. */
  predicate ProjectSearchQuery(params: map<string, Value>, scope: Value, searchQuery: Value, confidential: Value,
                               ref: Value, orderBy: Value, sort: Value, state: Value)
  {
    && "scope" in params && params["scope"] == scope
    && "search" in params && params["search"] == searchQuery
    && ("confidential" in params <==> confidential != Null)
    && ("ref" in params <==> Truthy(ref))
    && ("order_by" in params <==> Truthy(orderBy))
    && ("sort" in params <==> Truthy(sort))
    && ("state" in params <==> Truthy(state))
    && ("confidential" in params ==> params["confidential"] == confidential)
    && ("ref" in params ==> params["ref"] == ref)
    && ("order_by" in params ==> params["order_by"] == orderBy)
    && ("sort" in params ==> params["sort"] == sort)
    && ("state" in params ==> params["state"] == state)
    && params.Keys <= {"scope", "search", "confidential", "ref", "order_by", "sort", "state"}
  }

  /** Builds the query of project search. */
  method ProjectSearchParams(scope: Value, searchQuery: Value, confidential: Value, ref: Value,
                             orderBy: Value, sort: Value, state: Value)
    returns (params: map<string, Value>)
    ensures ProjectSearchQuery(params, scope, searchQuery, confidential, ref, orderBy, sort, state)
  {
    var t := ProjectSearchRows(scope, searchQuery, confidential, ref, orderBy, sort, state);
    params := Insert(map[], t);
    LemmaProjectSearchFirst(scope, searchQuery, confidential, ref, orderBy, sort, state);
    LemmaProjectSearchRest(scope, searchQuery, confidential, ref, orderBy, sort, state);
  }

  /** The first four rows of the project search query: the fixed keys, `confidential` and `ref`. */
  lemma LemmaProjectSearchFirst(scope: Value, searchQuery: Value, confidential: Value, ref: Value,
                                orderBy: Value, sort: Value, state: Value)
    ensures var p := Apply(map[], ProjectSearchRows(scope, searchQuery, confidential, ref, orderBy, sort, state));
            "scope" in p && p["scope"] == scope && "search" in p && p["search"] == searchQuery
            && ("confidential" in p <==> confidential != Null) && ("confidential" in p ==> p["confidential"] == confidential)
            && ("ref" in p <==> Truthy(ref)) && ("ref" in p ==> p["ref"] == ref)
  {
    var t := ProjectSearchRows(scope, searchQuery, confidential, ref, orderBy, sort, state);
    LemmaApplyAt(map[], t, 0);
    LemmaApplyAt(map[], t, 1);
    LemmaApplyAt(map[], t, 2);
    LemmaApplyAt(map[], t, 3);
  }

  /** The last three rows of the project search query, and its key set. */
  lemma LemmaProjectSearchRest(scope: Value, searchQuery: Value, confidential: Value, ref: Value,
                               orderBy: Value, sort: Value, state: Value)
    ensures var p := Apply(map[], ProjectSearchRows(scope, searchQuery, confidential, ref, orderBy, sort, state));
            ("order_by" in p <==> Truthy(orderBy)) && ("order_by" in p ==> p["order_by"] == orderBy)
            && ("sort" in p <==> Truthy(sort)) && ("sort" in p ==> p["sort"] == sort)
            && ("state" in p <==> Truthy(state)) && ("state" in p ==> p["state"] == state)
            && p.Keys <= {"scope", "search", "confidential", "ref", "order_by", "sort", "state"}
  {
    var t := ProjectSearchRows(scope, searchQuery, confidential, ref, orderBy, sort, state);
    LemmaApplyAt(map[], t, 4);
    LemmaApplyAt(map[], t, 5);
    LemmaApplyAt(map[], t, 6);
    LemmaApplyKeys(map[], t);
  }

  /** `gitlab_global_search` */
  method GlobalSearch(api: string, token: string, scope: Value, searchQuery: Value, confidential: Value,
                      orderBy: Value, sort: Value, state: Value, o: Outcome)
    returns (x: Exchange)
    ensures x.Remote? && x.request.verb == Get && x.request.url == api + "/search"
    ensures x.request.headers == AlwaysToken(map[], token)
    ensures SearchQuery(x.request.params, scope, searchQuery, confidential, orderBy, sort, state)
    ensures x.request.body == map[]
    ensures x.result == Standard(o)
  {
    var params := SearchParams(scope, searchQuery, confidential, orderBy, sort, state);
    x := Remote(Request(Get, api + "/search", AlwaysToken(map[], token), params, map[]), Standard(o));
  }

  /** `gitlab_search_within_group` */
  method GroupSearch(api: string, token: string, groupId: string, scope: Value, searchQuery: Value,
                     confidential: Value, orderBy: Value, sort: Value, state: Value, o: Outcome)
    returns (x: Exchange)
    ensures x.Remote? && x.request.verb == Get && x.request.url == api + "/groups/" + groupId + "/search"
    ensures x.request.headers == AlwaysToken(map[], token)
    ensures SearchQuery(x.request.params, scope, searchQuery, confidential, orderBy, sort, state)
    ensures x.request.body == map[]
    ensures x.result == Standard(o)
  {
    var params := SearchParams(scope, searchQuery, confidential, orderBy, sort, state);
    x := Remote(Request(Get, api + "/groups/" + groupId + "/search", AlwaysToken(map[], token), params, map[]),
                Standard(o));
  }

  /** `gitlab_search_within_project` */
  method ProjectSearch(api: string, token: string, projectId: string, scope: Value, searchQuery: Value,
                       confidential: Value, ref: Value, orderBy: Value, sort: Value, state: Value, o: Outcome)
    returns (x: Exchange)
    ensures x.Remote? && x.request.verb == Get && x.request.url == api + "/projects/" + projectId + "/search"
    ensures x.request.headers == AlwaysToken(map[], token)
    ensures ProjectSearchQuery(x.request.params, scope, searchQuery, confidential, ref, orderBy, sort, state)
    ensures x.request.body == map[]
    ensures x.result == Standard(o)
  {
    var params := ProjectSearchParams(scope, searchQuery, confidential, ref, orderBy, sort, state);
    x := Remote(Request(Get, api + "/projects/" + projectId + "/search", AlwaysToken(map[], token), params, map[]),
                Standard(o));
  }
}
