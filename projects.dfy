/**
 * Project tools (`server/mcp_tools/project_tools.py`).
 *
 * Almost every project tool writes PRIVATE-TOKEN into its header literal, so
 * the header is sent even when the token is empty (`AlwaysToken`); the one
 * exception is the avatar download, which uses the conditional form.
 * `create_project_for_user` sends the API URL as its token, as written.
 */
module Projects {
  import opened Values
  import opened Params
  import opened Http

  /** `f"{value}"` of an optional path argument: None is spelt "None". */
  function Interpolated(id: Option<string>): (t: string)
    ensures id.None? ==> t == "None"
    ensures id.Some? ==> t == id.value
  {
    match id
    case None => "None"
    case Some(s) => s
  }

  // ---------------------------------------------------------------------------
  // Reading projects

  /**
   * The query of `get_single_project`: each flag only when truthy, so the
   * default False is never sent and nothing falsy is ever sent.
   */
  predicate SingleProjectQuery(params: map<string, Value>, license: Value, statistics: Value,
                               withCustomAttributes: Value)
  {
    && ("license" in params <==> Truthy(license))
    && ("statistics" in params <==> Truthy(statistics))
    && ("with_custom_attributes" in params <==> Truthy(withCustomAttributes))
    && ("license" in params ==> params["license"] == license)
    && ("statistics" in params ==> params["statistics"] == statistics)
    && ("with_custom_attributes" in params ==> params["with_custom_attributes"] == withCustomAttributes)
    && (params.Keys <= {"license", "statistics", "with_custom_attributes"})
    && (forall k :: k in params ==> Truthy(params[k]))
  }

  /** Builds the query of `get_single_project`. */
  method SingleProjectParams(license: Value, statistics: Value, withCustomAttributes: Value)
    returns (params: map<string, Value>)
    ensures SingleProjectQuery(params, license, statistics, withCustomAttributes)
  {
    params := map[];
    if Truthy(license) {
      params := params["license" := license];
    }
    if Truthy(statistics) {
      params := params["statistics" := statistics];
    }
    if Truthy(withCustomAttributes) {
      params := params["with_custom_attributes" := withCustomAttributes];
    }
  }

  /** `get_single_project` */
  method GetSingleProject(api: string, token: string, projectId: string, license: Value, statistics: Value,
                          withCustomAttributes: Value, o: Outcome)
    returns (x: Exchange)
    ensures x.Remote? && x.request.verb == Get && x.request.url == api + "/projects/" + projectId
    ensures x.request.headers == AlwaysToken(map[], token)
    ensures SingleProjectQuery(x.request.params, license, statistics, withCustomAttributes) && x.request.body == map[]
    ensures x.result == Standard(o)
  {
    var params := SingleProjectParams(license, statistics, withCustomAttributes);
    x := Remote(Request(Get, api + "/projects/" + projectId, AlwaysToken(map[], token), params, map[]), Standard(o));
  }

  /** The filters of `list_projects`, in source order (first half). */
  const ProjectFiltersA: seq<string> := [
    "archived", "id_after", "id_before", "imported", "include_hidden", "include_pending_delete",
    "last_activity_after", "last_activity_before", "membership", "min_access_level", "order_by", "owned",
    "repository_checksum_failed", "repository_storage", "search", "search_namespaces"]

  /** The filters of `list_projects` (second half). */
  const ProjectFiltersB: seq<string> := [
    "simple", "starred", "statistics", "topic", "topic_id", "updated_after", "updated_before", "visibility",
    "wiki_checksum_failed", "with_custom_attributes", "with_issues_enabled", "with_merge_requests_enabled",
    "with_programming_language", "marked_for_deletion_on", "active"]

  const ProjectFilters: seq<string> := ProjectFiltersA + ProjectFiltersB

  lemma LemmaProjectFiltersA()
    ensures Distinct(ProjectFiltersA)
  {
  }

  lemma LemmaProjectFiltersB()
    ensures Distinct(ProjectFiltersB)
  {
  }

  lemma LemmaProjectFiltersApart()
    ensures Apart(ProjectFiltersA, ProjectFiltersB)
  {
  }

  lemma LemmaProjectFilters()
    ensures Distinct(ProjectFilters)
  {
    LemmaProjectFiltersA();
    LemmaProjectFiltersB();
    LemmaProjectFiltersApart();
    LemmaDistinctHalves(ProjectFiltersA, ProjectFiltersB);
  }

  /**
   * The chain of `if f is not None: params['f'] = f` in `list_projects`:
   * exactly the filters that are not None are sent, False and "" included.
   */
  method ListProjectsParams(values: seq<Value>) returns (params: map<string, Value>)
    requires |values| == |ProjectFilters|
    ensures forall i :: 0 <= i < |values| ==>
              (ProjectFilters[i] in params <==> values[i] != Null)
              && (values[i] != Null ==> params[ProjectFilters[i]] == values[i])
    ensures params.Keys == set i | 0 <= i < |values| && values[i] != Null :: ProjectFilters[i]
  {
    LemmaProjectFilters();
    var args := Zip(ProjectFilters, values);
    LemmaKeepNotNoneKeys(ProjectFilters, values);
    params := Insert(map[], NotNoneRows(args));
    LemmaNotNoneRows(map[], args);
    assert map[] + KeepNotNone(args) == KeepNotNone(args);
  }

  /**
   * `list_projects`: the URL always names a user, and a missing `user_id`
   * is interpolated as the text "None".
   */
  method ListProjects(api: string, token: string, userId: Option<string>, values: seq<Value>, o: Outcome)
    returns (x: Exchange)
    requires |values| == |ProjectFilters|
    ensures x.Remote? && x.request.verb == Get
    ensures x.request.url == api + "/users/" + Interpolated(userId) + "/projects"
    ensures userId.None? ==> x.request.url == api + "/users/None/projects"
    ensures x.request.headers == AlwaysToken(map[], token)
    ensures forall i :: 0 <= i < |values| ==>
              (ProjectFilters[i] in x.request.params <==> values[i] != Null)
              && (values[i] != Null ==> x.request.params[ProjectFilters[i]] == values[i])
    ensures x.request.params.Keys == set i | 0 <= i < |values| && values[i] != Null :: ProjectFilters[i]
    ensures x.request.body == map[]
    ensures x.result == Standard(o)
  {
    var params := ListProjectsParams(values);
    x := Remote(Request(Get, api + "/users/" + Interpolated(userId) + "/projects", AlwaysToken(map[], token), params, map[]),
                Standard(o));
  }

  /**
   * The answer of `list_user_contributed_projects`. An empty body is checked
   * before `raise_for_status()`, so it gives [] whatever the status; a JSON
   * body that is not a list, or no JSON at all, gives a dictionary of its own.
   */
  function ContributedResult(o: Outcome): Value
  {
    if o.Received? && o.response.content == [] then List([])
    else if Fails(o) then Failure(o)
    else
      match o.response.json
      case Parsed(v) =>
        if v.List? then v else Dict(map["error" := Str("Unexpected response format"), "response" := v])
      case Unparsable(_) =>
        Dict(map["error" := Str("Failed to parse JSON response"), "raw_response" := Str(o.response.text)])
  }

  /**
   * The contributed-projects answer is always a list or a dictionary with an
   * "error" key; it is one of the shared error dictionaries exactly when the
   * exchange failed with a non-empty body, and an empty body gives [] even
   * for an error status.
   */
  lemma LemmaContributedResult(o: Outcome)
    ensures var r := ContributedResult(o);
      r.List? || (r.Dict? && "error" in r.fields)
    ensures ReadError(ContributedResult(o)).Some? <==> Fails(o) && !(o.Received? && o.response.content == [])
    ensures o.Received? && o.response.content == [] ==> ContributedResult(o) == List([])
    ensures o.Received? && o.response.content != [] && !Fails(o) && o.response.json.Parsed? ==>
              (o.response.json.value.List? ==> ContributedResult(o) == o.response.json.value)
  {
    var r := ContributedResult(o);
    if Fails(o) && !(o.Received? && o.response.content == []) {
      LemmaFailureChain(o);
    } else if r.Dict? {
      assert "error" in r.fields && r.fields.Keys != {"error"} && r.fields.Keys != {"error", "details"} by {
        if o.response.json.Parsed? {
          assert "response" in r.fields;
        } else {
          assert "raw_response" in r.fields;
        }
      }
    }
  }

  /** The query of `list_user_contributed_projects`: each option when not None. */
  predicate ContributedQuery(params: map<string, Value>, orderBy: Value, simple: Value, sort: Value)
  {
    && ("order_by" in params <==> orderBy != Null)
    && ("simple" in params <==> simple != Null)
    && ("sort" in params <==> sort != Null)
    && ("order_by" in params ==> params["order_by"] == orderBy)
    && ("simple" in params ==> params["simple"] == simple)
    && ("sort" in params ==> params["sort"] == sort)
    && (params.Keys <= {"order_by", "simple", "sort"})
  }

  /** Builds the query of `list_user_contributed_projects`. */
  method ContributedParams(orderBy: Value, simple: Value, sort: Value) returns (params: map<string, Value>)
    ensures ContributedQuery(params, orderBy, simple, sort)
  {
    params := map[];
    if orderBy != Null {
      params := params["order_by" := orderBy];
    }
    if simple != Null {
      params := params["simple" := simple];
    }
    if sort != Null {
      params := params["sort" := sort];
    }
  }

  /** `list_user_contributed_projects` */
  method ListUserContributedProjects(api: string, token: string, userId: string, orderBy: Value, simple: Value,
                                     sort: Value, o: Outcome)
    returns (x: Exchange)
    ensures x.Remote? && x.request.verb == Get
    ensures x.request.url == api + "/users/" + userId + "/contributed_projects"
    ensures x.request.headers == AlwaysToken(JsonContent, token)
    ensures ContributedQuery(x.request.params, orderBy, simple, sort) && x.request.body == map[]
    ensures x.result == ContributedResult(o)
  {
    var params := ContributedParams(orderBy, simple, sort);
    x := Remote(Request(Get, api + "/users/" + userId + "/contributed_projects", AlwaysToken(JsonContent, token), params,
                        map[]), ContributedResult(o));
  }

  /** `search_projects_by_name`: `search` always, `order_by` and `sort` when not None. */
  method SearchProjectsByName(api: string, token: string, search: Value, orderBy: Value, sort: Value, o: Outcome)
    returns (x: Exchange)
    ensures x.Remote? && x.request.verb == Get && x.request.url == api + "/projects"
    ensures x.request.headers == AlwaysToken(map[], token)
    ensures "search" in x.request.params && x.request.params["search"] == search
    ensures "order_by" in x.request.params <==> orderBy != Null
    ensures "sort" in x.request.params <==> sort != Null
    ensures "order_by" in x.request.params ==> x.request.params["order_by"] == orderBy
    ensures "sort" in x.request.params ==> x.request.params["sort"] == sort
    ensures x.request.params.Keys <= {"search", "order_by", "sort"}
    ensures x.request.body == map[]
    ensures x.result == Standard(o)
  {
    var params := map["search" := search];
    if orderBy != Null {
      params := params["order_by" := orderBy];
    }
    if sort != Null {
      params := params["sort" := sort];
    }
    x := Remote(Request(Get, api + "/projects", AlwaysToken(map[], token), params, map[]), Standard(o));
  }

  // ---------------------------------------------------------------------------
  // Comma-joined lists

  /** `if ids is not None: params[key] = ','.join(map(str, ids))` */
  function IfIdsGiven(key: string, ids: Option<seq<int>>): (row: Insertion)
    ensures row.key == key && (row.cond <==> ids.Some?)
    ensures ids.Some? ==> row.value == Str(JoinIds(ids.value))
  {
    Insertion(key, ids.Some?, if ids.Some? then Str(JoinIds(ids.value)) else Null)
  }

  /** `if names is not None: params[key] = ','.join(names)` */
  function IfNamesGiven(key: string, names: Option<seq<string>>): (row: Insertion)
    ensures row.key == key && (row.cond <==> names.Some?)
    ensures names.Some? ==> row.value == Str(Join(names.value))
  {
    Insertion(key, names.Some?, if names.Some? then Str(Join(names.value)) else Null)
  }

  /**
   * `list_project_users`: `search` when not None; `skip_users` as the
   * comma-joined decimal ids, from which a non-empty id list reads back.
   */
  method ListProjectUsers(api: string, token: string, projectId: string, search: Value, skipUsers: Option<seq<int>>,
                          o: Outcome)
    returns (x: Exchange)
    ensures x.Remote? && x.request.verb == Get && x.request.url == api + "/projects/" + projectId + "/users"
    ensures x.request.headers == AlwaysToken(map[], token)
    ensures "search" in x.request.params <==> search != Null
    ensures "search" in x.request.params ==> x.request.params["search"] == search
    ensures "skip_users" in x.request.params <==> skipUsers.Some?
    ensures skipUsers.Some? ==> x.request.params["skip_users"] == Str(JoinIds(skipUsers.value))
    ensures skipUsers.Some? && |skipUsers.value| > 0 ==>
              ParseIds(x.request.params["skip_users"].s) == Some(skipUsers.value)
    ensures x.request.params.Keys <= {"search", "skip_users"}
    ensures x.request.body == map[]
    ensures x.result == Standard(o)
  {
    var params := map[];
    if search != Null {
      params := params["search" := search];
    }
    if skipUsers.Some? {
      params := params["skip_users" := Str(JoinIds(skipUsers.value))];
      if |skipUsers.value| > 0 {
        LemmaIdsRoundTrip(skipUsers.value);
      }
    }
    x := Remote(Request(Get, api + "/projects/" + projectId + "/users", AlwaysToken(map[], token), params, map[]),
                Standard(o));
  }

  function ProjectGroupsRows(search: Value, sharedMinAccessLevel: Value, sharedVisibleOnly: Value,
                             skipGroups: Option<seq<int>>, withShared: Value): seq<Insertion>
  {
    [IfNotNone("search", search), IfNotNone("shared_min_access_level", sharedMinAccessLevel),
     IfNotNone("shared_visible_only", sharedVisibleOnly), IfIdsGiven("skip_groups", skipGroups),
     IfNotNone("with_shared", withShared)]
  }

  /**
   * The query of `list_project_groups`: each option when not None, and
   * `skip_groups` as the comma-joined decimal ids.
   */
  predicate ProjectGroupsQuery(params: map<string, Value>, search: Value, sharedMinAccessLevel: Value,
                               sharedVisibleOnly: Value, skipGroups: Option<seq<int>>, withShared: Value)
  {
    && ("search" in params <==> search != Null)
    && ("shared_min_access_level" in params <==> sharedMinAccessLevel != Null)
    && ("shared_visible_only" in params <==> sharedVisibleOnly != Null)
    && ("skip_groups" in params <==> skipGroups.Some?)
    && ("with_shared" in params <==> withShared != Null)
    && ("search" in params ==> params["search"] == search)
    && ("shared_min_access_level" in params ==> params["shared_min_access_level"] == sharedMinAccessLevel)
    && ("shared_visible_only" in params ==> params["shared_visible_only"] == sharedVisibleOnly)
    && ("skip_groups" in params ==> params["skip_groups"] == Str(JoinIds(skipGroups.value)))
    && ("with_shared" in params ==> params["with_shared"] == withShared)
    && (params.Keys <= {"search", "shared_min_access_level", "shared_visible_only", "skip_groups", "with_shared"})
  }

  /** Builds the query of `list_project_groups`. */
  method ProjectGroupsParams(search: Value, sharedMinAccessLevel: Value, sharedVisibleOnly: Value,
                             skipGroups: Option<seq<int>>, withShared: Value)
    returns (params: map<string, Value>)
    ensures ProjectGroupsQuery(params, search, sharedMinAccessLevel, sharedVisibleOnly, skipGroups, withShared)
  {
    var t := ProjectGroupsRows(search, sharedMinAccessLevel, sharedVisibleOnly, skipGroups, withShared);
    params := Insert(map[], t);
    LemmaApplyAt(map[], t, 0);
    LemmaApplyAt(map[], t, 1);
    LemmaApplyAt(map[], t, 2);
    LemmaApplyAt(map[], t, 3);
    LemmaApplyAt(map[], t, 4);
    LemmaApplyKeys(map[], t);
  }

  /** `list_project_groups` */
  method ListProjectGroups(api: string, token: string, projectId: string, search: Value, sharedMinAccessLevel: Value,
                           sharedVisibleOnly: Value, skipGroups: Option<seq<int>>, withShared: Value, o: Outcome)
    returns (x: Exchange)
    ensures x.Remote? && x.request.verb == Get && x.request.url == api + "/projects/" + projectId + "/groups"
    ensures x.request.headers == AlwaysToken(map[], token)
    ensures ProjectGroupsQuery(x.request.params, search, sharedMinAccessLevel, sharedVisibleOnly, skipGroups, withShared)
    ensures x.request.body == map[]
    ensures skipGroups.Some? && |skipGroups.value| > 0 ==>
              ParseIds(x.request.params["skip_groups"].s) == Some(skipGroups.value)
    ensures x.result == Standard(o)
  {
    var params := ProjectGroupsParams(search, sharedMinAccessLevel, sharedVisibleOnly, skipGroups, withShared);
    if skipGroups.Some? && |skipGroups.value| > 0 {
      LemmaIdsRoundTrip(skipGroups.value);
    }
    x := Remote(Request(Get, api + "/projects/" + projectId + "/groups", AlwaysToken(map[], token), params, map[]),
                Standard(o));
  }

  /** `list_project_shareable_groups`: `search` when not None. */
  method ListProjectShareableGroups(api: string, token: string, projectId: string, search: Value, o: Outcome)
    returns (x: Exchange)
    ensures x.Remote? && x.request.verb == Get && x.request.url == api + "/projects/" + projectId + "/share_locations"
    ensures x.request.headers == AlwaysToken(map[], token)
    ensures "search" in x.request.params <==> search != Null
    ensures "search" in x.request.params ==> x.request.params["search"] == search
    ensures x.request.params.Keys <= {"search"}
    ensures x.request.body == map[]
    ensures x.result == Standard(o)
  {
    var params := map[];
    if search != Null {
      params := params["search" := search];
    }
    x := Remote(Request(Get, api + "/projects/" + projectId + "/share_locations", AlwaysToken(map[], token), params, map[]),
                Standard(o));
  }

  function InvitedGroupsRows(search: Value, minAccessLevel: Value, relation: Option<seq<string>>,
                             withCustomAttributes: Value): seq<Insertion>
  {
    [IfNotNone("search", search), IfNotNone("min_access_level", minAccessLevel), IfNamesGiven("relation", relation),
     IfNotNone("with_custom_attributes", withCustomAttributes)]
  }

  /**
   * The query of `list_project_invited_groups`: each option when not None,
   * and `relation` comma-joined.
   */
  predicate InvitedGroupsQuery(params: map<string, Value>, search: Value, minAccessLevel: Value,
                               relation: Option<seq<string>>, withCustomAttributes: Value)
  {
    && ("search" in params <==> search != Null)
    && ("min_access_level" in params <==> minAccessLevel != Null)
    && ("relation" in params <==> relation.Some?)
    && ("with_custom_attributes" in params <==> withCustomAttributes != Null)
    && ("search" in params ==> params["search"] == search)
    && ("min_access_level" in params ==> params["min_access_level"] == minAccessLevel)
    && ("relation" in params ==> params["relation"] == Str(Join(relation.value)))
    && ("with_custom_attributes" in params ==> params["with_custom_attributes"] == withCustomAttributes)
    && (params.Keys <= {"search", "min_access_level", "relation", "with_custom_attributes"})
  }

  /** Builds the query of `list_project_invited_groups`. */
  method InvitedGroupsParams(search: Value, minAccessLevel: Value, relation: Option<seq<string>>,
                             withCustomAttributes: Value)
    returns (params: map<string, Value>)
    ensures InvitedGroupsQuery(params, search, minAccessLevel, relation, withCustomAttributes)
  {
    var t := InvitedGroupsRows(search, minAccessLevel, relation, withCustomAttributes);
    params := Insert(map[], t);
    LemmaApplyAt(map[], t, 0);
    LemmaApplyAt(map[], t, 1);
    LemmaApplyAt(map[], t, 2);
    LemmaApplyAt(map[], t, 3);
    LemmaApplyKeys(map[], t);
  }

  /**
   * `list_project_invited_groups`: a non-empty relation list whose names hold
   * no comma is read back from the joined text by splitting at commas.
   */
  method ListProjectInvitedGroups(api: string, token: string, projectId: string, search: Value, minAccessLevel: Value,
                                  relation: Option<seq<string>>, withCustomAttributes: Value, o: Outcome)
    returns (x: Exchange)
    ensures x.Remote? && x.request.verb == Get && x.request.url == api + "/projects/" + projectId + "/invited_groups"
    ensures x.request.headers == AlwaysToken(map[], token)
    ensures InvitedGroupsQuery(x.request.params, search, minAccessLevel, relation, withCustomAttributes)
    ensures x.request.body == map[]
    ensures relation.Some? && |relation.value| > 0 && (forall k :: 0 <= k < |relation.value| ==> ',' !in relation.value[k]) ==>
              Split(x.request.params["relation"].s) == relation.value
    ensures x.result == Standard(o)
  {
    var params := InvitedGroupsParams(search, minAccessLevel, relation, withCustomAttributes);
    if relation.Some? && |relation.value| > 0 && (forall k :: 0 <= k < |relation.value| ==> ',' !in relation.value[k]) {
      LemmaJoinSplit(relation.value);
    }
    x := Remote(Request(Get, api + "/projects/" + projectId + "/invited_groups", AlwaysToken(map[], token), params, map[]),
                Standard(o));
  }

  /** `list_project_languages` */
  method ListProjectLanguages(api: string, token: string, projectId: string, o: Outcome) returns (x: Exchange)
    ensures x.Remote? && x.request.verb == Get && x.request.url == api + "/projects/" + projectId + "/languages"
    ensures x.request.headers == AlwaysToken(map[], token) && x.request.params == map[]
    ensures x.request.body == map[]
    ensures x.result == Standard(o)
  {
    x := Remote(Request(Get, api + "/projects/" + projectId + "/languages", AlwaysToken(map[], token), map[], map[]),
                Standard(o));
  }

  // ---------------------------------------------------------------------------
  // Creating and editing projects

  /**
   * The keyword arguments of a create or edit payload other than `name` and
   * `path`: pairwise distinct, and neither of those two.
   */
  predicate OtherFields(fields: seq<Arg>)
  {
    DistinctNames(fields) && forall i :: 0 <= i < |fields| ==> fields[i].0 != "name" && fields[i].0 != "path"
  }

  /** The payload literal: `name`, `path`, then the other fields. */
  function ProjectPayload(name: Value, path: Value, fields: seq<Arg>): (args: seq<Arg>)
    requires OtherFields(fields)
    ensures DistinctNames(args)
  {
    var args := [("name", name), ("path", path)] + fields;
    assert forall i :: 0 <= i < |fields| ==> args[i + 2] == fields[i];
    args
  }

  /** `name` and `path` survive the None-dropping comprehension exactly when they are not None. */
  lemma LemmaPayloadNamePath(name: Value, path: Value, fields: seq<Arg>)
    requires OtherFields(fields)
    ensures var p := KeepNotNone(ProjectPayload(name, path, fields));
      ("name" in p <==> name != Null) && ("path" in p <==> path != Null)
      && (name != Null ==> p["name"] == name) && (path != Null ==> p["path"] == path)
  {
    var args := ProjectPayload(name, path, fields);
    assert args == [("name", name), ("path", path)] + fields;
    assert args[0] == ("name", name) && args[1] == ("path", path);
  }

  /**
   * Every other field survives the comprehension exactly when it is not
   * None, and nothing outside the literal's names appears.
   */
  lemma LemmaPayloadFields(name: Value, path: Value, fields: seq<Arg>)
    requires OtherFields(fields)
    ensures var p := KeepNotNone(ProjectPayload(name, path, fields));
      (forall i :: 0 <= i < |fields| ==>
         (fields[i].0 in p <==> fields[i].1 != Null) && (fields[i].1 != Null ==> p[fields[i].0] == fields[i].1))
      && p.Keys <= {"name", "path"} + Names(fields)
  {
    var args := ProjectPayload(name, path, fields);
    assert args == [("name", name), ("path", path)] + fields;
    var p := KeepNotNone(args);
    forall i | 0 <= i < |fields|
      ensures (fields[i].0 in p <==> fields[i].1 != Null) && (fields[i].1 != Null ==> p[fields[i].0] == fields[i].1)
    {
      assert args[i + 2] == fields[i];
    }
    forall k | k in p
      ensures k in {"name", "path"} + Names(fields)
    {
      var j :| 0 <= j < |args| && args[j].0 == k;
      if j >= 2 {
        assert args[j] == fields[j - 2];
      }
    }
  }

  const CreateRefused: Value := Dict(map[
    "error" := Str("Validation Error"),
    "details" := Str("Either 'name' or 'path' must be provided to create a project.")])

  /**
   * `create_project`: the payload is every field that is not None; when
   * neither `name` nor `path` survives the filter the tool refuses locally.
   */
  method CreateProject(api: string, token: string, name: Value, path: Value, fields: seq<Arg>, o: Outcome)
    returns (x: Exchange)
    requires OtherFields(fields)
    ensures x.Local? <==> name == Null && path == Null
    ensures x.Local? ==> x.result == CreateRefused
    ensures x.Remote? ==> x.request.verb == Post && x.request.url == api + "/projects"
    ensures x.Remote? ==> x.request.headers == AlwaysToken(JsonContent, token) && x.request.params == map[]
    ensures x.Remote? ==> x.request.body == KeepNotNone(ProjectPayload(name, path, fields))
    ensures x.Remote? ==> ("name" in x.request.body || "path" in x.request.body)
    ensures x.Remote? ==> x.result == Standard(o)
  {
    var payload := KeepNotNone(ProjectPayload(name, path, fields));
    LemmaPayloadNamePath(name, path, fields);
    if "name" !in payload && "path" !in payload {
      return Local(CreateRefused);
    }
    x := Remote(Request(Post, api + "/projects", AlwaysToken(JsonContent, token), map[], payload), Standard(o));
  }

  const CreateForUserRefused: Value := Dict(map[
    "error" := Str("Validation Error"),
    "details" := Str("'name' is required to create a project for a user.")])

  /**
   * `create_project_for_user`: refused locally unless `name` is present and
   * truthy after the filter. The PRIVATE-TOKEN header carries the API URL,
   * not the token: the tool never reads the token.
   */
  method CreateProjectForUser(api: string, userId: string, name: Value, path: Value, fields: seq<Arg>, o: Outcome)
    returns (x: Exchange)
    requires OtherFields(fields)
    ensures x.Local? <==> !Truthy(name)
    ensures x.Local? ==> x.result == CreateForUserRefused
    ensures x.Remote? ==> x.request.verb == Post && x.request.url == api + "/projects/user/" + userId
    ensures x.Remote? ==> x.request.headers == AlwaysToken(JsonContent, api) && x.request.headers["PRIVATE-TOKEN"] == api
    ensures x.Remote? ==> x.request.body == KeepNotNone(ProjectPayload(name, path, fields))
    ensures x.Remote? ==> "name" in x.request.body && x.request.body["name"] == name
    ensures x.Remote? ==> x.result == Standard(o)
    ensures x.Remote? ==> x.request.params == map[]
  {
    var payload := KeepNotNone(ProjectPayload(name, path, fields));
    LemmaPayloadNamePath(name, path, fields);
    if "name" !in payload || !Truthy(payload["name"]) {
      return Local(CreateForUserRefused);
    }
    x := Remote(Request(Post, api + "/projects/user/" + userId, AlwaysToken(JsonContent, api), map[], payload),
                Standard(o));
  }

  const EditSkipped: Value := Dict(map["warning" := Str("No fields provided for update. The API was not called.")])

  /**
   * `edit_project`: the payload is every field that is not None; when none
   * is, the tool answers a warning and sends nothing.
   */
  method EditProject(api: string, token: string, projectId: string, fields: seq<Arg>, o: Outcome)
    returns (x: Exchange)
    requires DistinctNames(fields)
    ensures x.Local? <==> forall i :: 0 <= i < |fields| ==> fields[i].1 == Null
    ensures x.Local? ==> x.result == EditSkipped
    ensures x.Remote? ==> x.request.verb == Put && x.request.url == api + "/projects/" + projectId
    ensures x.Remote? ==> x.request.headers == AlwaysToken(JsonContent, token)
    ensures x.Remote? ==> x.request.body == KeepNotNone(fields) && x.request.body != map[]
    ensures x.Remote? ==> x.result == Standard(o)
    ensures x.Remote? ==> x.request.params == map[]
  {
    var payload := KeepNotNone(fields);
    LemmaKeepNotNoneEmpty(fields);
    if payload == map[] {
      return Local(EditSkipped);
    }
    x := Remote(Request(Put, api + "/projects/" + projectId, AlwaysToken(JsonContent, token), map[], payload), Standard(o));
  }

  /** `import_project_members` */
  method ImportProjectMembers(api: string, token: string, targetProjectId: string, sourceProjectId: string, o: Outcome)
    returns (x: Exchange)
    ensures x.Remote? && x.request.verb == Post
    ensures x.request.url == api + "/projects/" + targetProjectId + "/import_project_members/" + sourceProjectId
    ensures x.request.headers == AlwaysToken(JsonContent, token)
    ensures x.request.params == map[] && x.request.body == map[]
    ensures x.result == Standard(o)
  {
    x := Remote(Request(Post, api + "/projects/" + targetProjectId + "/import_project_members/" + sourceProjectId,
                        AlwaysToken(JsonContent, token), map[], map[]), Standard(o));
  }

  /** The request shared by the project actions without arguments below. */
  method ProjectAction(api: string, token: string, projectId: string, action: string, o: Outcome)
    returns (x: Exchange)
    ensures x.Remote? && x.request.verb == Post && x.request.url == api + "/projects/" + projectId + "/" + action
    ensures x.request.headers == AlwaysToken(JsonContent, token)
    ensures x.request.params == map[] && x.request.body == map[]
    ensures x.result == Standard(o)
  {
    x := Remote(Request(Post, api + "/projects/" + projectId + "/" + action, AlwaysToken(JsonContent, token), map[], map[]),
                Standard(o));
  }

  /** `archive_project` */
  method ArchiveProject(api: string, token: string, projectId: string, o: Outcome) returns (x: Exchange)
    ensures x.Remote? && x.request.verb == Post && x.request.url == api + "/projects/" + projectId + "/" + "archive"
    ensures x.request.headers == AlwaysToken(JsonContent, token)
    ensures x.request.params == map[] && x.request.body == map[]
    ensures x.result == Standard(o)
  {
    x := ProjectAction(api, token, projectId, "archive", o);
  }

  /** `unarchive_project` */
  method UnarchiveProject(api: string, token: string, projectId: string, o: Outcome) returns (x: Exchange)
    ensures x.Remote? && x.request.verb == Post && x.request.url == api + "/projects/" + projectId + "/" + "unarchive"
    ensures x.request.headers == AlwaysToken(JsonContent, token)
    ensures x.request.params == map[] && x.request.body == map[]
    ensures x.result == Standard(o)
  {
    x := ProjectAction(api, token, projectId, "unarchive", o);
  }

  /** `restore_project` */
  method RestoreProject(api: string, token: string, projectId: string, o: Outcome) returns (x: Exchange)
    ensures x.Remote? && x.request.verb == Post && x.request.url == api + "/projects/" + projectId + "/" + "restore"
    ensures x.request.headers == AlwaysToken(JsonContent, token)
    ensures x.request.params == map[] && x.request.body == map[]
    ensures x.result == Standard(o)
  {
    x := ProjectAction(api, token, projectId, "restore", o);
  }

  /** `transfer_project`: the body is exactly the target namespace. */
  method TransferProject(api: string, token: string, projectId: string, namespace: Value, o: Outcome)
    returns (x: Exchange)
    ensures x.Remote? && x.request.verb == Put && x.request.url == api + "/projects/" + projectId + "/transfer"
    ensures x.request.headers == AlwaysToken(JsonContent, token)
    ensures x.request.body.Keys == {"namespace"} && x.request.body["namespace"] == namespace
    ensures x.request.params == map[]
    ensures x.result == Standard(o)
  {
    x := Remote(Request(Put, api + "/projects/" + projectId + "/transfer", AlwaysToken(JsonContent, token), map[],
                        map["namespace" := namespace]), Standard(o));
  }

  /** `list_transfer_locations`: `search` only when truthy. */
  method ListTransferLocations(api: string, token: string, projectId: string, search: Value, o: Outcome)
    returns (x: Exchange)
    ensures x.Remote? && x.request.verb == Get
    ensures x.request.url == api + "/projects/" + projectId + "/transfer_locations"
    ensures x.request.headers == AlwaysToken(map[], token)
    ensures "search" in x.request.params <==> Truthy(search)
    ensures "search" in x.request.params ==> x.request.params["search"] == search
    ensures x.request.params.Keys <= {"search"}
    ensures x.request.body == map[]
    ensures x.result == Standard(o)
  {
    var params := map[];
    if Truthy(search) {
      params := params["search" := search];
    }
    x := Remote(Request(Get, api + "/projects/" + projectId + "/transfer_locations", AlwaysToken(map[], token), params,
                        map[]), Standard(o));
  }

  // ---------------------------------------------------------------------------
  // Deleting a project

  /** How `delete_project` describes a successful status. */
  function DeletionState(status: int): string
  {
    if status == 204 then "immediately deleted" else "queued for deletion"
  }

  function ProjectDeletedMessage(projectId: string, status: int): string
  {
    "Project '" + projectId + "' successfully " + DeletionState(status) + " (HTTP " + DecimalText(status) + ")."
  }

  /**
   * The answer of `delete_project`: 204 and 202 give a message; any other
   * non-error status makes the function fall off its end after
   * `raise_for_status()`, which is None.
   */
  function DeleteProjectResult(projectId: string, o: Outcome): Value
  {
    if Fails(o) then Failure(o)
    else if o.response.status == 204 || o.response.status == 202 then Str(ProjectDeletedMessage(projectId, o.response.status))
    else Null
  }

  /**
   * Deleting a project answers a message exactly for 202 and 204, never
   * decoding the body; the message tells the two apart ("immediately
   * deleted" for 204, "queued for deletion" for 202) and the status reads
   * back from it.
   */
  lemma LemmaDeleteProjectResult(projectId: string, o: Outcome)
    ensures Fails(o) ==> DeleteProjectResult(projectId, o) == Failure(o)
    ensures DeleteProjectResult(projectId, o).Str? <==> o.Received? && (o.response.status == 202 || o.response.status == 204)
    ensures !Fails(o) && o.response.status != 202 && o.response.status != 204 ==> DeleteProjectResult(projectId, o) == Null
    ensures DeleteProjectResult(projectId, o).Str? ==>
              var m := DeleteProjectResult(projectId, o).s;
              var lead := "Project '" + projectId + "' successfully " + DeletionState(o.response.status) + " (HTTP ";
              lead <= m && ParseInt(m[|lead|..|m| - 2]) == Some(o.response.status)
    ensures DeletionState(204) == "immediately deleted" && DeletionState(202) == "queued for deletion"
    ensures ProjectDeletedMessage(projectId, 204) != ProjectDeletedMessage(projectId, 202)
  {
    var prefix := "Project '" + projectId + "' successfully ";
    var m4 := ProjectDeletedMessage(projectId, 204);
    var m2 := ProjectDeletedMessage(projectId, 202);
    assert m4 == prefix + ("immediately deleted" + " (HTTP " + DecimalText(204) + ").");
    assert m2 == prefix + ("queued for deletion" + " (HTTP " + DecimalText(202) + ").");
    assert m4[|prefix|] == 'i' && m2[|prefix|] == 'q';
    if DeleteProjectResult(projectId, o).Str? {
      var status := o.response.status;
      var lead := prefix + DeletionState(status) + " (HTTP ";
      var m := ProjectDeletedMessage(projectId, status);
      assert m == lead + DecimalText(status) + ").";
      assert lead <= m && m[|lead|..|m| - 2] == DecimalText(status);
      LemmaDecimalRoundTrip(status);
    }
  }

  /** `delete_project`: `full_path` and `permanently_remove` each when not None. */
  method DeleteProject(api: string, token: string, projectId: string, fullPath: Value, permanentlyRemove: Value,
                       o: Outcome)
    returns (x: Exchange)
    ensures x.Remote? && x.request.verb == Delete && x.request.url == api + "/projects/" + projectId
    ensures x.request.headers == AlwaysToken(map[], token)
    ensures "full_path" in x.request.params <==> fullPath != Null
    ensures "permanently_remove" in x.request.params <==> permanentlyRemove != Null
    ensures "full_path" in x.request.params ==> x.request.params["full_path"] == fullPath
    ensures "permanently_remove" in x.request.params ==> x.request.params["permanently_remove"] == permanentlyRemove
    ensures x.request.params.Keys <= {"full_path", "permanently_remove"}
    ensures x.request.body == map[]
    ensures x.result == DeleteProjectResult(projectId, o)
  {
    var params := map[];
    if fullPath != Null {
      params := params["full_path" := fullPath];
    }
    if permanentlyRemove != Null {
      params := params["permanently_remove" := permanentlyRemove];
    }
    x := Remote(Request(Delete, api + "/projects/" + projectId, AlwaysToken(map[], token), params, map[]),
                DeleteProjectResult(projectId, o));
  }

  // ---------------------------------------------------------------------------
  // Avatar, sharing, housekeeping, scanning, storage, snapshot

  /**
   * The answer of `download_project_avatar`: errors always carry the body
   * text; on success the image bytes are returned, or, when a `savePath` is
   * given, the outcome of writing them there (`written` is None when the
   * write succeeded and the I/O error text otherwise).
   */
  function AvatarResult(savePath: Option<string>, written: Option<string>, o: Outcome): Value
  {
    if Fails(o) then TextFailure(o)
    else if savePath.Some? && savePath.value != "" then
      match written
      case None => Str("Avatar successfully saved to " + savePath.value)
      case Some(e) => Dict(map["error" := Str("File Write Error"), "details" := Str(e)])
    else Bytes(o.response.content)
  }

  /**
   * Without a save path the avatar bytes come back unchanged; every HTTP
   * error reports the body text, even when it is JSON.
   */
  lemma LemmaAvatarResult(savePath: Option<string>, written: Option<string>, o: Outcome)
    ensures !Fails(o) && (savePath.None? || savePath.value == "") ==> AvatarResult(savePath, written, o) == Bytes(o.response.content)
    ensures o.Received? && Fails(o) ==>
              ReadError(AvatarResult(savePath, written, o)) == Some(HttpFailure(o.response.errorText, Str(o.response.text)))
    ensures o.Transport? ==> ReadError(AvatarResult(savePath, written, o)) == Some(NetworkFailure(o.message))
  {
    if Fails(o) {
      LemmaTextFailure(o);
      LemmaFailureChain(o);
    }
  }

  /** `download_project_avatar`: the only project tool whose token header is conditional. */
  method DownloadProjectAvatar(api: string, token: string, projectId: string, savePath: Option<string>,
                               written: Option<string>, o: Outcome)
    returns (x: Exchange)
    ensures x.Remote? && x.request.verb == Get && x.request.url == api + "/projects/" + projectId + "/avatar"
    ensures x.request.headers == WithToken(map[], token)
    ensures x.request.params == map[] && x.request.body == map[]
    ensures x.result == AvatarResult(savePath, written, o)
  {
    x := Remote(Request(Get, api + "/projects/" + projectId + "/avatar", WithToken(map[], token), map[], map[]),
                AvatarResult(savePath, written, o));
  }

  /** `remove_project_avatar`: the form body is exactly an empty avatar. */
  method RemoveProjectAvatar(api: string, token: string, projectId: string, o: Outcome) returns (x: Exchange)
    ensures x.Remote? && x.request.verb == Put && x.request.url == api + "/projects/" + projectId
    ensures x.request.headers == AlwaysToken(map[], token)
    ensures x.request.body.Keys == {"avatar"} && x.request.body["avatar"] == Str("")
    ensures x.request.params == map[]
    ensures x.result == Standard(o)
  {
    x := Remote(Request(Put, api + "/projects/" + projectId, AlwaysToken(map[], token), map[], map["avatar" := Str("")]),
                Standard(o));
  }

  /** `share_project_with_group`: both ids always; `expires_at` only when truthy. */
  method ShareProjectWithGroup(api: string, token: string, projectId: string, groupId: int, groupAccess: int,
                               expiresAt: Value, o: Outcome)
    returns (x: Exchange)
    ensures x.Remote? && x.request.verb == Post && x.request.url == api + "/projects/" + projectId + "/share"
    ensures x.request.headers == AlwaysToken(map[], token)
    ensures "group_id" in x.request.body && x.request.body["group_id"] == Int(groupId)
    ensures "group_access" in x.request.body && x.request.body["group_access"] == Int(groupAccess)
    ensures "expires_at" in x.request.body <==> Truthy(expiresAt)
    ensures "expires_at" in x.request.body ==> x.request.body["expires_at"] == expiresAt
    ensures x.request.body.Keys <= {"group_id", "group_access", "expires_at"}
    ensures x.request.params == map[]
    ensures x.result == Standard(o)
  {
    var data := map["group_id" := Int(groupId), "group_access" := Int(groupAccess)];
    if Truthy(expiresAt) {
      data := data["expires_at" := expiresAt];
    }
    x := Remote(Request(Post, api + "/projects/" + projectId + "/share", AlwaysToken(map[], token), map[], data), Standard(o));
  }

  /** The answer of `unshare_project_from_group`; the body is never decoded. */
  function UnshareResult(projectId: string, groupId: int, o: Outcome): Value
  {
    if Fails(o) then Failure(o)
    else if o.response.status == 204 then
      Dict(map["success" := Str("Project " + projectId + " unshared from group " + DecimalText(groupId) + ".")])
    else Dict(map["warning" := Str("Unshare request completed with status code " + DecimalText(o.response.status) + ".")])
  }

  /**
   * Unsharing answers "success" for 204 and, for any other non-error status,
   * a "warning" from which the status reads back.
   */
  lemma LemmaUnshareResult(projectId: string, groupId: int, o: Outcome)
    ensures Fails(o) ==> UnshareResult(projectId, groupId, o) == Failure(o)
    ensures !Fails(o) ==> var r := UnshareResult(projectId, groupId, o);
      r.Dict? && ReadError(r) == None && ("success" in r.fields <==> o.response.status == 204)
    ensures !Fails(o) && o.response.status != 204 ==>
              var w := UnshareResult(projectId, groupId, o).fields["warning"].s;
              var prefix := "Unshare request completed with status code ";
              prefix <= w && ParseInt(w[|prefix|..|w| - 1]) == Some(o.response.status)
  {
    if !Fails(o) && o.response.status != 204 {
      var prefix := "Unshare request completed with status code ";
      var w := prefix + DecimalText(o.response.status) + ".";
      assert prefix <= w && w[|prefix|..|w| - 1] == DecimalText(o.response.status);
      LemmaDecimalRoundTrip(o.response.status);
    }
  }

  /** `unshare_project_from_group` */
  method UnshareProjectFromGroup(api: string, token: string, projectId: string, groupId: int, o: Outcome)
    returns (x: Exchange)
    ensures x.Remote? && x.request.verb == Delete
    ensures x.request.url == api + "/projects/" + projectId + "/share/" + DecimalText(groupId)
    ensures x.request.headers == AlwaysToken(map[], token)
    ensures x.request.params == map[] && x.request.body == map[]
    ensures x.result == UnshareResult(projectId, groupId, o)
  {
    x := Remote(Request(Delete, api + "/projects/" + projectId + "/share/" + DecimalText(groupId), AlwaysToken(map[], token),
                        map[], map[]), UnshareResult(projectId, groupId, o));
  }

  const HousekeepingStarted: string := "Housekeeping task initiated."

  /**
   * The answer of `start_project_housekeeping`: 202 gives the bare success
   * message; another non-error status adds the decoded body (an empty body
   * gives {}), and a body that does not decode is a request error.
   */
  function HousekeepingResult(o: Outcome): Value
  {
    if Fails(o) then Failure(o)
    else if o.response.status == 202 then Dict(map["success" := Str(HousekeepingStarted)])
    else if o.response.content == [] then Dict(map["success" := Str(HousekeepingStarted), "response" := Dict(map[])])
    else
      match o.response.json
      case Parsed(v) => Dict(map["success" := Str(HousekeepingStarted), "response" := v])
      case Unparsable(message) => NetworkError(message)
  }

  /**
   * Housekeeping reports success for every non-error status except when a
   * non-202 body fails to decode; the "response" key is present exactly for
   * the non-202 successes.
   */
  lemma LemmaHousekeepingResult(o: Outcome)
    ensures Fails(o) ==> HousekeepingResult(o) == Failure(o)
    ensures !Fails(o) && (o.response.status == 202 || o.response.content == [] || o.response.json.Parsed?) ==>
              var r := HousekeepingResult(o);
              r.Dict? && "success" in r.fields && r.fields["success"] == Str(HousekeepingStarted)
              && ("response" in r.fields <==> o.response.status != 202)
    ensures !Fails(o) && o.response.status != 202 && o.response.content != [] && o.response.json.Unparsable? ==>
              ReadError(HousekeepingResult(o)) == Some(NetworkFailure(o.response.json.message))
  {
    if !Fails(o) && o.response.status != 202 && o.response.content != [] && o.response.json.Unparsable? {
      var e := NetworkPrefix + o.response.json.message;
      assert NetworkPrefix <= e && e[|NetworkPrefix|..] == o.response.json.message;
    }
  }

  /** `start_project_housekeeping`: `task` only when truthy. */
  method StartProjectHousekeeping(api: string, token: string, projectId: string, task: Value, o: Outcome)
    returns (x: Exchange)
    ensures x.Remote? && x.request.verb == Post && x.request.url == api + "/projects/" + projectId + "/housekeeping"
    ensures x.request.headers == AlwaysToken(map[], token)
    ensures "task" in x.request.body <==> Truthy(task)
    ensures "task" in x.request.body ==> x.request.body["task"] == task
    ensures x.request.body.Keys <= {"task"}
    ensures x.request.params == map[]
    ensures x.result == HousekeepingResult(o)
  {
    var data := map[];
    if Truthy(task) {
      data := data["task" := task];
    }
    x := Remote(Request(Post, api + "/projects/" + projectId + "/housekeeping", AlwaysToken(map[], token), map[], data),
                HousekeepingResult(o));
  }

  /** `sast_real_time_scan`: the body is exactly the file path and its content. */
  method SastRealTimeScan(api: string, token: string, projectId: string, filePath: Value, content: Value, o: Outcome)
    returns (x: Exchange)
    ensures x.Remote? && x.request.verb == Post
    ensures x.request.url == api + "/projects/" + projectId + "/security_scans/sast/scan"
    ensures x.request.headers == AlwaysToken(JsonContent, token)
    ensures x.request.body.Keys == {"file_path", "content"}
    ensures x.request.body["file_path"] == filePath && x.request.body["content"] == content
    ensures x.request.params == map[]
    ensures x.result == Standard(o)
  {
    x := Remote(Request(Post, api + "/projects/" + projectId + "/security_scans/sast/scan", AlwaysToken(JsonContent, token),
                        map[], map["file_path" := filePath, "content" := content]), Standard(o));
  }

  /** `get_repository_storage_path` */
  method GetRepositoryStoragePath(api: string, token: string, projectId: string, o: Outcome) returns (x: Exchange)
    ensures x.Remote? && x.request.verb == Get && x.request.url == api + "/projects/" + projectId + "/storage"
    ensures x.request.headers == AlwaysToken(map[], token) && x.request.params == map[]
    ensures x.request.body == map[]
    ensures x.result == Standard(o)
  {
    x := Remote(Request(Get, api + "/projects/" + projectId + "/storage", AlwaysToken(map[], token), map[], map[]),
                Standard(o));
  }

  /**
   * The answer of `download_repository_snapshot`: errors carry the body
   * text; on success the outcome of writing the archive to `savePath`
   * (`written` is None when the write succeeded).
   */
  function SnapshotResult(savePath: string, wiki: bool, written: Option<string>, o: Outcome): Value
  {
    if Fails(o) then TextFailure(o)
    else
      match written
      case None =>
        Dict(map["success" := Str("Repository snapshot for " + (if wiki then "wiki" else "project")
                                  + " successfully saved to " + savePath)])
      case Some(e) => Dict(map["error" := Str("File Write Error"), "details" := Str(e)])
  }

  /**
   * `download_repository_snapshot`: the query is exactly `wiki`, as the
   * lowercase text of the flag, from which the flag reads back.
   */
  method DownloadRepositorySnapshot(api: string, token: string, projectId: string, savePath: string, wiki: bool,
                                    written: Option<string>, o: Outcome)
    returns (x: Exchange)
    ensures x.Remote? && x.request.verb == Get && x.request.url == api + "/projects/" + projectId + "/snapshot"
    ensures x.request.headers == AlwaysToken(map[], token)
    ensures x.request.params.Keys == {"wiki"} && x.request.params["wiki"].Str?
    ensures x.request.params["wiki"].s == "true" || x.request.params["wiki"].s == "false"
    ensures ParseBool(x.request.params["wiki"].s) == Some(wiki)
    ensures o.Received? && Fails(o) ==>
              ReadError(x.result) == Some(HttpFailure(o.response.errorText, Str(o.response.text)))
    ensures x.request.body == map[]
    ensures x.result == SnapshotResult(savePath, wiki, written, o)
  {
    LemmaBoolTextRoundTrip(wiki);
    if Fails(o) {
      LemmaTextFailure(o);
    }
    x := Remote(Request(Get, api + "/projects/" + projectId + "/snapshot", AlwaysToken(map[], token),
                        map["wiki" := Str(BoolText(wiki))], map[]), SnapshotResult(savePath, wiki, written, o));
  }
}
