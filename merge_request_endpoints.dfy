/**
 * The merge-request and approval tools of
 * `server/mcp_tools/merge_request_tools.py` that send a fixed request: a
 * URL built from the ids, at most a paging or None-filtered query, and the
 * common body handling. All of them add the token only when it is set.
 */
module MergeRequestEndpoints {
  import opened Values
  import opened Params
  import opened Http
  import MergeRequests

  /** `/projects/{project_id}/merge_requests/{merge_request_iid}` */
  function MergeRequestUrl(api: string, projectId: string, iid: int): string
  {
    api + "/projects/" + projectId + "/merge_requests/" + DecimalText(iid)
  }

  /** The merge-request endpoints that take no argument besides the ids. */
  datatype Endpoint =
    | ResetApprovals                                               // PUT
    | CreatePipeline | AutoMergeCancel
    | TimeEstimateReset | SpentTimeReset                           // POST
    | ApprovalState | ApprovalDetails | Participants | Reviewers | CommitList | Dependencies
    | Blockees | MergeRef | ClosesIssues | RelatedIssues | DiffVersions | TimeStats  // GET

  function EndpointPath(e: Endpoint): string
  {
    match e
    case ResetApprovals => "reset_approvals"
    case CreatePipeline => "pipelines"
    case AutoMergeCancel => "cancel_merge_when_pipeline_succeeds"
    case TimeEstimateReset => "reset_time_estimate"
    case SpentTimeReset => "reset_spent_time"
    case ApprovalState => "approvals"
    case ApprovalDetails => "approval_state"
    case Participants => "participants"
    case Reviewers => "reviewers"
    case CommitList => "commits"
    case Dependencies => "blocks"
    case Blockees => "blockees"
    case MergeRef => "merge_ref"
    case ClosesIssues => "closes_issues"
    case RelatedIssues => "related_issues"
    case DiffVersions => "versions"
    case TimeStats => "time_stats"
  }

  function EndpointVerb(e: Endpoint): Method
  {
    match e
    case ResetApprovals => Put
    case CreatePipeline | AutoMergeCancel | TimeEstimateReset | SpentTimeReset => Post
    case _ => Get
  }

  /** Only the approval reset declares a JSON content type. */
  function EndpointHeaders(e: Endpoint): map<string, string>
  {
    if e == ResetApprovals then JsonContent else map[]
  }

  /**
   * The request shared by the argument-free tools below: the endpoint's verb
   * on the merge request's sub-resource, no query and no body.
   */
  method MergeRequestEndpoint(api: string, token: string, projectId: string, iid: int, e: Endpoint, o: Outcome)
    returns (x: Exchange)
    ensures x.Remote? && x.request.verb == EndpointVerb(e)
    ensures x.request.url == MergeRequestUrl(api, projectId, iid) + "/" + EndpointPath(e)
    ensures x.request.headers == WithToken(EndpointHeaders(e), token)
    ensures x.request.params == map[] && x.request.body == map[]
    ensures x.result == Standard(o)
  {
    x := Remote(Request(EndpointVerb(e), MergeRequestUrl(api, projectId, iid) + "/" + EndpointPath(e),
                        WithToken(EndpointHeaders(e), token), map[], map[]), Standard(o));
  }

  /** `reset_gitlab_merge_request_approvals` */
  method ResetMergeRequestApprovals(api: string, token: string, projectId: string, iid: int, o: Outcome)
    returns (x: Exchange)
    ensures x.Remote? && x.request.verb == Put
    ensures x.request.url == MergeRequestUrl(api, projectId, iid) + "/" + "reset_approvals"
    ensures x.request.headers == WithToken(JsonContent, token)
    ensures x.request.params == map[] && x.request.body == map[]
    ensures x.result == Standard(o)
  {
    x := MergeRequestEndpoint(api, token, projectId, iid, ResetApprovals, o);
  }

  /** `get_gitlab_merge_request_approval_state` */
  method GetApprovalState(api: string, token: string, projectId: string, iid: int, o: Outcome)
    returns (x: Exchange)
    ensures x.Remote? && x.request.verb == Get
    ensures x.request.url == MergeRequestUrl(api, projectId, iid) + "/" + "approvals"
    ensures x.request.headers == WithToken(map[], token)
    ensures x.request.params == map[] && x.request.body == map[]
    ensures x.result == Standard(o)
  {
    x := MergeRequestEndpoint(api, token, projectId, iid, ApprovalState, o);
  }

  /** `get_gitlab_merge_request_approval_details` */
  method GetApprovalDetails(api: string, token: string, projectId: string, iid: int, o: Outcome)
    returns (x: Exchange)
    ensures x.Remote? && x.request.verb == Get
    ensures x.request.url == MergeRequestUrl(api, projectId, iid) + "/" + "approval_state"
    ensures x.request.headers == WithToken(map[], token)
    ensures x.request.params == map[] && x.request.body == map[]
    ensures x.result == Standard(o)
  {
    x := MergeRequestEndpoint(api, token, projectId, iid, ApprovalDetails, o);
  }

  /** `list_gitlab_merge_request_participants` */
  method ListParticipants(api: string, token: string, projectId: string, iid: int, o: Outcome)
    returns (x: Exchange)
    ensures x.Remote? && x.request.verb == Get
    ensures x.request.url == MergeRequestUrl(api, projectId, iid) + "/" + "participants"
    ensures x.request.headers == WithToken(map[], token)
    ensures x.request.params == map[] && x.request.body == map[]
    ensures x.result == Standard(o)
  {
    x := MergeRequestEndpoint(api, token, projectId, iid, Participants, o);
  }

  /** `list_gitlab_merge_request_reviewers` */
  method ListReviewers(api: string, token: string, projectId: string, iid: int, o: Outcome)
    returns (x: Exchange)
    ensures x.Remote? && x.request.verb == Get
    ensures x.request.url == MergeRequestUrl(api, projectId, iid) + "/" + "reviewers"
    ensures x.request.headers == WithToken(map[], token)
    ensures x.request.params == map[] && x.request.body == map[]
    ensures x.result == Standard(o)
  {
    x := MergeRequestEndpoint(api, token, projectId, iid, Reviewers, o);
  }

  /** `list_gitlab_merge_request_commits` */
  method ListMergeRequestCommits(api: string, token: string, projectId: string, iid: int, o: Outcome)
    returns (x: Exchange)
    ensures x.Remote? && x.request.verb == Get
    ensures x.request.url == MergeRequestUrl(api, projectId, iid) + "/" + "commits"
    ensures x.request.headers == WithToken(map[], token)
    ensures x.request.params == map[] && x.request.body == map[]
    ensures x.result == Standard(o)
  {
    x := MergeRequestEndpoint(api, token, projectId, iid, CommitList, o);
  }

  /** `list_gitlab_merge_request_dependencies` */
  method ListDependencies(api: string, token: string, projectId: string, iid: int, o: Outcome)
    returns (x: Exchange)
    ensures x.Remote? && x.request.verb == Get
    ensures x.request.url == MergeRequestUrl(api, projectId, iid) + "/" + "blocks"
    ensures x.request.headers == WithToken(map[], token)
    ensures x.request.params == map[] && x.request.body == map[]
    ensures x.result == Standard(o)
  {
    x := MergeRequestEndpoint(api, token, projectId, iid, Dependencies, o);
  }

  /** `list_gitlab_merge_request_blockees` */
  method ListBlockees(api: string, token: string, projectId: string, iid: int, o: Outcome)
    returns (x: Exchange)
    ensures x.Remote? && x.request.verb == Get
    ensures x.request.url == MergeRequestUrl(api, projectId, iid) + "/" + "blockees"
    ensures x.request.headers == WithToken(map[], token)
    ensures x.request.params == map[] && x.request.body == map[]
    ensures x.result == Standard(o)
  {
    x := MergeRequestEndpoint(api, token, projectId, iid, Blockees, o);
  }

  /** `create_gitlab_merge_request_pipeline` */
  method CreateMergeRequestPipeline(api: string, token: string, projectId: string, iid: int, o: Outcome)
    returns (x: Exchange)
    ensures x.Remote? && x.request.verb == Post
    ensures x.request.url == MergeRequestUrl(api, projectId, iid) + "/" + "pipelines"
    ensures x.request.headers == WithToken(map[], token)
    ensures x.request.params == map[] && x.request.body == map[]
    ensures x.result == Standard(o)
  {
    x := MergeRequestEndpoint(api, token, projectId, iid, CreatePipeline, o);
  }

  /** `get_gitlab_merge_request_merge_ref` */
  method GetMergeRef(api: string, token: string, projectId: string, iid: int, o: Outcome)
    returns (x: Exchange)
    ensures x.Remote? && x.request.verb == Get
    ensures x.request.url == MergeRequestUrl(api, projectId, iid) + "/" + "merge_ref"
    ensures x.request.headers == WithToken(map[], token)
    ensures x.request.params == map[] && x.request.body == map[]
    ensures x.result == Standard(o)
  {
    x := MergeRequestEndpoint(api, token, projectId, iid, MergeRef, o);
  }

  /** `cancel_gitlab_merge_when_pipeline_succeeds` */
  method CancelMergeWhenPipelineSucceeds(api: string, token: string, projectId: string, iid: int, o: Outcome)
    returns (x: Exchange)
    ensures x.Remote? && x.request.verb == Post
    ensures x.request.url == MergeRequestUrl(api, projectId, iid) + "/" + "cancel_merge_when_pipeline_succeeds"
    ensures x.request.headers == WithToken(map[], token)
    ensures x.request.params == map[] && x.request.body == map[]
    ensures x.result == Standard(o)
  {
    x := MergeRequestEndpoint(api, token, projectId, iid, AutoMergeCancel, o);
  }

  /** `list_gitlab_issues_that_close_on_merge` */
  method ListClosingIssues(api: string, token: string, projectId: string, iid: int, o: Outcome)
    returns (x: Exchange)
    ensures x.Remote? && x.request.verb == Get
    ensures x.request.url == MergeRequestUrl(api, projectId, iid) + "/" + "closes_issues"
    ensures x.request.headers == WithToken(map[], token)
    ensures x.request.params == map[] && x.request.body == map[]
    ensures x.result == Standard(o)
  {
    x := MergeRequestEndpoint(api, token, projectId, iid, ClosesIssues, o);
  }

  /** `list_gitlab_merge_request_related_issues` */
  method ListRelatedIssues(api: string, token: string, projectId: string, iid: int, o: Outcome)
    returns (x: Exchange)
    ensures x.Remote? && x.request.verb == Get
    ensures x.request.url == MergeRequestUrl(api, projectId, iid) + "/" + "related_issues"
    ensures x.request.headers == WithToken(map[], token)
    ensures x.request.params == map[] && x.request.body == map[]
    ensures x.result == Standard(o)
  {
    x := MergeRequestEndpoint(api, token, projectId, iid, RelatedIssues, o);
  }

  /** `get_gitlab_merge_request_diff_versions` */
  method ListDiffVersions(api: string, token: string, projectId: string, iid: int, o: Outcome)
    returns (x: Exchange)
    ensures x.Remote? && x.request.verb == Get
    ensures x.request.url == MergeRequestUrl(api, projectId, iid) + "/" + "versions"
    ensures x.request.headers == WithToken(map[], token)
    ensures x.request.params == map[] && x.request.body == map[]
    ensures x.result == Standard(o)
  {
    x := MergeRequestEndpoint(api, token, projectId, iid, DiffVersions, o);
  }

  /** `reset_gitlab_merge_request_time_estimate` */
  method ResetTimeEstimate(api: string, token: string, projectId: string, iid: int, o: Outcome)
    returns (x: Exchange)
    ensures x.Remote? && x.request.verb == Post
    ensures x.request.url == MergeRequestUrl(api, projectId, iid) + "/" + "reset_time_estimate"
    ensures x.request.headers == WithToken(map[], token)
    ensures x.request.params == map[] && x.request.body == map[]
    ensures x.result == Standard(o)
  {
    x := MergeRequestEndpoint(api, token, projectId, iid, TimeEstimateReset, o);
  }

  /** `reset_gitlab_merge_request_spent_time` */
  method ResetSpentTime(api: string, token: string, projectId: string, iid: int, o: Outcome)
    returns (x: Exchange)
    ensures x.Remote? && x.request.verb == Post
    ensures x.request.url == MergeRequestUrl(api, projectId, iid) + "/" + "reset_spent_time"
    ensures x.request.headers == WithToken(map[], token)
    ensures x.request.params == map[] && x.request.body == map[]
    ensures x.result == Standard(o)
  {
    x := MergeRequestEndpoint(api, token, projectId, iid, SpentTimeReset, o);
  }

  /** `get_gitlab_merge_request_time_stats` */
  method GetTimeStats(api: string, token: string, projectId: string, iid: int, o: Outcome)
    returns (x: Exchange)
    ensures x.Remote? && x.request.verb == Get
    ensures x.request.url == MergeRequestUrl(api, projectId, iid) + "/" + "time_stats"
    ensures x.request.headers == WithToken(map[], token)
    ensures x.request.params == map[] && x.request.body == map[]
    ensures x.result == Standard(o)
  {
    x := MergeRequestEndpoint(api, token, projectId, iid, TimeStats, o);
  }

  /** `get_gitlab_merge_request_raw_diffs`: the answer is the body text, never decoded. */
  method GetRawDiffs(api: string, token: string, projectId: string, iid: int, o: Outcome)
    returns (x: Exchange)
    ensures x.Remote? && x.request.verb == Get
    ensures x.request.url == MergeRequestUrl(api, projectId, iid) + "/" + "raw_diffs"
    ensures x.request.headers == WithToken(map[], token)
    ensures x.request.params == map[] && x.request.body == map[]
    ensures x.result == TextResult(o)
  {
    x := Remote(Request(Get, MergeRequestUrl(api, projectId, iid) + "/" + "raw_diffs", WithToken(map[], token), map[],
                        map[]), TextResult(o));
  }

  // ---------------------------------------------------------------------------
  // Paged listings and single approval objects

  /** The paging query of the approval-rule listings: each of the two when not None. */
  method PageParams(perPage: Option<int>, page: Option<int>) returns (params: map<string, Value>)
    ensures "per_page" in params <==> perPage.Some?
    ensures "page" in params <==> page.Some?
    ensures perPage.Some? ==> params["per_page"] == Int(perPage.value)
    ensures page.Some? ==> params["page"] == Int(page.value)
    ensures params.Keys <= {"per_page", "page"}
  {
    params := map[];
    if perPage.Some? {
      params := params["per_page" := Int(perPage.value)];
    }
    if page.Some? {
      params := params["page" := Int(page.value)];
    }
  }

  /** Where an approval listing or lookup is addressed. */
  datatype RuleOwner = Project(projectId: string) | MergeRequest(projectId: string, iid: int) | Group(groupId: string)

  function RulesUrl(api: string, owner: RuleOwner): string
  {
    match owner
    case Project(p) => api + "/projects/" + p + "/approval_rules"
    case MergeRequest(p, iid) => MergeRequestUrl(api, p, iid) + "/approval_rules"
    case Group(g) => api + "/groups/" + g + "/approval_rules"
  }

  /**
   * `list_gitlab_project_approval_rules`, `list_gitlab_merge_request_approval_rules`
   * and `list_gitlab_group_approval_rules`: a GET with the paging query.
   */
  method ListApprovalRules(api: string, token: string, owner: RuleOwner, perPage: Option<int>, page: Option<int>,
                           o: Outcome)
    returns (x: Exchange)
    ensures x.Remote? && x.request.verb == Get && x.request.url == RulesUrl(api, owner)
    ensures x.request.headers == WithToken(map[], token) && x.request.body == map[]
    ensures "per_page" in x.request.params <==> perPage.Some?
    ensures "page" in x.request.params <==> page.Some?
    ensures perPage.Some? ==> x.request.params["per_page"] == Int(perPage.value)
    ensures page.Some? ==> x.request.params["page"] == Int(page.value)
    ensures x.request.params.Keys <= {"per_page", "page"}
    ensures x.result == Standard(o)
  {
    var params := PageParams(perPage, page);
    x := Remote(Request(Get, RulesUrl(api, owner), WithToken(map[], token), params, map[]), Standard(o));
  }

  /**
   * `get_gitlab_project_approval_rule` and
   * `get_gitlab_merge_request_approval_rule`: the rule id ends the URL.
   */
  method GetApprovalRule(api: string, token: string, owner: RuleOwner, ruleId: int, o: Outcome) returns (x: Exchange)
    requires !owner.Group?
    ensures x.Remote? && x.request.verb == Get && x.request.url == RulesUrl(api, owner) + "/" + DecimalText(ruleId)
    ensures x.request.headers == WithToken(map[], token)
    ensures x.request.params == map[] && x.request.body == map[]
    ensures x.result == Standard(o)
  {
    x := Remote(Request(Get, RulesUrl(api, owner) + "/" + DecimalText(ruleId), WithToken(map[], token), map[], map[]),
                Standard(o));
  }

  /** `list_gitlab_project_approval_rules` */
  method ListProjectApprovalRules(api: string, token: string, projectId: string, perPage: Option<int>, page: Option<int>, o: Outcome)
    returns (x: Exchange)
    ensures x.Remote? && x.request.verb == Get && x.request.url == api + "/projects/" + projectId + "/approval_rules"
    ensures x.request.headers == WithToken(map[], token) && x.request.body == map[]
    ensures x.request.params.Keys == (if perPage.Some? then {"per_page"} else {}) + (if page.Some? then {"page"} else {})
    ensures perPage.Some? ==> x.request.params["per_page"] == Int(perPage.value)
    ensures page.Some? ==> x.request.params["page"] == Int(page.value)
    ensures x.result == Standard(o)
  {
    x := ListApprovalRules(api, token, Project(projectId), perPage, page, o);
  }

  /** `list_gitlab_merge_request_approval_rules` */
  method ListMergeRequestApprovalRules(api: string, token: string, projectId: string, iid: int, perPage: Option<int>, page: Option<int>, o: Outcome)
    returns (x: Exchange)
    ensures x.Remote? && x.request.verb == Get && x.request.url == MergeRequestUrl(api, projectId, iid) + "/approval_rules"
    ensures x.request.headers == WithToken(map[], token) && x.request.body == map[]
    ensures x.request.params.Keys == (if perPage.Some? then {"per_page"} else {}) + (if page.Some? then {"page"} else {})
    ensures perPage.Some? ==> x.request.params["per_page"] == Int(perPage.value)
    ensures page.Some? ==> x.request.params["page"] == Int(page.value)
    ensures x.result == Standard(o)
  {
    x := ListApprovalRules(api, token, MergeRequest(projectId, iid), perPage, page, o);
  }

  /** `list_gitlab_group_approval_rules` */
  method ListGroupApprovalRules(api: string, token: string, groupId: string, perPage: Option<int>, page: Option<int>, o: Outcome)
    returns (x: Exchange)
    ensures x.Remote? && x.request.verb == Get && x.request.url == api + "/groups/" + groupId + "/approval_rules"
    ensures x.request.headers == WithToken(map[], token) && x.request.body == map[]
    ensures x.request.params.Keys == (if perPage.Some? then {"per_page"} else {}) + (if page.Some? then {"page"} else {})
    ensures perPage.Some? ==> x.request.params["per_page"] == Int(perPage.value)
    ensures page.Some? ==> x.request.params["page"] == Int(page.value)
    ensures x.result == Standard(o)
  {
    x := ListApprovalRules(api, token, Group(groupId), perPage, page, o);
  }

  /** `get_gitlab_project_approval_rule` */
  method GetProjectApprovalRule(api: string, token: string, projectId: string, ruleId: int, o: Outcome) returns (x: Exchange)
    ensures x.Remote? && x.request.verb == Get && x.request.url == api + "/projects/" + projectId + "/approval_rules/" + DecimalText(ruleId)
    ensures x.request.headers == WithToken(map[], token)
    ensures x.request.params == map[] && x.request.body == map[]
    ensures x.result == Standard(o)
  {
    x := GetApprovalRule(api, token, Project(projectId), ruleId, o);
  }

  /** `get_gitlab_merge_request_approval_rule` */
  method GetMergeRequestApprovalRule(api: string, token: string, projectId: string, iid: int, ruleId: int, o: Outcome) returns (x: Exchange)
    ensures x.Remote? && x.request.verb == Get && x.request.url == MergeRequestUrl(api, projectId, iid) + "/approval_rules/" + DecimalText(ruleId)
    ensures x.request.headers == WithToken(map[], token)
    ensures x.request.params == map[] && x.request.body == map[]
    ensures x.result == Standard(o)
  {
    x := GetApprovalRule(api, token, MergeRequest(projectId, iid), ruleId, o);
  }

  /** `get_gitlab_approval_configuration` */
  method GetApprovalConfiguration(api: string, token: string, projectId: string, o: Outcome) returns (x: Exchange)
    ensures x.Remote? && x.request.verb == Get && x.request.url == api + "/projects/" + projectId + "/approvals"
    ensures x.request.headers == WithToken(map[], token)
    ensures x.request.params == map[] && x.request.body == map[]
    ensures x.result == Standard(o)
  {
    x := Remote(Request(Get, api + "/projects/" + projectId + "/approvals", WithToken(map[], token), map[], map[]),
                Standard(o));
  }

  // ---------------------------------------------------------------------------
  // Endpoints with arguments

  const DiffOptions: seq<string> := ["page", "per_page", "unidiff"]
  const PipelineOptions: seq<string> := ["page", "per_page"]

  /**
   * `list_gitlab_merge_request_diffs`: the None-dropping comprehension over
   * `page`, `per_page` and `unidiff` (a native boolean).
   */
  method ListMergeRequestDiffs(api: string, token: string, projectId: string, iid: int, values: seq<Value>,
                               o: Outcome)
    returns (x: Exchange)
    requires |values| == 3
    ensures x.Remote? && x.request.verb == Get && x.request.url == MergeRequestUrl(api, projectId, iid) + "/diffs"
    ensures x.request.headers == WithToken(map[], token) && x.request.body == map[]
    ensures forall i :: 0 <= i < 3 ==>
              (DiffOptions[i] in x.request.params <==> values[i] != Null)
              && (values[i] != Null ==> x.request.params[DiffOptions[i]] == values[i])
    ensures x.request.params.Keys == set i | 0 <= i < 3 && values[i] != Null :: DiffOptions[i]
    ensures x.result == Standard(o)
  {
    x := MergeRequests.NotNoneRequest(DiffOptions, values, true, Get, MergeRequestUrl(api, projectId, iid) + "/diffs",
                                      WithToken(map[], token), o);
  }

  /** `list_gitlab_merge_request_pipelines`: the None-dropping comprehension over `page` and `per_page`. */
  method ListMergeRequestPipelines(api: string, token: string, projectId: string, iid: int, values: seq<Value>,
                                   o: Outcome)
    returns (x: Exchange)
    requires |values| == 2
    ensures x.Remote? && x.request.verb == Get && x.request.url == MergeRequestUrl(api, projectId, iid) + "/pipelines"
    ensures x.request.headers == WithToken(map[], token) && x.request.body == map[]
    ensures forall i :: 0 <= i < 2 ==>
              (PipelineOptions[i] in x.request.params <==> values[i] != Null)
              && (values[i] != Null ==> x.request.params[PipelineOptions[i]] == values[i])
    ensures x.request.params.Keys == set i | 0 <= i < 2 && values[i] != Null :: PipelineOptions[i]
    ensures x.result == Standard(o)
  {
    x := MergeRequests.NotNoneRequest(PipelineOptions, values, true, Get,
                                      MergeRequestUrl(api, projectId, iid) + "/pipelines", WithToken(map[], token), o);
  }

  /** `rebase_gitlab_merge_request`: the JSON body holds `skip_ci` exactly when it is not None. */
  method RebaseMergeRequest(api: string, token: string, projectId: string, iid: int, skipCi: Value, o: Outcome)
    returns (x: Exchange)
    ensures x.Remote? && x.request.verb == Put && x.request.url == MergeRequestUrl(api, projectId, iid) + "/rebase"
    ensures x.request.headers == WithToken(map[], token) && x.request.params == map[]
    ensures x.request.body == if skipCi == Null then map[] else map["skip_ci" := skipCi]
    ensures x.result == Standard(o)
  {
    var names := ["skip_ci"];
    x := MergeRequests.NotNoneRequest(names, [skipCi], false, Put,
                                      MergeRequestUrl(api, projectId, iid) + "/rebase", WithToken(map[], token), o);
    assert names[0] in x.request.body <==> skipCi != Null;
    assert x.request.body.Keys <= {"skip_ci"};
  }

  /** `create_gitlab_merge_request_dependency`: the blocking merge request goes in the query. */
  method CreateMergeRequestDependency(api: string, token: string, projectId: string, iid: int, blockingId: int,
                                      o: Outcome)
    returns (x: Exchange)
    ensures x.Remote? && x.request.verb == Post && x.request.url == MergeRequestUrl(api, projectId, iid) + "/blocks"
    ensures x.request.headers == WithToken(map[], token) && x.request.body == map[]
    ensures x.request.params == map["blocking_merge_request_id" := Int(blockingId)]
    ensures x.result == Standard(o)
  {
    x := Remote(Request(Post, MergeRequestUrl(api, projectId, iid) + "/blocks", WithToken(map[], token),
                        map["blocking_merge_request_id" := Int(blockingId)], map[]), Standard(o));
  }

  /** `get_gitlab_single_merge_request_diff_version`: `unidiff` when not None, so False is sent. */
  method GetDiffVersion(api: string, token: string, projectId: string, iid: int, versionId: int, unidiff: Option<bool>,
                        o: Outcome)
    returns (x: Exchange)
    ensures x.Remote? && x.request.verb == Get
    ensures x.request.url == MergeRequestUrl(api, projectId, iid) + "/versions/" + DecimalText(versionId)
    ensures x.request.headers == WithToken(map[], token) && x.request.body == map[]
    ensures "unidiff" in x.request.params <==> unidiff.Some?
    ensures unidiff.Some? ==> x.request.params["unidiff"] == Bool(unidiff.value)
    ensures x.request.params.Keys <= {"unidiff"}
    ensures x.result == Standard(o)
  {
    var params := map[];
    if unidiff.Some? {
      params := params["unidiff" := Bool(unidiff.value)];
    }
    x := Remote(Request(Get, MergeRequestUrl(api, projectId, iid) + "/versions/" + DecimalText(versionId),
                        WithToken(map[], token), params, map[]), Standard(o));
  }

  /** `set_gitlab_merge_request_time_estimate`: the query is exactly the duration. */
  method SetTimeEstimate(api: string, token: string, projectId: string, iid: int, duration: string, o: Outcome)
    returns (x: Exchange)
    ensures x.Remote? && x.request.verb == Post
    ensures x.request.url == MergeRequestUrl(api, projectId, iid) + "/" + "time_estimate"
    ensures x.request.headers == WithToken(map[], token) && x.request.body == map[]
    ensures x.request.params == map["duration" := Str(duration)]
    ensures x.result == Standard(o)
  {
    x := Remote(Request(Post, MergeRequestUrl(api, projectId, iid) + "/" + "time_estimate", WithToken(map[], token),
                        map["duration" := Str(duration)], map[]), Standard(o));
  }

  /**
   * `add_gitlab_merge_request_spent_time`: the duration, and the summary
   * whenever it is not None (an empty summary is sent, unlike the issue
   * variant, which needs it non-empty).
   */
  method AddSpentTime(api: string, token: string, projectId: string, iid: int, duration: string,
                      summary: Option<string>, o: Outcome)
    returns (x: Exchange)
    ensures x.Remote? && x.request.verb == Post
    ensures x.request.url == MergeRequestUrl(api, projectId, iid) + "/" + "add_spent_time"
    ensures x.request.headers == WithToken(map[], token) && x.request.body == map[]
    ensures "duration" in x.request.params && x.request.params["duration"] == Str(duration)
    ensures "summary" in x.request.params <==> summary.Some?
    ensures summary.Some? ==> x.request.params["summary"] == Str(summary.value)
    ensures x.request.params.Keys <= {"duration", "summary"}
    ensures x.result == Standard(o)
  {
    var params := map["duration" := Str(duration)];
    if summary.Some? {
      params := params["summary" := Str(summary.value)];
    }
    x := Remote(Request(Post, MergeRequestUrl(api, projectId, iid) + "/" + "add_spent_time", WithToken(map[], token), params,
                        map[]), Standard(o));
  }
}
