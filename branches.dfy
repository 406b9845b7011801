/**
 * Branch tools (`server/mcp_tools/branch_tools.py`). Unlike the shared
 * `get_headers()`, these tools always send the PRIVATE-TOKEN header, even
 * when the token is empty.
 */
module Branches {
  import opened Values
  import opened Http

  /**
   * The list-branches query: `regex` when truthy, otherwise `search` when
   * truthy; the two are never sent together, and nothing else is sent.
   */
  predicate BranchQuery(params: map<string, Value>, regex: Value, search: Value)
  {
    && ("regex" in params <==> Truthy(regex))
    && ("search" in params <==> !Truthy(regex) && Truthy(search))
    && ("regex" in params ==> params["regex"] == regex)
    && ("search" in params ==> params["search"] == search)
    && params.Keys <= {"regex", "search"}
  }

  /** Builds the list-branches query. */
  method ListBranchesParams(regex: Value, search: Value) returns (params: map<string, Value>)
    ensures BranchQuery(params, regex, search)
    ensures !("regex" in params && "search" in params)
  {
    params := map[];
    if Truthy(regex) {
      params := params["regex" := regex];
    } else if Truthy(search) {
      params := params["search" := search];
    }
  }

  /** `gitlab_list_branches` */
  method ListBranches(api: string, token: string, projectId: string, regex: Value, search: Value, o: Outcome)
    returns (x: Exchange)
    ensures x.Remote? && x.request.verb == Get
    ensures x.request.url == api + "/projects/" + projectId + "/repository/branches"
    ensures x.request.headers == AlwaysToken(map[], token)
    ensures BranchQuery(x.request.params, regex, search) && x.request.body == map[]
    ensures x.result == Standard(o)
  {
    var params := ListBranchesParams(regex, search);
    x := Remote(Request(Get, api + "/projects/" + projectId + "/repository/branches", AlwaysToken(map[], token), params, map[]),
                Standard(o));
  }

  /** `gitlab_get_single_branch`: the branch name goes into the URL as given. */
  method GetSingleBranch(api: string, token: string, projectId: string, branch: string, o: Outcome)
    returns (x: Exchange)
    ensures x.Remote? && x.request.verb == Get
    ensures x.request.url == api + "/projects/" + projectId + "/repository/branches/" + branch
    ensures x.request.headers == AlwaysToken(map[], token)
    ensures x.request.params == map[] && x.request.body == map[]
    ensures x.result == Standard(o)
  {
    x := Remote(Request(Get, api + "/projects/" + projectId + "/repository/branches/" + branch, AlwaysToken(map[], token),
                        map[], map[]), Standard(o));
  }

  /** `gitlab_create_branch`: the query is exactly the new name and its source ref. */
  method CreateBranch(api: string, token: string, projectId: string, branchName: Value, refSource: Value, o: Outcome)
    returns (x: Exchange)
    ensures x.Remote? && x.request.verb == Post
    ensures x.request.url == api + "/projects/" + projectId + "/repository/branches"
    ensures x.request.headers == AlwaysToken(map[], token)
    ensures x.request.params.Keys == {"branch", "ref"} && x.request.body == map[]
    ensures x.request.params["branch"] == branchName && x.request.params["ref"] == refSource
    ensures x.result == Standard(o)
  {
    var params := map["branch" := branchName, "ref" := refSource];
    x := Remote(Request(Post, api + "/projects/" + projectId + "/repository/branches", AlwaysToken(map[], token), params, map[]),
                Standard(o));
  }

  function DeletedMessage(branchName: string): string
  {
    "[GITLAB DELETE BRANCH] Branch '" + branchName + "' deleted successfully (HTTP 204 No Content)."
  }

  /** The answer of `gitlab_delete_branch` to an outcome. */
  function DeleteBranchResult(branchName: string, o: Outcome): Value
  {
    if Fails(o) then Failure(o)
    else if o.response.status == 204 then Str(DeletedMessage(branchName))
    else Dict(map[
      "warning" := Str("Branch deletion returned unexpected status code " + DecimalText(o.response.status) + "."),
      "text" := Str(o.response.text)])
  }

  /**
   * Deleting a branch never decodes the body on success: 204 gives the
   * confirmation string naming the branch, any other non-error status a
   * warning carrying the status code and the body text.
   */
  lemma LemmaDeleteBranchResult(branchName: string, o: Outcome)
    ensures Fails(o) ==> DeleteBranchResult(branchName, o) == Failure(o)
    ensures o.Received? && o.response.status == 204 ==>
              DeleteBranchResult(branchName, o) == Str(DeletedMessage(branchName))
    ensures !Fails(o) && o.response.status != 204 ==>
              var r := DeleteBranchResult(branchName, o);
              r.Dict? && r.fields.Keys == {"warning", "text"} && r.fields["text"] == Str(o.response.text)
              && r.fields["warning"].Str?
              && ParseInt(r.fields["warning"].s[|"Branch deletion returned unexpected status code "|..|r.fields["warning"].s| - 1])
                 == Some(o.response.status)
  {
    if !Fails(o) && o.response.status != 204 {
      var w := "Branch deletion returned unexpected status code " + DecimalText(o.response.status) + ".";
      assert w[|"Branch deletion returned unexpected status code "|..|w| - 1] == DecimalText(o.response.status);
      LemmaDecimalRoundTrip(o.response.status);
    }
  }

  /** `gitlab_delete_branch` */
  method DeleteBranch(api: string, token: string, projectId: string, branchName: string, o: Outcome)
    returns (x: Exchange)
    ensures x.Remote? && x.request.verb == Delete
    ensures x.request.url == api + "/projects/" + projectId + "/repository/branches/" + branchName
    ensures x.request.headers == AlwaysToken(map[], token)
    ensures x.request.params == map[] && x.request.body == map[]
    ensures x.result == DeleteBranchResult(branchName, o)
  {
    x := Remote(Request(Delete, api + "/projects/" + projectId + "/repository/branches/" + branchName,
                        AlwaysToken(map[], token), map[], map[]),
                DeleteBranchResult(branchName, o));
  }
}
