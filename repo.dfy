/**
 * Repository tools (`server/mcp_tools/repo_tools.py`).
 *
 * The tree, blob, changelog-add and submodule tools write PRIVATE-TOKEN
 * into their header literal (`AlwaysToken`); the others add it only when
 * the token is non-empty (`WithToken`). The raw blob answers the body text
 * and the archive the body bytes, never decoding them.
 */
module Repo {
  import opened Values
  import opened Params
  import opened Http

  /** `/projects/{project_id}/repository` */
  function RepositoryUrl(api: string, projectId: string): string
  {
    api + "/projects/" + projectId + "/repository"
  }

  const FormContent: map<string, string> := map["Content-Type" := "application/x-www-form-urlencoded"]

  // ---------------------------------------------------------------------------
  // Tree, blobs, archive

  /**
   * The query of `list_gitlab_repository_tree`: `recursive` as the text
   * "true" only when set; `per_page` when not None; the strings when
   * non-empty; each with its argument as value, and no other key.
   */
  predicate TreeQuery(params: map<string, Value>, ref: Option<string>, path: Option<string>, recursive: bool,
                      perPage: Option<int>, pageToken: Option<string>, pagination: Option<string>)
  {
    && ("ref" in params <==> Given(ref))
    && ("path" in params <==> Given(path))
    && ("recursive" in params <==> recursive)
    && ("per_page" in params <==> perPage.Some?)
    && ("page_token" in params <==> Given(pageToken))
    && ("pagination" in params <==> Given(pagination))
    && (Given(ref) ==> params["ref"] == Str(ref.value))
    && (Given(path) ==> params["path"] == Str(path.value))
    && (recursive ==> params["recursive"] == Str("true"))
    && (perPage.Some? ==> params["per_page"] == Int(perPage.value))
    && (Given(pageToken) ==> params["page_token"] == Str(pageToken.value))
    && (Given(pagination) ==> params["pagination"] == Str(pagination.value))
    && params.Keys <= {"ref", "path", "recursive", "per_page", "page_token", "pagination"}
  }

  /** Builds the query of `list_gitlab_repository_tree`. */
  method TreeParams(ref: Option<string>, path: Option<string>, recursive: bool, perPage: Option<int>,
                    pageToken: Option<string>, pagination: Option<string>)
    returns (params: map<string, Value>)
    ensures TreeQuery(params, ref, path, recursive, perPage, pageToken, pagination)
  {
    params := map[];
    if Given(ref) {
      params := params["ref" := Str(ref.value)];
    }
    if Given(path) {
      params := params["path" := Str(path.value)];
    }
    if recursive {
      params := params["recursive" := Str("true")];
    }
    if perPage.Some? {
      params := params["per_page" := Int(perPage.value)];
    }
    if Given(pageToken) {
      params := params["page_token" := Str(pageToken.value)];
    }
    if Given(pagination) {
      params := params["pagination" := Str(pagination.value)];
    }
  }

  /** `list_gitlab_repository_tree` */
  method ListRepositoryTree(api: string, token: string, projectId: string, ref: Option<string>, path: Option<string>,
                            recursive: bool, perPage: Option<int>, pageToken: Option<string>,
                            pagination: Option<string>, o: Outcome)
    returns (x: Exchange)
    ensures x.Remote? && x.request.verb == Get && x.request.url == RepositoryUrl(api, projectId) + "/tree"
    ensures x.request.headers == AlwaysToken(map[], token) && x.request.body == map[]
    ensures TreeQuery(x.request.params, ref, path, recursive, perPage, pageToken, pagination)
    ensures x.result == Standard(o)
  {
    var params := TreeParams(ref, path, recursive, perPage, pageToken, pagination);
    x := Remote(Request(Get, RepositoryUrl(api, projectId) + "/tree", AlwaysToken(map[], token), params, map[]),
                Standard(o));
  }

  /** `get_gitlab_blob` */
  method GetBlob(api: string, token: string, projectId: string, sha: string, o: Outcome) returns (x: Exchange)
    ensures x.Remote? && x.request.verb == Get && x.request.url == RepositoryUrl(api, projectId) + "/blobs/" + sha
    ensures x.request.headers == AlwaysToken(map[], token)
    ensures x.request.params == map[] && x.request.body == map[]
    ensures x.result == Standard(o)
  {
    x := Remote(Request(Get, RepositoryUrl(api, projectId) + "/blobs/" + sha, AlwaysToken(map[], token), map[], map[]),
                Standard(o));
  }

  /** `get_raw_gitlab_blob` */
  method GetRawBlob(api: string, token: string, projectId: string, sha: string, o: Outcome) returns (x: Exchange)
    ensures x.Remote? && x.request.verb == Get
    ensures x.request.url == RepositoryUrl(api, projectId) + "/blobs/" + sha + "/raw"
    ensures x.request.headers == WithToken(map[], token)
    ensures x.request.params == map[] && x.request.body == map[]
    ensures x.result == TextResult(o)
  {
    x := Remote(Request(Get, RepositoryUrl(api, projectId) + "/blobs/" + sha + "/raw", WithToken(map[], token), map[],
                        map[]), TextResult(o));
  }

  const ArchiveStem: string := "/repository/archive."

  /** The default of `get_gitlab_file_archive`'s `format_suffix` argument. */
  const DefaultArchiveSuffix: string := "tar.gz"

  /** The suffix a `get_gitlab_file_archive` call runs with: the argument, or the default when it is omitted (None). */
  function SuffixInEffect(formatSuffix: Option<string>): string
  {
    if formatSuffix.Some? then formatSuffix.value else DefaultArchiveSuffix
  }

  /**
   * `get_gitlab_file_archive`: the format is the URL's suffix, taken as
   * given, "tar.gz" when omitted; `sha` and `path` when non-empty.
   */
  method GetFileArchive(api: string, token: string, projectId: string, sha: Option<string>, path: Option<string>,
                        formatSuffix: Option<string>, o: Outcome)
    returns (x: Exchange)
    ensures x.Remote? && x.request.verb == Get
    ensures x.request.url == api + "/projects/" + projectId + ArchiveStem + SuffixInEffect(formatSuffix)
    ensures var u := x.request.url; var f := SuffixInEffect(formatSuffix);
            |u| >= |f| && u[|u| - |f|..] == f
    ensures formatSuffix.None? ==> x.request.url == api + "/projects/" + projectId + ArchiveStem + "tar.gz"
    ensures x.request.headers == WithToken(map[], token) && x.request.body == map[]
    ensures "sha" in x.request.params <==> Given(sha)
    ensures "path" in x.request.params <==> Given(path)
    ensures Given(sha) ==> x.request.params["sha"] == Str(sha.value)
    ensures Given(path) ==> x.request.params["path"] == Str(path.value)
    ensures x.request.params.Keys <= {"sha", "path"}
    ensures x.result == ContentResult(o)
  {
    var params := map[];
    if Given(sha) {
      params := params["sha" := Str(sha.value)];
    }
    if Given(path) {
      params := params["path" := Str(path.value)];
    }
    var suffix := SuffixInEffect(formatSuffix);
    var url := api + "/projects/" + projectId + ArchiveStem + suffix;
    assert url == (api + "/projects/" + projectId + ArchiveStem) + suffix;
    x := Remote(Request(Get, url, WithToken(map[], token), params, map[]), ContentResult(o));
  }

  // ---------------------------------------------------------------------------
  // Compare, contributors, merge base

  /**
   * `compare_gitlab_refs`: `from`, `to` and `straight` (a native boolean)
   * always; `from_project_id` when not None.
   */
  method CompareRefs(api: string, token: string, projectId: string, fromRef: string, toRef: string,
                     fromProjectId: Value, straight: bool, o: Outcome)
    returns (x: Exchange)
    ensures x.Remote? && x.request.verb == Get && x.request.url == RepositoryUrl(api, projectId) + "/compare"
    ensures x.request.headers == WithToken(map[], token) && x.request.body == map[]
    ensures var p := x.request.params;
            "from" in p && p["from"] == Str(fromRef) && "to" in p && p["to"] == Str(toRef)
            && "straight" in p && p["straight"] == Bool(straight)
    ensures "from_project_id" in x.request.params <==> fromProjectId != Null
    ensures fromProjectId != Null ==> x.request.params["from_project_id"] == fromProjectId
    ensures x.request.params.Keys == {"from", "to", "straight"} + (if fromProjectId != Null then {"from_project_id"} else {})
    ensures x.result == Standard(o)
  {
    var params := map["from" := Str(fromRef), "to" := Str(toRef), "straight" := Bool(straight)];
    if fromProjectId != Null {
      params := params["from_project_id" := fromProjectId];
    }
    x := Remote(Request(Get, RepositoryUrl(api, projectId) + "/compare", WithToken(map[], token), params, map[]),
                Standard(o));
  }

  const ValidOrders: seq<string> := ["name", "email", "commits"]
  const ValidSorts: seq<string> := ["asc", "desc"]

  /**
   * A contributors option: when given, lower-cased and kept only if it is
   * one of the accepted values.
   */
  function Accepted(s: Option<string>, valid: seq<string>): (r: Option<string>)
    ensures r.Some? <==> Given(s) && Lower(s.value) in valid
    ensures r.Some? ==> r.value == Lower(s.value) && r.value in valid
  {
    if Given(s) && Lower(s.value) in valid then Some(Lower(s.value)) else None
  }

  /**
   * An accepted value is sent as one of the listed spellings, and an
   * option already spelt that way is sent unchanged; an upper-case spelling
   * is accepted as its lower-case form.
   */
  lemma LemmaAccepted(s: Option<string>, valid: seq<string>)
    requires forall k :: 0 <= k < |valid| ==> Lower(valid[k]) == valid[k]
    ensures Given(s) && s.value in valid ==> Accepted(s, valid) == s
    ensures Accepted(s, valid).Some? ==> Accepted(Accepted(s, valid), valid) == Accepted(s, valid)
  {
    if Given(s) && s.value in valid {
      var k :| 0 <= k < |valid| && valid[k] == s.value;
    }
    if Accepted(s, valid).Some? {
      LemmaLowerIdempotent(s.value);
    }
  }

  /** A string without upper-case ASCII letters is its own lower case. */
  lemma LemmaLowerFixed(s: string)
    requires forall k :: 0 <= k < |s| ==> !('A' <= s[k] <= 'Z')
    ensures Lower(s) == s
  {
  }

  /** The accepted sort orders are already lower case. */
  lemma LemmaOrdersLowerCase()
    ensures forall k :: 0 <= k < |ValidOrders| ==> Lower(ValidOrders[k]) == ValidOrders[k]
  {
    LemmaLowerFixed(ValidOrders[0]);
    LemmaLowerFixed(ValidOrders[1]);
    LemmaLowerFixed(ValidOrders[2]);
  }

  /** The accepted sort directions are already lower case. */
  lemma LemmaSortsLowerCase()
    ensures forall k :: 0 <= k < |ValidSorts| ==> Lower(ValidSorts[k]) == ValidSorts[k]
  {
    LemmaLowerFixed(ValidSorts[0]);
    LemmaLowerFixed(ValidSorts[1]);
  }

  /**
   * `get_gitlab_contributors`: `order_by` and `sort` each lower-cased and
   * sent only when it is an accepted value; anything else is dropped
   * without an error.
   */
  method GetContributors(api: string, token: string, projectId: string, orderBy: Option<string>, sort: Option<string>,
                         o: Outcome)
    returns (x: Exchange)
    ensures x.Remote? && x.request.verb == Get && x.request.url == RepositoryUrl(api, projectId) + "/contributors"
    ensures x.request.headers == WithToken(map[], token) && x.request.body == map[]
    ensures "order_by" in x.request.params <==> Given(orderBy) && Lower(orderBy.value) in ValidOrders
    ensures "sort" in x.request.params <==> Given(sort) && Lower(sort.value) in ValidSorts
    ensures "order_by" in x.request.params ==>
              x.request.params["order_by"] == Str(Lower(orderBy.value)) && Lower(orderBy.value) in ValidOrders
    ensures "sort" in x.request.params ==>
              x.request.params["sort"] == Str(Lower(sort.value)) && Lower(sort.value) in ValidSorts
    ensures x.request.params.Keys <= {"order_by", "sort"}
    ensures x.result == Standard(o)
  {
    var params := map[];
    var order := Accepted(orderBy, ValidOrders);
    if order.Some? {
      params := params["order_by" := Str(order.value)];
    }
    var direction := Accepted(sort, ValidSorts);
    if direction.Some? {
      params := params["sort" := Str(direction.value)];
    }
    x := Remote(Request(Get, RepositoryUrl(api, projectId) + "/contributors", WithToken(map[], token), params, map[]),
                Standard(o));
  }

  const TooFewRefs: string :=
    "The 'refs' list must contain at least two references (SHA, branch, or tag) to find a common merge base."

  /** The refs as a list of strings, in order. */
  function RefList(refs: seq<string>): (v: Value)
    ensures v.List? && |v.items| == |refs| && forall k :: 0 <= k < |refs| ==> v.items[k] == Str(refs[k])
  {
    List(seq(|refs|, k requires 0 <= k < |refs| => Str(refs[k])))
  }

  /**
   * `get_gitlab_merge_base`: fewer than two refs is answered locally with
   * "Invalid Input"; otherwise every ref is sent, in order, under "refs".
   */
  method GetMergeBase(api: string, token: string, projectId: string, refs: seq<string>, o: Outcome)
    returns (x: Exchange)
    ensures x.Local? <==> |refs| < 2
    ensures x.Local? ==> x.result == Dict(map["error" := Str("Invalid Input"), "details" := Str(TooFewRefs)])
    ensures x.Remote? ==> x.request.verb == Get && x.request.url == RepositoryUrl(api, projectId) + "/merge_base"
                          && x.request.headers == WithToken(map[], token) && x.request.body == map[]
                          && x.request.params.Keys == {"refs"} && x.request.params["refs"] == RefList(refs)
                          && x.result == Standard(o)
  {
    var params := map["refs" := RefList(refs)];
    if |refs| < 2 {
      return Local(Dict(map["error" := Str("Invalid Input"), "details" := Str(TooFewRefs)]));
    }
    x := Remote(Request(Get, RepositoryUrl(api, projectId) + "/merge_base", WithToken(map[], token), params, map[]),
                Standard(o));
  }

  // ---------------------------------------------------------------------------
  // Changelog and submodules

  /** The fields of `add_gitlab_changelog_data`; `from_ref` and `to_ref` go out as "from" and "to". */
  const ChangelogFields: seq<string> := [
    "version", "branch", "config_file", "date", "file", "from", "message", "to", "trailer"]

  lemma LemmaChangelogFields()
    ensures Distinct(ChangelogFields)
    ensures ChangelogFields[0] == "version" && ChangelogFields[5] == "from" && ChangelogFields[7] == "to"
    ensures "from_ref" !in ChangelogFields && "to_ref" !in ChangelogFields
  {
  }

  /** The version always, every other field when truthy. */
  const ChangelogRules: seq<Rule> := seq(9, i => if i == 0 then Unconditionally else WhenTruthy)

  /** The query of `generate_gitlab_changelog_data`. */
  const ChangelogQuery: seq<string> := ["version", "config_file", "date", "from", "to", "trailer"]

  const ChangelogQueryRules: seq<Rule> := seq(6, i => if i == 0 then Unconditionally else WhenTruthy)

  /**
   * `add_gitlab_changelog_data`: the (form) body always holds the version,
   * and each of the eight optional fields when truthy, with `from_ref` and
   * `to_ref` renamed to "from" and "to"; `values` are those eight arguments.
   */
  method AddChangelogData(api: string, token: string, projectId: string, version: string, values: seq<Value>,
                          o: Outcome)
    returns (x: Exchange)
    requires |values| == 8
    ensures x.Remote? && x.request.verb == Post && x.request.url == RepositoryUrl(api, projectId) + "/changelog"
    ensures x.request.headers == AlwaysToken(FormContent, token) && x.request.params == map[]
    ensures "version" in x.request.body && x.request.body["version"] == Str(version)
    ensures var all := RequiredFirst(version, values);
            forall i :: 0 <= i < 9 ==>
              (ChangelogFields[i] in x.request.body <==> Holds(ChangelogRules[i], all[i]))
              && (Holds(ChangelogRules[i], all[i]) ==> x.request.body[ChangelogFields[i]] == all[i])
    ensures var all := RequiredFirst(version, values);
            x.request.body.Keys == set i | 0 <= i < 9 && Holds(ChangelogRules[i], all[i]) :: ChangelogFields[i]
    ensures "from" in x.request.body <==> Truthy(values[4])
    ensures "to" in x.request.body <==> Truthy(values[6])
    ensures "from_ref" !in x.request.body && "to_ref" !in x.request.body
    ensures x.result == Standard(o)
  {
    var all := RequiredFirst(version, values);
    assert all[5] == values[4] && all[7] == values[6];
    LemmaChangelogFields();
    var data := Build(ChangelogFields, ChangelogRules, all);
    x := Remote(Request(Post, RepositoryUrl(api, projectId) + "/changelog", AlwaysToken(FormContent, token), map[],
                        data), Standard(o));
  }

  /**
   * `generate_gitlab_changelog_data`: the query always holds the version,
   * and each of the five optional fields when truthy, with the same
   * renaming; `values` are those five arguments.
   */
  method GenerateChangelogData(api: string, token: string, projectId: string, version: string, values: seq<Value>,
                               o: Outcome)
    returns (x: Exchange)
    requires |values| == 5
    ensures x.Remote? && x.request.verb == Get && x.request.url == RepositoryUrl(api, projectId) + "/changelog"
    ensures x.request.headers == WithToken(map[], token) && x.request.body == map[]
    ensures "version" in x.request.params && x.request.params["version"] == Str(version)
    ensures var all := RequiredFirst(version, values);
            forall i :: 0 <= i < 6 ==>
              (ChangelogQuery[i] in x.request.params <==> Holds(ChangelogQueryRules[i], all[i]))
              && (Holds(ChangelogQueryRules[i], all[i]) ==> x.request.params[ChangelogQuery[i]] == all[i])
    ensures var all := RequiredFirst(version, values);
            x.request.params.Keys == set i | 0 <= i < 6 && Holds(ChangelogQueryRules[i], all[i]) :: ChangelogQuery[i]
    ensures "from" in x.request.params <==> Truthy(values[2])
    ensures "to" in x.request.params <==> Truthy(values[3])
    ensures x.result == Standard(o)
  {
    var all := RequiredFirst(version, values);
    assert all[3] == values[2] && all[4] == values[3];
    var params := Build(ChangelogQuery, ChangelogQueryRules, all);
    assert ChangelogQuery[0] == "version" && ChangelogQuery[3] == "from" && ChangelogQuery[4] == "to";
    x := Remote(Request(Get, RepositoryUrl(api, projectId) + "/changelog", WithToken(map[], token), params, map[]),
                Standard(o));
  }

  /**
   * `update_gitlab_submodule_reference`: the path goes into the URL as
   * given; the (form) body holds the branch and the commit, and the message
   * when non-empty.
   */
  method UpdateSubmoduleReference(api: string, token: string, projectId: string, submodulePath: string, branch: string,
                                  commitSha: string, commitMessage: Option<string>, o: Outcome)
    returns (x: Exchange)
    ensures x.Remote? && x.request.verb == Put
    ensures x.request.url == RepositoryUrl(api, projectId) + "/submodules/" + submodulePath
    ensures x.request.headers == AlwaysToken(FormContent, token) && x.request.params == map[]
    ensures var b := x.request.body;
            "branch" in b && b["branch"] == Str(branch) && "commit_sha" in b && b["commit_sha"] == Str(commitSha)
    ensures "commit_message" in x.request.body <==> Given(commitMessage)
    ensures Given(commitMessage) ==> x.request.body["commit_message"] == Str(commitMessage.value)
    ensures x.request.body.Keys <= {"branch", "commit_sha", "commit_message"}
    ensures x.result == Standard(o)
  {
    var data := map["branch" := Str(branch), "commit_sha" := Str(commitSha)];
    if Given(commitMessage) {
      data := data["commit_message" := Str(commitMessage.value)];
    }
    x := Remote(Request(Put, RepositoryUrl(api, projectId) + "/submodules/" + submodulePath,
                        AlwaysToken(FormContent, token), map[], data), Standard(o));
  }
}
