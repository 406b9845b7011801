/**
 * Commit tools (`server/mcp_tools/commit_tools.py`).
 *
 * The commit tools send PRIVATE-TOKEN only when the token is non-empty
 * (`WithToken`). Several build their query or payload with a loop over a
 * table of optional arguments that skips None and spells booleans as
 * "true"/"false" (`CopyGiven`). Cherry-pick and revert read the JSON body of
 * an HTTP error more closely than the other tools, and the signature tool
 * recognises an unsigned commit by its 404 message; both readings are
 * given here as written (where a non-object body escapes as a Python
 * exception) and as corrected (used by the tools).
 */
module Commits {
  import opened Values
  import opened Params
  import opened Http

  /** `/projects/{project_id}/repository/commits` */
  function CommitsUrl(api: string, projectId: string): string
  {
    api + "/projects/" + projectId + "/repository/commits"
  }

  /** `/projects/{project_id}/repository/commits/{sha}` */
  function CommitUrl(api: string, projectId: string, sha: string): string
  {
    CommitsUrl(api, projectId) + "/" + sha
  }

  /** `str(value).lower()` for a bool, the value itself otherwise. */
  function Spelt(v: Value): (r: Value)
    ensures !r.Bool?
    ensures v.Bool? ==> r.Str? && ParseBool(r.s) == Some(v.b)
    ensures !v.Bool? ==> r == v
  {
    if v.Bool? then Str(BoolText(v.b)) else v
  }

  /** What the copying loop stores for a given value. */
  function Stored(v: Value, spell: bool): Value
  {
    if spell then Spelt(v) else v
  }

  /** The names among the first `n` whose value is not None. */
  function GivenNames(keys: seq<string>, values: seq<Value>, n: nat): set<string>
    requires n <= |keys| && |keys| == |values|
  {
    set j | 0 <= j < n && values[j] != Null :: keys[j]
  }

  lemma LemmaGivenNamesStep(keys: seq<string>, values: seq<Value>, n: nat)
    requires n < |keys| && |keys| == |values|
    ensures GivenNames(keys, values, n + 1) ==
              GivenNames(keys, values, n) + (if values[n] != Null then {keys[n]} else {})
  {
    var before := GivenNames(keys, values, n);
    var after := GivenNames(keys, values, n + 1);
    forall k | k in after
      ensures k in before + (if values[n] != Null then {keys[n]} else {})
    {
      var j :| 0 <= j < n + 1 && values[j] != Null && keys[j] == k;
      if j < n {
        assert k in before;
      }
    }
  }

  /**
   * The loops `for name, value in optional_params.items(): if value is not
   * None: target[name] = ...` (with `spell`, booleans go out as their
   * lower-case text): every argument that is not None is added under its
   * name, and what was there before is kept.
   */
  method CopyGiven(base: map<string, Value>, keys: seq<string>, values: seq<Value>, spell: bool)
    returns (m: map<string, Value>)
    requires |keys| == |values| && Distinct(keys)
    requires forall j :: 0 <= j < |keys| ==> keys[j] !in base
    ensures forall k :: k in base ==> k in m && m[k] == base[k]
    ensures forall j :: 0 <= j < |keys| ==>
              (keys[j] in m <==> values[j] != Null) && (values[j] != Null ==> m[keys[j]] == Stored(values[j], spell))
    ensures m.Keys == base.Keys + set j | 0 <= j < |keys| && values[j] != Null :: keys[j]
  {
    m := base;
    var i := 0;
    while i < |keys|
      invariant 0 <= i <= |keys|
      invariant forall k :: k in base ==> k in m && m[k] == base[k]
      invariant forall j :: 0 <= j < i ==>
                  (keys[j] in m <==> values[j] != Null) && (values[j] != Null ==> m[keys[j]] == Stored(values[j], spell))
      invariant m.Keys == base.Keys + GivenNames(keys, values, i)
    {
      LemmaGivenNamesStep(keys, values, i);
      assert keys[i] !in GivenNames(keys, values, i);
      if values[i] != Null {
        m := m[keys[i] := Stored(values[i], spell)];
      }
      i := i + 1;
    }
  }

  // ---------------------------------------------------------------------------
  // Listing and creating commits

  /**
   * The query names of `list_gitlab_repository_commits`, in the order of its
   * renaming table; the first argument, `all_commits`, goes out as "all".
   */
  const CommitQueryNames: seq<string> := [
    "all", "author", "first_parent", "order", "path", "ref_name", "since", "trailers", "until", "with_stats",
    "per_page", "page"]

  lemma LemmaCommitQueryNames()
    ensures Distinct(CommitQueryNames)
  {
  }

  /**
   * `list_gitlab_repository_commits`: every argument that is not None is sent
   * under its API name, booleans as "true"/"false"; nothing else is sent.
   */
  method ListCommits(api: string, token: string, projectId: string, values: seq<Value>, o: Outcome)
    returns (x: Exchange)
    requires |values| == 12
    ensures x.Remote? && x.request.verb == Get && x.request.url == CommitsUrl(api, projectId)
    ensures x.request.headers == WithToken(map[], token) && x.request.body == map[]
    ensures forall j :: 0 <= j < 12 ==>
              (CommitQueryNames[j] in x.request.params <==> values[j] != Null)
              && (values[j] != Null ==> x.request.params[CommitQueryNames[j]] == Spelt(values[j]))
    ensures x.request.params.Keys == set j | 0 <= j < 12 && values[j] != Null :: CommitQueryNames[j]
    ensures "all" in x.request.params <==> values[0] != Null
    ensures forall k :: k in x.request.params ==> !x.request.params[k].Bool?
    ensures x.result == Standard(o)
  {
    LemmaCommitQueryNames();
    var params := CopyGiven(map[], CommitQueryNames, values, true);
    assert CommitQueryNames[0] == "all";
    x := Remote(Request(Get, CommitsUrl(api, projectId), WithToken(map[], token), params, map[]), Standard(o));
  }

  /** The optional payload fields of `create_gitlab_commit`, in source order. */
  const CommitOptions: seq<string> := [
    "author_email", "author_name", "force", "start_branch", "start_project", "start_sha", "stats"]

  lemma LemmaCommitOptions()
    ensures Distinct(CommitOptions)
    ensures forall j :: 0 <= j < |CommitOptions| ==> CommitOptions[j] !in {"branch", "commit_message", "actions"}
  {
  }

  /**
   * `create_gitlab_commit`: the payload always holds the branch, the message
   * and the actions, and each optional field that is not None, booleans
   * spelt as text.
   */
  method CreateCommit(api: string, token: string, projectId: string, branch: string, commitMessage: string,
                      actions: Value, values: seq<Value>, o: Outcome)
    returns (x: Exchange)
    requires |values| == 7
    ensures x.Remote? && x.request.verb == Post && x.request.url == CommitsUrl(api, projectId)
    ensures x.request.headers == WithToken(JsonContent, token) && x.request.params == map[]
    ensures var body := x.request.body;
            "branch" in body && body["branch"] == Str(branch)
            && "commit_message" in body && body["commit_message"] == Str(commitMessage)
            && "actions" in body && body["actions"] == actions
    ensures forall j :: 0 <= j < 7 ==>
              (CommitOptions[j] in x.request.body <==> values[j] != Null)
              && (values[j] != Null ==> x.request.body[CommitOptions[j]] == Spelt(values[j]))
    ensures x.request.body.Keys ==
              {"branch", "commit_message", "actions"} + set j | 0 <= j < 7 && values[j] != Null :: CommitOptions[j]
    ensures x.result == Standard(o)
  {
    LemmaCommitOptions();
    var payload := map["branch" := Str(branch), "commit_message" := Str(commitMessage), "actions" := actions];
    payload := CopyGiven(payload, CommitOptions, values, true);
    x := Remote(Request(Post, CommitsUrl(api, projectId), WithToken(JsonContent, token), map[], payload), Standard(o));
  }

  /** A boolean query flag sent as text when given. */
  function FlagQuery(key: string, flag: Option<bool>): (params: map<string, Value>)
    ensures key in params <==> flag.Some?
    ensures flag.Some? ==> params[key].Str? && ParseBool(params[key].s) == Some(flag.value)
    ensures params.Keys <= {key}
  {
    if flag.Some? then map[key := Str(BoolText(flag.value))] else map[]
  }

  /** `get_gitlab_single_commit`: `stats` as text when given. */
  method GetSingleCommit(api: string, token: string, projectId: string, sha: string, stats: Option<bool>, o: Outcome)
    returns (x: Exchange)
    ensures x.Remote? && x.request.verb == Get && x.request.url == CommitUrl(api, projectId, sha)
    ensures x.request.headers == WithToken(map[], token) && x.request.body == map[]
    ensures x.request.params == FlagQuery("stats", stats)
    ensures x.result == Standard(o)
  {
    x := Remote(Request(Get, CommitUrl(api, projectId, sha), WithToken(map[], token), FlagQuery("stats", stats), map[]),
                Standard(o));
  }

  const RefQueryNames: seq<string> := ["type", "per_page", "page"]

  /** `get_gitlab_commit_references`: each of the three filters when not None, as given. */
  method GetCommitReferences(api: string, token: string, projectId: string, sha: string, values: seq<Value>,
                             o: Outcome)
    returns (x: Exchange)
    requires |values| == 3
    ensures x.Remote? && x.request.verb == Get && x.request.url == CommitUrl(api, projectId, sha) + "/refs"
    ensures x.request.headers == WithToken(map[], token) && x.request.body == map[]
    ensures forall j :: 0 <= j < 3 ==>
              (RefQueryNames[j] in x.request.params <==> values[j] != Null)
              && (values[j] != Null ==> x.request.params[RefQueryNames[j]] == values[j])
    ensures x.request.params.Keys == set j | 0 <= j < 3 && values[j] != Null :: RefQueryNames[j]
    ensures x.result == Standard(o)
  {
    var params := CopyGiven(map[], RefQueryNames, values, false);
    x := Remote(Request(Get, CommitUrl(api, projectId, sha) + "/refs", WithToken(map[], token), params, map[]),
                Standard(o));
  }

  /** `get_gitlab_commit_sequence`: `first_parent` as text when given. */
  method GetCommitSequence(api: string, token: string, projectId: string, sha: string, firstParent: Option<bool>,
                           o: Outcome)
    returns (x: Exchange)
    ensures x.Remote? && x.request.verb == Get && x.request.url == CommitUrl(api, projectId, sha) + "/sequence"
    ensures x.request.headers == WithToken(map[], token) && x.request.body == map[]
    ensures x.request.params == FlagQuery("first_parent", firstParent)
    ensures x.result == Standard(o)
  {
    x := Remote(Request(Get, CommitUrl(api, projectId, sha) + "/sequence", WithToken(map[], token),
                        FlagQuery("first_parent", firstParent), map[]), Standard(o));
  }

  // ---------------------------------------------------------------------------
  // Cherry-pick and revert

  /** What a Python function does: return a value, or raise an exception it does not catch. */
  datatype Answer = Returned(result: Value) | Raised(error: string)

  /** `needle` occurs in `s` as a contiguous piece. */
  predicate Infix(needle: string, s: string)
  {
    exists i :: 0 <= i <= |s| && needle <= s[i..]
  }

  /**
   * Python's `key in v` on a decoded JSON value: a key of an object, an
   * element of a list, a substring of a string; for None, numbers and
   * booleans it raises TypeError (None here).
   */
  function Contains(v: Value, key: string): Option<bool>
  {
    match v
    case Dict(fields) => Some(key in fields)
    case List(items) => Some(Str(key) in items)
    case Str(s) => Some(Infix(key, s))
    case _ => None
  }

  /**
   * The GitLab error of a cherry-pick or revert: its "message" (else str(e))
   * and its "error_code" (else "unknown_api_error").
   */
  function ApiError(e: string, fields: map<string, Value>): Value
  {
    Dict(map["error" := (if "message" in fields then fields["message"] else Str(e)),
             "error_code" := (if "error_code" in fields then fields["error_code"] else Str("unknown_api_error"))])
  }

  /**
   * The handler of an HTTP error whose body decodes to `v`, as written:
   * the membership tests raise TypeError on a number, a boolean or null,
   * and `.get` raises AttributeError on a list or string that passed them.
   */
  function PickErrorAsWritten(e: string, v: Value): Answer
  {
    match Contains(v, "error_code")
    case None => Raised("TypeError")
    case Some(hasCode) =>
      if hasCode || Contains(v, "message") == Some(true) then
        if v.Dict? then Returned(ApiError(e, v.fields)) else Raised("AttributeError")
      else Returned(Dict(map["error" := Str(e), "details" := v]))
  }

  /**
   * The handler as evidently intended: a JSON object naming a message or
   * an error code is reported as a GitLab error, and any other JSON body
   * as the details of the HTTP error.
   */
  function PickError(e: string, v: Value): (r: Value)
    ensures r.Dict? && "error" in r.fields
  {
    if v.Dict? && ("error_code" in v.fields || "message" in v.fields) then ApiError(e, v.fields)
    else Dict(map["error" := Str(e), "details" := v])
  }

  /**
   * The corrected handler answers for every body, and agrees with the
   * handler as written on every JSON object and on every body for which
   * the written one returns.
   */
  lemma LemmaPickErrorAgrees(e: string, v: Value)
    ensures v.Dict? ==> PickErrorAsWritten(e, v) == Returned(PickError(e, v))
    ensures PickErrorAsWritten(e, v).Returned? ==> PickErrorAsWritten(e, v).result == PickError(e, v)
  {
  }

  /**
   * Inputs that show the written handler escaping: a body that is a JSON
   * number or null raises TypeError, and a list holding "message" raises
   * AttributeError, where the corrected handler reports them as details.
   */
  lemma LemmaPickErrorEscapes(e: string)
    ensures PickErrorAsWritten(e, Int(0)) == Raised("TypeError")
    ensures PickErrorAsWritten(e, Null) == Raised("TypeError")
    ensures PickErrorAsWritten(e, List([Str("message")])) == Raised("AttributeError")
    ensures PickError(e, List([Str("message")])) == Dict(map["error" := Str(e), "details" := List([Str("message")])])
  {
  }

  /**
   * The corrected handler: a GitLab error carries exactly "error" and
   * "error_code", its message when it has one and str(e) otherwise, its
   * code or the default; any other body is carried whole as "details".
   */
  lemma LemmaPickError(e: string, v: Value)
    ensures var r := PickError(e, v);
            if v.Dict? && ("error_code" in v.fields || "message" in v.fields) then
              r.fields.Keys == {"error", "error_code"}
              && r.fields["error"] == (if "message" in v.fields then v.fields["message"] else Str(e))
              && ("error_code" !in v.fields ==> r.fields["error_code"] == Str("unknown_api_error"))
            else
              r.fields.Keys == {"error", "details"} && r.fields["details"] == v
  {
    var r := PickError(e, v);
    if v.Dict? && ("error_code" in v.fields || "message" in v.fields) {
      assert r.fields.Keys == {"error", "error_code"};
    } else {
      assert r.fields.Keys == {"error", "details"};
    }
  }

  /**
   * The answer of cherry-pick and revert, with the corrected handler: 201,
   * and 200 on a dry run, return the body before `raise_for_status()`;
   * otherwise the common body, and errors through the handler.
   */
  function CommitActionResult(dryRun: Option<bool>, o: Outcome): Value
  {
    if o.Received? && o.response.status == 201 then Body(o.response)
    else if o.Received? && o.response.status == 200 && dryRun == Some(true) then Body(o.response)
    else if Fails(o) then
      match o
      case Transport(message) => NetworkError(message)
      case Received(r) =>
        match r.json
        case Parsed(v) => PickError(r.errorText, v)
        case Unparsable(_) => HttpError(r)
    else Body(o.response)
  }

  /**
   * The early returns on 201 and on a dry-run 200 change nothing: every
   * non-error outcome answers the common body; transport failures and
   * bodies that are not JSON are the shared error dictionaries.
   */
  lemma LemmaCommitActionResult(dryRun: Option<bool>, o: Outcome)
    ensures !Fails(o) ==> CommitActionResult(dryRun, o) == Standard(o)
    ensures o.Transport? ==> CommitActionResult(dryRun, o) == Failure(o)
    ensures o.Received? && Fails(o) && o.response.json.Unparsable? ==> CommitActionResult(dryRun, o) == Failure(o)
    ensures o.Received? && Fails(o) && o.response.json.Parsed? ==>
              CommitActionResult(dryRun, o) == PickError(o.response.errorText, o.response.json.value)
  {
  }

  /** The payload of cherry-pick: the branch, `dry_run` as text and `message` when given. */
  function PickPayload(branch: string, dryRun: Option<bool>, message: Option<string>): (body: map<string, Value>)
    ensures "branch" in body && body["branch"] == Str(branch)
    ensures "dry_run" in body <==> dryRun.Some?
    ensures dryRun.Some? ==> body["dry_run"].Str? && ParseBool(body["dry_run"].s) == Some(dryRun.value)
    ensures "message" in body <==> message.Some?
    ensures message.Some? ==> body["message"] == Str(message.value)
    ensures body.Keys <= {"branch", "dry_run", "message"}
  {
    var b := map["branch" := Str(branch)] + FlagQuery("dry_run", dryRun);
    if message.Some? then b["message" := Str(message.value)] else b
  }

  /** `cherry_pick_gitlab_commit` */
  method CherryPickCommit(api: string, token: string, projectId: string, sha: string, branch: string,
                          dryRun: Option<bool>, message: Option<string>, o: Outcome)
    returns (x: Exchange)
    ensures x.Remote? && x.request.verb == Post && x.request.url == CommitUrl(api, projectId, sha) + "/cherry_pick"
    ensures x.request.headers == WithToken(JsonContent, token) && x.request.params == map[]
    ensures x.request.body == PickPayload(branch, dryRun, message)
    ensures x.result == CommitActionResult(dryRun, o)
  {
    x := Remote(Request(Post, CommitUrl(api, projectId, sha) + "/cherry_pick", WithToken(JsonContent, token), map[],
                        PickPayload(branch, dryRun, message)), CommitActionResult(dryRun, o));
  }

  /** `revert_gitlab_commit`: the branch, and `dry_run` as text when given. */
  method RevertCommit(api: string, token: string, projectId: string, sha: string, branch: string, dryRun: Option<bool>,
                      o: Outcome)
    returns (x: Exchange)
    ensures x.Remote? && x.request.verb == Post && x.request.url == CommitUrl(api, projectId, sha) + "/revert"
    ensures x.request.headers == WithToken(JsonContent, token) && x.request.params == map[]
    ensures x.request.body == PickPayload(branch, dryRun, None)
    ensures "message" !in x.request.body
    ensures x.result == CommitActionResult(dryRun, o)
  {
    x := Remote(Request(Post, CommitUrl(api, projectId, sha) + "/revert", WithToken(JsonContent, token), map[],
                        PickPayload(branch, dryRun, None)), CommitActionResult(dryRun, o));
  }

  // ---------------------------------------------------------------------------
  // Diffs, comments, discussions

  /** `get_gitlab_commit_diff`: `unidiff` as text when given. */
  method GetCommitDiff(api: string, token: string, projectId: string, sha: string, unidiff: Option<bool>, o: Outcome)
    returns (x: Exchange)
    ensures x.Remote? && x.request.verb == Get && x.request.url == CommitUrl(api, projectId, sha) + "/diff"
    ensures x.request.headers == WithToken(map[], token) && x.request.body == map[]
    ensures x.request.params == FlagQuery("unidiff", unidiff)
    ensures x.result == Standard(o)
  {
    x := Remote(Request(Get, CommitUrl(api, projectId, sha) + "/diff", WithToken(map[], token),
                        FlagQuery("unidiff", unidiff), map[]), Standard(o));
  }

  /** `get_gitlab_commit_comments` */
  method GetCommitComments(api: string, token: string, projectId: string, sha: string, o: Outcome)
    returns (x: Exchange)
    ensures x.Remote? && x.request.verb == Get && x.request.url == CommitUrl(api, projectId, sha) + "/comments"
    ensures x.request.headers == WithToken(map[], token)
    ensures x.request.params == map[] && x.request.body == map[]
    ensures x.result == Standard(o)
  {
    x := Remote(Request(Get, CommitUrl(api, projectId, sha) + "/comments", WithToken(map[], token), map[], map[]),
                Standard(o));
  }

  /** `get_gitlab_commit_discussions` */
  method GetCommitDiscussions(api: string, token: string, projectId: string, sha: string, o: Outcome)
    returns (x: Exchange)
    ensures x.Remote? && x.request.verb == Get && x.request.url == CommitUrl(api, projectId, sha) + "/discussions"
    ensures x.request.headers == WithToken(map[], token)
    ensures x.request.params == map[] && x.request.body == map[]
    ensures x.result == Standard(o)
  {
    x := Remote(Request(Get, CommitUrl(api, projectId, sha) + "/discussions", WithToken(map[], token), map[], map[]),
                Standard(o));
  }

  /** `post_gitlab_commit_comment`: the note always; path, line and line type when not None. */
  method PostCommitComment(api: string, token: string, projectId: string, sha: string, note: string,
                           path: Option<string>, line: Option<int>, lineType: Option<string>, o: Outcome)
    returns (x: Exchange)
    ensures x.Remote? && x.request.verb == Post && x.request.url == CommitUrl(api, projectId, sha) + "/comments"
    ensures x.request.headers == WithToken(JsonContent, token) && x.request.params == map[]
    ensures "note" in x.request.body && x.request.body["note"] == Str(note)
    ensures "path" in x.request.body <==> path.Some?
    ensures "line" in x.request.body <==> line.Some?
    ensures "line_type" in x.request.body <==> lineType.Some?
    ensures path.Some? ==> x.request.body["path"] == Str(path.value)
    ensures line.Some? ==> x.request.body["line"] == Int(line.value)
    ensures lineType.Some? ==> x.request.body["line_type"] == Str(lineType.value)
    ensures x.request.body.Keys <= {"note", "path", "line", "line_type"}
    ensures x.result == Standard(o)
  {
    var payload := map["note" := Str(note)];
    if path.Some? {
      payload := payload["path" := Str(path.value)];
    }
    if line.Some? {
      payload := payload["line" := Int(line.value)];
    }
    if lineType.Some? {
      payload := payload["line_type" := Str(lineType.value)];
    }
    x := Remote(Request(Post, CommitUrl(api, projectId, sha) + "/comments", WithToken(JsonContent, token), map[],
                        payload), Standard(o));
  }

  // ---------------------------------------------------------------------------
  // Statuses

  const StatusQueryNames: seq<string> := [
    "all", "name", "order_by", "pipeline_id", "ref", "sort", "stage", "per_page", "page"]

  lemma LemmaStatusQueryNames()
    ensures Distinct(StatusQueryNames)
  {
  }

  /**
   * `list_gitlab_commit_statuses`: every filter that is not None is sent,
   * booleans as "true"/"false".
   */
  method ListCommitStatuses(api: string, token: string, projectId: string, sha: string, values: seq<Value>,
                            o: Outcome)
    returns (x: Exchange)
    requires |values| == 9
    ensures x.Remote? && x.request.verb == Get && x.request.url == CommitUrl(api, projectId, sha) + "/statuses"
    ensures x.request.headers == WithToken(map[], token) && x.request.body == map[]
    ensures forall j :: 0 <= j < 9 ==>
              (StatusQueryNames[j] in x.request.params <==> values[j] != Null)
              && (values[j] != Null ==> x.request.params[StatusQueryNames[j]] == Spelt(values[j]))
    ensures x.request.params.Keys == set j | 0 <= j < 9 && values[j] != Null :: StatusQueryNames[j]
    ensures x.result == Standard(o)
  {
    LemmaStatusQueryNames();
    var params := CopyGiven(map[], StatusQueryNames, values, true);
    x := Remote(Request(Get, CommitUrl(api, projectId, sha) + "/statuses", WithToken(map[], token), params, map[]),
                Standard(o));
  }

  const PipelineStatusOptions: seq<string> := ["coverage", "description", "pipeline_id", "ref", "target_url"]

  /**
   * `set_gitlab_commit_pipeline_status`: the state always; `name` when
   * given, and `context` only when `name` is not; then each option that is
   * not None, as given.
   */
  method SetCommitPipelineStatus(api: string, token: string, projectId: string, sha: string, state: string,
                                 name: Option<string>, context: Option<string>, values: seq<Value>, o: Outcome)
    returns (x: Exchange)
    requires |values| == 5
    ensures x.Remote? && x.request.verb == Post && x.request.url == api + "/projects/" + projectId + "/statuses/" + sha
    ensures x.request.headers == WithToken(JsonContent, token) && x.request.params == map[]
    ensures "state" in x.request.body && x.request.body["state"] == Str(state)
    ensures "name" in x.request.body <==> name.Some?
    ensures name.Some? ==> x.request.body["name"] == Str(name.value)
    ensures "context" in x.request.body <==> name.None? && context.Some?
    ensures name.None? && context.Some? ==> x.request.body["context"] == Str(context.value)
    ensures !("name" in x.request.body && "context" in x.request.body)
    ensures forall j :: 0 <= j < 5 ==>
              (PipelineStatusOptions[j] in x.request.body <==> values[j] != Null)
              && (values[j] != Null ==> x.request.body[PipelineStatusOptions[j]] == values[j])
    ensures x.request.body.Keys <= {"state", "name", "context"} + set j | 0 <= j < 5 :: PipelineStatusOptions[j]
    ensures x.result == Standard(o)
  {
    var payload := map["state" := Str(state)];
    if name.Some? {
      payload := payload["name" := Str(name.value)];
    } else if context.Some? {
      payload := payload["context" := Str(context.value)];
    }
    payload := CopyGiven(payload, PipelineStatusOptions, values, false);
    x := Remote(Request(Post, api + "/projects/" + projectId + "/statuses/" + sha, WithToken(JsonContent, token), map[],
                        payload), Standard(o));
  }

  /** `list_gitlab_commit_merge_requests`: `state` when not None. */
  method ListCommitMergeRequests(api: string, token: string, projectId: string, sha: string, state: Option<string>,
                                 o: Outcome)
    returns (x: Exchange)
    ensures x.Remote? && x.request.verb == Get && x.request.url == CommitUrl(api, projectId, sha) + "/merge_requests"
    ensures x.request.headers == WithToken(map[], token) && x.request.body == map[]
    ensures "state" in x.request.params <==> state.Some?
    ensures state.Some? ==> x.request.params["state"] == Str(state.value)
    ensures x.request.params.Keys <= {"state"}
    ensures x.result == Standard(o)
  {
    var params := if state.Some? then map["state" := Str(state.value)] else map[];
    x := Remote(Request(Get, CommitUrl(api, projectId, sha) + "/merge_requests", WithToken(map[], token), params, map[]),
                Standard(o));
  }

  // ---------------------------------------------------------------------------
  // Signatures

  const UnsignedMessage: string := "404 gpg signature not found"
  const UnsignedError: string := "Commit signature not found (Commit is likely unsigned)."

  function Unsigned(v: Value): Value
  {
    Dict(map["error" := Str(UnsignedError), "details" := v])
  }

  /**
   * The signature tool's handler of an HTTP error with a JSON body, as
   * written: on 404 it calls `.get('message', '').lower()`, which raises
   * AttributeError when the body is not an object or its message is not a
   * string.
   */
  function SignatureErrorAsWritten(r: Response, v: Value): Answer
  {
    if r.status != 404 then Returned(HttpError(r))
    else if !v.Dict? then Raised("AttributeError")
    else
      var m := if "message" in v.fields then v.fields["message"] else Str("");
      if !m.Str? then Raised("AttributeError")
      else if Lower(m.s) == UnsignedMessage then Returned(Unsigned(v))
      else Returned(HttpError(r))
  }

  /**
   * The handler as evidently intended: a 404 whose JSON object says, in any
   * case, that no GPG signature was found is an unsigned commit; every other
   * error is the shared HTTP error.
   */
  function SignatureError(r: Response, v: Value): Value
  {
    if r.status == 404 && v.Dict? && "message" in v.fields && v.fields["message"].Str?
       && Lower(v.fields["message"].s) == UnsignedMessage
    then Unsigned(v)
    else HttpError(r)
  }

  /**
   * The corrected handler answers every error body, whatever its JSON type,
   * with an error dictionary; the unsigned-commit notice is only ever the
   * answer to a 404 whose body is a JSON object.
   */
  lemma LemmaSignatureError(r: Response, v: Value)
    ensures var a := SignatureError(r, v);
            a.Dict? && a.fields.Keys == {"error", "details"} && ReadError(a) != None
    ensures SignatureError(r, v) != HttpError(r) ==> r.status == 404 && v.Dict? && SignatureError(r, v) == Unsigned(v)
  {
  }

  /**
   * The corrected handler agrees with the written one wherever that one
   * returns, and on every status but 404; a 404 whose body is a JSON list
   * shows the written one escaping.
   */
  lemma LemmaSignatureErrorAgrees(r: Response, v: Value)
    ensures SignatureErrorAsWritten(r, v).Returned? ==> SignatureErrorAsWritten(r, v).result == SignatureError(r, v)
    ensures r.status != 404 ==> SignatureErrorAsWritten(r, v) == Returned(HttpError(r))
    ensures r.status == 404 && v.List? ==> SignatureErrorAsWritten(r, v) == Raised("AttributeError")
    ensures r.status == 404 && v.List? ==> SignatureError(r, v) == HttpError(r)
  {
  }

  /** The answer of `get_gitlab_commit_signature`, with the corrected handler. */
  function SignatureResult(o: Outcome): Value
  {
    if Fails(o) then
      match o
      case Transport(message) => NetworkError(message)
      case Received(r) =>
        match r.json
        case Parsed(v) => SignatureError(r, v)
        case Unparsable(_) => HttpError(r)
    else Body(o.response)
  }

  /** The JSON object a 404 answers for an unsigned commit: its message, lower-cased, is the GPG message. */
  predicate UnsignedBody(o: Outcome)
  {
    o.Received? && o.response.status == 404 && o.response.json.Parsed?
    && var v := o.response.json.value;
       v.Dict? && "message" in v.fields && v.fields["message"].Str? && Lower(v.fields["message"].s) == UnsignedMessage
  }

  /**
   * An unsigned commit is reported, with the body kept as details, exactly
   * for a 404 whose message is the GPG message in any letter case; every
   * other outcome is the common answer.
   */
  lemma LemmaSignatureResult(o: Outcome)
    ensures UnsignedBody(o) ==> SignatureResult(o) == Unsigned(o.response.json.value)
    ensures !UnsignedBody(o) ==> SignatureResult(o) == Standard(o)
  {
  }

  /** `get_gitlab_commit_signature` */
  method GetCommitSignature(api: string, token: string, projectId: string, sha: string, o: Outcome)
    returns (x: Exchange)
    ensures x.Remote? && x.request.verb == Get && x.request.url == CommitUrl(api, projectId, sha) + "/signature"
    ensures x.request.headers == WithToken(map[], token)
    ensures x.request.params == map[] && x.request.body == map[]
    ensures x.result == SignatureResult(o)
  {
    x := Remote(Request(Get, CommitUrl(api, projectId, sha) + "/signature", WithToken(map[], token), map[], map[]),
                SignatureResult(o));
  }
}
