/**
 * Merge-request tools (`server/mcp_tools/merge_request_tools.py`): the
 * None-dropping payloads, the empty-update guards, the `key[]` and
 * `not[key]` query encodings, and the tools that answer certain statuses
 * (204, 304) themselves instead of decoding the body.
 */
module MergeRequests {
  import opened Values
  import opened Params
  import opened Http

  // ---------------------------------------------------------------------------
  // Approving a merge request

  /** The payload of `approve_gitlab_merge_request`: each of the two arguments when not None. */
  predicate ApproveBody(payload: map<string, Value>, approvalPassword: Value, sha: Value)
  {
    && ("approval_password" in payload <==> approvalPassword != Null)
    && ("sha" in payload <==> sha != Null)
    && ("approval_password" in payload ==> payload["approval_password"] == approvalPassword)
    && ("sha" in payload ==> payload["sha"] == sha)
    && (payload.Keys <= {"approval_password", "sha"})
  }

  /** Builds the payload of `approve_gitlab_merge_request`. */
  method ApprovePayload(approvalPassword: Value, sha: Value) returns (payload: map<string, Value>)
    ensures ApproveBody(payload, approvalPassword, sha)
  {
    payload := map[];
    if approvalPassword != Null {
      payload := payload["approval_password" := approvalPassword];
    }
    if sha != Null {
      payload := payload["sha" := sha];
    }
  }

  /** `approve_gitlab_merge_request` */
  method ApproveMergeRequest(api: string, token: string, projectId: string, iid: int,
                             approvalPassword: Value, sha: Value, o: Outcome)
    returns (x: Exchange)
    ensures x.Remote? && x.request.verb == Post
    ensures x.request.url == api + "/projects/" + projectId + "/merge_requests/" + DecimalText(iid) + "/approve"
    ensures x.request.headers == WithToken(JsonContent, token)
    ensures ApproveBody(x.request.body, approvalPassword, sha)
    ensures x.request.params == map[]
    ensures x.result == Standard(o)
  {
    var payload := ApprovePayload(approvalPassword, sha);
    x := Remote(Request(Post, api + "/projects/" + projectId + "/merge_requests/" + DecimalText(iid) + "/approve",
                        WithToken(JsonContent, token), map[], payload),
                Standard(o));
  }

  // ---------------------------------------------------------------------------
  // Updates that are skipped when no field is given

  const NoUpdateWarning: Value := Dict(map[
    "warning" := Str("No update parameters provided."),
    "details" := Str("The API call was skipped because no optional parameters were set.")])

  /** The keyword arguments `update_gitlab_approval_configuration` copies into its payload. */
  const ApprovalConfigurationFields: seq<string> := [
    "approvals_before_merge", "disable_overriding_approvers_per_merge_request",
    "merge_requests_author_approval", "merge_requests_disable_committers_approval",
    "require_password_to_approve", "require_reauthentication_to_approve",
    "reset_approvals_on_push", "selective_code_owner_removals"]

  /** The keyword arguments `update_gitlab_project_approval_rule` copies into its payload. */
  const ProjectRuleFields: seq<string> := [
    "name", "approvals_required", "applies_to_all_protected_branches", "group_ids",
    "protected_branch_ids", "remove_hidden_groups", "user_ids", "usernames"]

  /** The keyword arguments `update_gitlab_merge_request_approval_rule` copies into its payload. */
  const MergeRequestRuleFields: seq<string> := [
    "name", "approvals_required", "group_ids", "remove_hidden_groups", "user_ids", "usernames"]

  /** The keyword arguments `update_gitlab_group_approval_rule` copies into its payload. */
  const GroupRuleFields: seq<string> := ["name", "approvals_required", "group_ids", "user_ids"]

  lemma LemmaRuleFieldsDistinct()
    ensures Distinct(ApprovalConfigurationFields) && Distinct(ProjectRuleFields)
    ensures Distinct(MergeRequestRuleFields) && Distinct(GroupRuleFields)
  {
  }

  /**
   * The shared body of the updates that refuse an empty payload (the four
   * approval updates and `update_gitlab_merge_request`): the payload holds
   * every field that is not None; when that leaves it empty the tool answers
   * `skipped` and sends nothing.
   */
  method UpdateUnlessEmpty(fields: seq<string>, values: seq<Value>, skipped: Value, verb: Method, url: string,
                           headers: map<string, string>, o: Outcome)
    returns (x: Exchange)
    requires |fields| == |values| && Distinct(fields)
    ensures x.Local? <==> forall i :: 0 <= i < |values| ==> values[i] == Null
    ensures x.Local? ==> x.result == skipped
    ensures x.Remote? ==> x.request.verb == verb && x.request.url == url && x.request.headers == headers
    ensures x.Remote? ==> x.result == Standard(o) && x.request.params == map[]
    ensures x.Remote? ==> SentNotNone(x.request.body, fields, values)
  {
    var args := Zip(fields, values);
    LemmaZipDistinct(fields, values);
    LemmaKeepNotNoneKeys(fields, values);
    var payload := KeepNotNone(args);
    LemmaKeepNotNoneEmpty(args);
    if payload == map[] {
      return Local(skipped);
    }
    x := Remote(Request(verb, url, headers, map[], payload), Standard(o));
  }

  /** `update_gitlab_approval_configuration` */
  method UpdateApprovalConfiguration(api: string, token: string, projectId: string, values: seq<Value>, o: Outcome)
    returns (x: Exchange)
    requires |values| == |ApprovalConfigurationFields|
    ensures x.Local? <==> forall i :: 0 <= i < |values| ==> values[i] == Null
    ensures x.Local? ==> x.result == NoUpdateWarning
    ensures x.Remote? ==> x.request.verb == Post && x.request.url == api + "/projects/" + projectId + "/approvals"
    ensures x.Remote? ==> x.request.headers == WithToken(JsonContent, token) && x.request.params == map[]
    ensures x.Remote? ==> SentNotNone(x.request.body, ApprovalConfigurationFields, values)
    ensures x.Remote? ==> x.result == Standard(o)
  {
    LemmaRuleFieldsDistinct();
    x := UpdateUnlessEmpty(ApprovalConfigurationFields, values, NoUpdateWarning, Post, api + "/projects/" + projectId + "/approvals",
                           WithToken(JsonContent, token), o);
  }

  /** `update_gitlab_project_approval_rule` */
  method UpdateProjectApprovalRule(api: string, token: string, projectId: string, ruleId: int, values: seq<Value>, o: Outcome)
    returns (x: Exchange)
    requires |values| == |ProjectRuleFields|
    ensures x.Local? <==> forall i :: 0 <= i < |values| ==> values[i] == Null
    ensures x.Local? ==> x.result == NoUpdateWarning
    ensures x.Remote? ==> x.request.verb == Put
    ensures x.Remote? ==> x.request.url == api + "/projects/" + projectId + "/approval_rules/" + DecimalText(ruleId)
    ensures x.Remote? ==> x.request.headers == WithToken(JsonContent, token) && x.request.params == map[]
    ensures x.Remote? ==> SentNotNone(x.request.body, ProjectRuleFields, values)
    ensures x.Remote? ==> x.result == Standard(o)
  {
    LemmaRuleFieldsDistinct();
    x := UpdateUnlessEmpty(ProjectRuleFields, values, NoUpdateWarning, Put,
                           api + "/projects/" + projectId + "/approval_rules/" + DecimalText(ruleId),
                           WithToken(JsonContent, token), o);
  }

  /** `update_gitlab_merge_request_approval_rule` */
  method UpdateMergeRequestApprovalRule(api: string, token: string, projectId: string, iid: int, ruleId: int,
                                        values: seq<Value>, o: Outcome)
    returns (x: Exchange)
    requires |values| == |MergeRequestRuleFields|
    ensures x.Local? <==> forall i :: 0 <= i < |values| ==> values[i] == Null
    ensures x.Local? ==> x.result == NoUpdateWarning
    ensures x.Remote? ==> x.request.verb == Put
    ensures x.Remote? ==>
              x.request.url == api + "/projects/" + projectId + "/merge_requests/" + DecimalText(iid) + "/approval_rules/" + DecimalText(ruleId)
    ensures x.Remote? ==> x.request.headers == WithToken(JsonContent, token) && x.request.params == map[]
    ensures x.Remote? ==> SentNotNone(x.request.body, MergeRequestRuleFields, values)
    ensures x.Remote? ==> x.result == Standard(o)
  {
    LemmaRuleFieldsDistinct();
    x := UpdateUnlessEmpty(MergeRequestRuleFields, values, NoUpdateWarning, Put,
                           api + "/projects/" + projectId + "/merge_requests/" + DecimalText(iid) + "/approval_rules/" + DecimalText(ruleId),
                           WithToken(JsonContent, token), o);
  }

  /** `update_gitlab_group_approval_rule` */
  method UpdateGroupApprovalRule(api: string, token: string, groupId: string, ruleId: int, values: seq<Value>, o: Outcome)
    returns (x: Exchange)
    requires |values| == |GroupRuleFields|
    ensures x.Local? <==> forall i :: 0 <= i < |values| ==> values[i] == Null
    ensures x.Local? ==> x.result == NoUpdateWarning
    ensures x.Remote? ==> x.request.verb == Put
    ensures x.Remote? ==> x.request.url == api + "/groups/" + groupId + "/approval_rules/" + DecimalText(ruleId)
    ensures x.Remote? ==> x.request.headers == WithToken(JsonContent, token) && x.request.params == map[]
    ensures x.Remote? ==> SentNotNone(x.request.body, GroupRuleFields, values)
    ensures x.Remote? ==> x.result == Standard(o)
  {
    LemmaRuleFieldsDistinct();
    x := UpdateUnlessEmpty(GroupRuleFields, values, NoUpdateWarning, Put,
                           api + "/groups/" + groupId + "/approval_rules/" + DecimalText(ruleId),
                           WithToken(JsonContent, token), o);
  }

  // ---------------------------------------------------------------------------
  // Creating approval rules

  /**
   * The payload of the three create-rule tools: `name` and
   * `approvals_required` always, then each optional argument that is not
   * None, unchanged. (The project variant tests `isinstance(value, bool)`
   * but both of its branches store the value as it is.)
   */
  method RulePayload(name: Value, approvalsRequired: Value, optional: seq<Arg>)
    returns (payload: map<string, Value>)
    requires DistinctNames(optional)
    ensures payload == map["name" := name, "approvals_required" := approvalsRequired] + KeepNotNone(optional)
  {
    var base := map["name" := name, "approvals_required" := approvalsRequired];
    payload := base;
    var i := 0;
    while i < |optional|
      invariant 0 <= i <= |optional|
      invariant payload == Apply(base, NotNoneRows(optional)[..i])
    {
      assert NotNoneRows(optional)[..i + 1][..i] == NotNoneRows(optional)[..i];
      var (key, value) := optional[i];
      if value != Null {
        payload := payload[key := value];
      }
      i := i + 1;
    }
    assert NotNoneRows(optional)[..|optional|] == NotNoneRows(optional);
    LemmaNotNoneRows(base, optional);
  }

  /** The optional arguments of `create_gitlab_project_approval_rule`. */
  const ProjectRuleOptional: seq<string> := [
    "applies_to_all_protected_branches", "group_ids", "protected_branch_ids", "report_type",
    "rule_type", "user_ids", "usernames"]

  /** The optional arguments of `create_gitlab_merge_request_approval_rule`. */
  const MergeRequestRuleOptional: seq<string> := ["approval_project_rule_id", "group_ids", "user_ids", "usernames"]

  /** The optional arguments of `create_gitlab_group_approval_rule`. */
  const GroupRuleOptional: seq<string> := ["group_ids", "rule_type", "user_ids"]

  lemma LemmaRuleOptionalDistinct()
    ensures Distinct(ProjectRuleOptional) && Distinct(MergeRequestRuleOptional) && Distinct(GroupRuleOptional)
    ensures forall k :: k in ProjectRuleOptional + MergeRequestRuleOptional + GroupRuleOptional ==>
              k != "name" && k != "approvals_required"
  {
  }

  /**
   * A create-rule payload: always the name and the required count, then
   * each optional argument exactly when it is not None, with its value, and
   * nothing else.
   */
  predicate RuleBody(body: map<string, Value>, name: Value, approvalsRequired: Value, optionalNames: seq<string>,
                     values: seq<Value>)
  {
    && |optionalNames| == |values|
    && "name" in body && body["name"] == name
    && "approvals_required" in body && body["approvals_required"] == approvalsRequired
    && (forall i :: 0 <= i < |optionalNames| ==>
          (optionalNames[i] in body <==> values[i] != Null)
          && (values[i] != Null ==> body[optionalNames[i]] == values[i]))
    && body.Keys == {"name", "approvals_required"} + set i | 0 <= i < |values| && values[i] != Null :: optionalNames[i]
  }

  /** A create-rule request: a JSON POST of the rule payload. */
  method CreateRule(optionalNames: seq<string>, url: string, token: string, name: Value, approvalsRequired: Value,
                    values: seq<Value>, o: Outcome)
    returns (x: Exchange)
    requires |values| == |optionalNames| && Distinct(optionalNames)
    requires forall i :: 0 <= i < |optionalNames| ==> optionalNames[i] != "name" && optionalNames[i] != "approvals_required"
    ensures x.Remote? && x.request.verb == Post && x.request.url == url
    ensures x.request.headers == WithToken(JsonContent, token) && x.request.params == map[]
    ensures RuleBody(x.request.body, name, approvalsRequired, optionalNames, values)
    ensures x.result == Standard(o)
  {
    LemmaKeepNotNoneKeys(optionalNames, values);
    var payload := RulePayload(name, approvalsRequired, Zip(optionalNames, values));
    x := Remote(Request(Post, url, WithToken(JsonContent, token), map[], payload), Standard(o));
  }

  /** `create_gitlab_project_approval_rule` */
  method CreateProjectApprovalRule(api: string, token: string, projectId: string, name: Value, approvalsRequired: Value,
                                   values: seq<Value>, o: Outcome)
    returns (x: Exchange)
    requires |values| == |ProjectRuleOptional|
    ensures x.Remote? && x.request.verb == Post && x.request.url == api + "/projects/" + projectId + "/approval_rules"
    ensures x.request.headers == WithToken(JsonContent, token) && x.request.params == map[]
    ensures RuleBody(x.request.body, name, approvalsRequired, ProjectRuleOptional, values)
    ensures x.result == Standard(o)
  {
    LemmaRuleOptionalDistinct();
    x := CreateRule(ProjectRuleOptional, api + "/projects/" + projectId + "/approval_rules", token, name,
                    approvalsRequired, values, o);
  }

  /** `create_gitlab_merge_request_approval_rule` */
  method CreateMergeRequestApprovalRule(api: string, token: string, projectId: string, iid: int, name: Value,
                                        approvalsRequired: Value, values: seq<Value>, o: Outcome)
    returns (x: Exchange)
    requires |values| == |MergeRequestRuleOptional|
    ensures x.Remote? && x.request.verb == Post
    ensures x.request.url == api + "/projects/" + projectId + "/merge_requests/" + DecimalText(iid) + "/approval_rules"
    ensures x.request.headers == WithToken(JsonContent, token) && x.request.params == map[]
    ensures RuleBody(x.request.body, name, approvalsRequired, MergeRequestRuleOptional, values)
    ensures x.result == Standard(o)
  {
    LemmaRuleOptionalDistinct();
    x := CreateRule(MergeRequestRuleOptional, api + "/projects/" + projectId + "/merge_requests/" + DecimalText(iid) + "/approval_rules",
                    token, name, approvalsRequired, values, o);
  }

  /** `create_gitlab_group_approval_rule` */
  method CreateGroupApprovalRule(api: string, token: string, groupId: string, name: Value, approvalsRequired: Value,
                                 values: seq<Value>, o: Outcome)
    returns (x: Exchange)
    requires |values| == |GroupRuleOptional|
    ensures x.Remote? && x.request.verb == Post && x.request.url == api + "/groups/" + groupId + "/approval_rules"
    ensures x.request.headers == WithToken(JsonContent, token) && x.request.params == map[]
    ensures RuleBody(x.request.body, name, approvalsRequired, GroupRuleOptional, values)
    ensures x.result == Standard(o)
  {
    LemmaRuleOptionalDistinct();
    x := CreateRule(GroupRuleOptional, api + "/groups/" + groupId + "/approval_rules", token, name,
                    approvalsRequired, values, o);
  }

  // ---------------------------------------------------------------------------
  // `not[key]` filters

  /** The query key a negated filter is sent under. */
  function NotKey(key: string): string
  {
    "not[" + key + "]"
  }

  predicate IsNotKey(k: string)
  {
    |k| >= 4 && k[0] == 'n' && k[1] == 'o' && k[2] == 't' && k[3] == '[' 
  }

  lemma LemmaNotKey(a: string, b: string)
    ensures IsNotKey(NotKey(a))
    ensures NotKey(a) == NotKey(b) ==> a == b
  {
    if NotKey(a) == NotKey(b) {
      assert |a| == |b|;
      assert a == NotKey(a)[4..|NotKey(a)| - 1];
      assert b == NotKey(b)[4..|NotKey(b)| - 1];
    }
  }

  function NotRows(notParams: seq<Arg>): (t: seq<Insertion>)
    ensures |t| == |notParams|
    ensures forall i :: 0 <= i < |t| ==> t[i] == IfNotNone(NotKey(notParams[i].0), notParams[i].1)
  {
    seq(|notParams|, i requires 0 <= i < |notParams| => IfNotNone(NotKey(notParams[i].0), notParams[i].1))
  }

  /**
   * The `not_params` loop: each entry that is not None is added under
   * `not[<key>]`; every other key already present is untouched. An absent or
   * empty `not_params` is the empty sequence (`if not_params:` skips both).
   */
  method AddNotParams(params0: map<string, Value>, notParams: seq<Arg>) returns (params: map<string, Value>)
    requires DistinctNames(notParams)
    ensures forall k :: k in params0 && !IsNotKey(k) ==> k in params && params[k] == params0[k]
    ensures forall i :: 0 <= i < |notParams| ==>
              (NotKey(notParams[i].0) in params <==> notParams[i].1 != Null || NotKey(notParams[i].0) in params0)
    ensures forall i :: 0 <= i < |notParams| && notParams[i].1 != Null ==> params[NotKey(notParams[i].0)] == notParams[i].1
    ensures params.Keys <= params0.Keys + set i | 0 <= i < |notParams| :: NotKey(notParams[i].0)
  {
    var t := NotRows(notParams);
    params := params0;
    var i := 0;
    while i < |notParams|
      invariant 0 <= i <= |notParams|
      invariant params == Apply(params0, t[..i])
    {
      assert t[..i + 1][..i] == t[..i];
      var (key, value) := notParams[i];
      if value != Null {
        params := params[NotKey(key) := value];
      }
      i := i + 1;
    }
    assert t[..|t|] == t;
    LemmaNotRows(params0, notParams);
  }

  /** What the `not[...]` rows do to a dictionary, key by key. */
  lemma LemmaNotRows(m: map<string, Value>, notParams: seq<Arg>)
    requires DistinctNames(notParams)
    ensures forall k :: k in m && !IsNotKey(k) ==> k in Apply(m, NotRows(notParams)) && Apply(m, NotRows(notParams))[k] == m[k]
    ensures forall i :: 0 <= i < |notParams| ==>
              (NotKey(notParams[i].0) in Apply(m, NotRows(notParams)) <==> notParams[i].1 != Null || NotKey(notParams[i].0) in m)
    ensures forall i :: 0 <= i < |notParams| && notParams[i].1 != Null ==>
              Apply(m, NotRows(notParams))[NotKey(notParams[i].0)] == notParams[i].1
    ensures Apply(m, NotRows(notParams)).Keys <= m.Keys + set i | 0 <= i < |notParams| :: NotKey(notParams[i].0)
  {
    var t := NotRows(notParams);
    assert Distinct(KeysOf(t)) by {
      forall i, j | 0 <= i < j < |t|
        ensures KeysOf(t)[i] != KeysOf(t)[j]
      {
        LemmaNotKey(notParams[i].0, notParams[j].0);
      }
    }
    LemmaApplyDistinct(m, t);
    forall k | k in m && !IsNotKey(k)
      ensures k in Apply(m, t) && Apply(m, t)[k] == m[k]
    {
      forall j | 0 <= j < |t|
        ensures t[j].key != k
      {
        LemmaNotKey(notParams[j].0, notParams[j].0);
      }
      LemmaApplyOutside(m, t, k);
    }
    LemmaApplyKeys(m, t);
    assert Written(t) <= set i | 0 <= i < |notParams| :: NotKey(notParams[i].0);
  }

  // ---------------------------------------------------------------------------
  // `key[]` list filters

  /**
   * The query key of a project or group merge-request filter: a list value
   * for one of the `listKeys` is sent under `key[]`, anything else under its
   * own name.
   */
  function Placed(key: string, value: Value, listKeys: set<string>): string
  {
    if value.List? && key in listKeys then key + "[]" else key
  }

  predicate EndsWithBracket(k: string)
  {
    |k| > 0 && k[|k| - 1] == ']'
  }

  lemma LemmaBrackets(a: string, b: string)
    ensures EndsWithBracket(a + "[]")
    ensures a + "[]" == b + "[]" ==> a == b
  {
    if a + "[]" == b + "[]" {
      assert a == (a + "[]")[..|a|];
      assert b == (b + "[]")[..|b|];
    }
  }

  /**
   * A filter name that cannot be mistaken for another kind of key: it is
   * non-empty, does not end in `]` and does not begin with `not`.
   */
  predicate PlainName(k: string)
  {
    |k| > 0 && !EndsWithBracket(k) && !(|k| >= 3 && k[0] == 'n' && k[1] == 'o' && k[2] == 't')
  }

  /** Pairwise distinct plain filter names. */
  predicate Plain(names: seq<string>)
  {
    Distinct(names) && forall i :: 0 <= i < |names| ==> PlainName(names[i])
  }

  /** The keyword arguments of a listing: pairwise distinct plain names. */
  predicate PlainNames(args: seq<Arg>)
  {
    DistinctNames(args) && forall i :: 0 <= i < |args| ==> PlainName(args[i].0)
  }

  lemma LemmaZipPlain(names: seq<string>, values: seq<Value>)
    requires |names| == |values| && Plain(names)
    ensures PlainNames(Zip(names, values))
  {
    LemmaZipDistinct(names, values);
  }

  /** A list of names made of two plain halves that share no name is plain. */
  lemma LemmaPlainHalves(a: seq<string>, b: seq<string>)
    requires Plain(a) && Plain(b) && Apart(a, b)
    ensures Plain(a + b)
  {
    LemmaDistinctHalves(a, b);
    forall i | 0 <= i < |a + b|
      ensures PlainName((a + b)[i])
    {
      if i >= |a| {
        assert (a + b)[i] == b[i - |a|];
      }
    }
  }

  /** Neither spelling of a plain filter name is a `not[...]` key. */
  lemma LemmaPlacedNotKey(k: string, v: Value, listKeys: set<string>)
    requires PlainName(k)
    ensures !IsNotKey(k) && !IsNotKey(k + "[]")
    ensures !IsNotKey(Placed(k, v, listKeys)) && !IsNotKey(Unplaced(k, v, listKeys))
  {
    assert |k| < 3 ==> (k + "[]")[|k|] == '[';
  }

  /** Between two different plain names, neither spelling of one is a spelling of the other. */
  lemma LemmaPlainApart(args: seq<Arg>, i: int, j: int)
    requires PlainNames(args) && 0 <= i < |args| && 0 <= j < |args| && i != j
    ensures args[i].0 != args[j].0 && args[i].0 + "[]" != args[j].0 + "[]"
    ensures args[i].0 != args[j].0 + "[]" && args[i].0 + "[]" != args[j].0
  {
    if i < j {
      assert args[i].0 != args[j].0;
    } else {
      assert args[j].0 != args[i].0;
    }
    LemmaBrackets(args[i].0, args[j].0);
    LemmaBrackets(args[j].0, args[i].0);
  }

  function PlacedRows(args: seq<Arg>, listKeys: set<string>): (t: seq<Insertion>)
    ensures |t| == |args|
    ensures forall i :: 0 <= i < |t| ==> t[i] == IfNotNone(Placed(args[i].0, args[i].1, listKeys), args[i].1)
  {
    seq(|args|, i requires 0 <= i < |args| => IfNotNone(Placed(args[i].0, args[i].1, listKeys), args[i].1))
  }

  /** The spelling of a filter that its row does not write. */
  function Unplaced(key: string, value: Value, listKeys: set<string>): string
  {
    if value.List? && key in listKeys then key else key + "[]"
  }

  /**
   * One filter of the listing loop: present under its placed spelling iff it
   * is not None, with its value, and never under its other spelling.
   */
  lemma LemmaPlacedAt(args: seq<Arg>, listKeys: set<string>, i: int)
    requires PlainNames(args) && 0 <= i < |args|
    ensures var p := Apply(map[], PlacedRows(args, listKeys));
      (Placed(args[i].0, args[i].1, listKeys) in p <==> args[i].1 != Null)
      && (args[i].1 != Null ==> p[Placed(args[i].0, args[i].1, listKeys)] == args[i].1)
      && Unplaced(args[i].0, args[i].1, listKeys) !in p
  {
    var t := PlacedRows(args, listKeys);
    assert KeyUniqueAt(t, i) by {
      forall j | 0 <= j < |t| && j != i
        ensures t[j].key != t[i].key
      {
        LemmaPlainApart(args, i, j);
      }
    }
    LemmaApplyAt(map[], t, i);
    forall j | 0 <= j < |t|
      ensures t[j].key != Unplaced(args[i].0, args[i].1, listKeys)
    {
      if j == i {
        LemmaBrackets(args[i].0, args[i].0);
      } else {
        LemmaPlainApart(args, i, j);
      }
    }
    LemmaApplyOutside(map[], t, Unplaced(args[i].0, args[i].1, listKeys));
  }

  /**
   * The `api_params` loop of the project and group merge-request listings:
   * every value that is not None is sent, under `key[]` when it is a list for
   * one of `listKeys` and under its own name otherwise; a None value is sent
   * under neither spelling, and no other key is sent.
   */
  method PlaceParams(args: seq<Arg>, listKeys: set<string>) returns (params: map<string, Value>)
    requires PlainNames(args)
    ensures forall i :: 0 <= i < |args| ==>
              (Placed(args[i].0, args[i].1, listKeys) in params <==> args[i].1 != Null)
              && (args[i].1 != Null ==> params[Placed(args[i].0, args[i].1, listKeys)] == args[i].1)
              && Unplaced(args[i].0, args[i].1, listKeys) !in params
    ensures params.Keys <= set i | 0 <= i < |args| :: Placed(args[i].0, args[i].1, listKeys)
  {
    var t := PlacedRows(args, listKeys);
    params := map[];
    var i := 0;
    while i < |args|
      invariant 0 <= i <= |args|
      invariant params == Apply(map[], t[..i])
    {
      assert t[..i + 1][..i] == t[..i];
      var (k, v) := args[i];
      if v != Null {
        if v.List? && k in listKeys {
          params := params[k + "[]" := v];
        } else {
          params := params[k := v];
        }
      }
      i := i + 1;
    }
    assert t[..|t|] == t;
    forall i | 0 <= i < |args|
      ensures (Placed(args[i].0, args[i].1, listKeys) in params <==> args[i].1 != Null)
              && (args[i].1 != Null ==> params[Placed(args[i].0, args[i].1, listKeys)] == args[i].1)
              && Unplaced(args[i].0, args[i].1, listKeys) !in params
    {
      LemmaPlacedAt(args, listKeys, i);
    }
    LemmaApplyKeys(map[], t);
    assert Written(t) <= set i | 0 <= i < |args| :: Placed(args[i].0, args[i].1, listKeys);
  }

  // ---------------------------------------------------------------------------
  // Listing merge requests

  /** The filters of `list_gitlab_merge_requests`, in source order (first half). */
  const MergeRequestFiltersA: seq<string> := [
    "state", "scope", "labels", "milestone", "author_id", "author_username", "assignee_id",
    "reviewer_id", "reviewer_username", "approved_by_ids", "approver_ids", "merge_user_id",
    "merge_user_username", "my_reaction_emoji", "source_branch", "target_branch", "search"]

  /** The filters of `list_gitlab_merge_requests` (second half); `in_scope` is sent as `in`. */
  const MergeRequestFiltersB: seq<string> := [
    "in", "order_by", "sort", "created_after", "created_before", "updated_after", "updated_before",
    "deployed_after", "deployed_before", "environment", "view", "render_html", "with_labels_details",
    "with_merge_status_recheck", "wip", "per_page", "page"]

  /** The filters of `list_gitlab_project_merge_requests` (first half). */
  const ProjectMergeRequestFiltersA: seq<string> := [
    "state", "scope", "iids", "labels", "milestone", "author_id", "author_username", "assignee_id",
    "reviewer_id", "reviewer_username", "approved_by_ids", "approver_ids", "merge_user_id",
    "merge_user_username", "my_reaction_emoji", "source_branch"]

  /** The filters of `list_gitlab_project_merge_requests` (second half). */
  const ProjectMergeRequestFiltersB: seq<string> := [
    "target_branch", "search", "order_by", "sort", "created_after", "created_before", "updated_after",
    "updated_before", "environment", "view", "wip", "with_labels_details", "with_merge_status_recheck",
    "per_page", "page"]

  /** The filters of `list_gitlab_group_merge_requests` (first half). */
  const GroupMergeRequestFiltersA: seq<string> := [
    "state", "scope", "labels", "milestone", "author_id", "author_username", "assignee_id",
    "reviewer_id", "reviewer_username", "approved_by_ids", "approved_by_usernames", "approver_ids",
    "merge_user_id", "merge_user_username", "my_reaction_emoji"]

  /** The filters of `list_gitlab_group_merge_requests` (second half). */
  const GroupMergeRequestFiltersB: seq<string> := [
    "source_branch", "target_branch", "search", "order_by", "sort", "created_after", "created_before",
    "updated_after", "updated_before", "non_archived", "view", "with_labels_details",
    "with_merge_status_recheck", "per_page", "page"]

  /** The filters whose list values the project listing sends as `key[]`. */
  const ProjectListKeys: set<string> := {"iids", "approved_by_ids", "approver_ids"}

  /** The filters whose list values the group listing sends as `key[]`. */
  const GroupListKeys: set<string> := {"approved_by_ids", "approved_by_usernames", "approver_ids"}

  lemma LemmaMergeRequestFiltersA()
    ensures Plain(MergeRequestFiltersA)
  {
  }

  lemma LemmaMergeRequestFiltersB()
    ensures Plain(MergeRequestFiltersB)
  {
  }

  lemma LemmaMergeRequestFiltersApart()
    ensures Apart(MergeRequestFiltersA, MergeRequestFiltersB)
  {
  }

  /** The filter names of the listing are pairwise distinct plain names. */
  lemma LemmaMergeRequestFilters()
    ensures Plain(MergeRequestFiltersA + MergeRequestFiltersB)
  {
    LemmaMergeRequestFiltersA();
    LemmaMergeRequestFiltersB();
    LemmaMergeRequestFiltersApart();
    LemmaPlainHalves(MergeRequestFiltersA, MergeRequestFiltersB);
  }

  lemma LemmaProjectMergeRequestFiltersA()
    ensures Plain(ProjectMergeRequestFiltersA)
  {
  }

  lemma LemmaProjectMergeRequestFiltersB()
    ensures Plain(ProjectMergeRequestFiltersB)
  {
  }

  lemma LemmaProjectMergeRequestFiltersApart()
    ensures Apart(ProjectMergeRequestFiltersA, ProjectMergeRequestFiltersB)
  {
  }

  /** The filter names of the listing are pairwise distinct plain names. */
  lemma LemmaProjectMergeRequestFilters()
    ensures Plain(ProjectMergeRequestFiltersA + ProjectMergeRequestFiltersB)
  {
    LemmaProjectMergeRequestFiltersA();
    LemmaProjectMergeRequestFiltersB();
    LemmaProjectMergeRequestFiltersApart();
    LemmaPlainHalves(ProjectMergeRequestFiltersA, ProjectMergeRequestFiltersB);
  }

  lemma LemmaGroupMergeRequestFiltersA()
    ensures Plain(GroupMergeRequestFiltersA)
  {
  }

  lemma LemmaGroupMergeRequestFiltersB()
    ensures Plain(GroupMergeRequestFiltersB)
  {
  }

  lemma LemmaGroupMergeRequestFiltersApart()
    ensures Apart(GroupMergeRequestFiltersA, GroupMergeRequestFiltersB)
  {
  }

  /** The filter names of the listing are pairwise distinct plain names. */
  lemma LemmaGroupMergeRequestFilters()
    ensures Plain(GroupMergeRequestFiltersA + GroupMergeRequestFiltersB)
  {
    LemmaGroupMergeRequestFiltersA();
    LemmaGroupMergeRequestFiltersB();
    LemmaGroupMergeRequestFiltersApart();
    LemmaPlainHalves(GroupMergeRequestFiltersA, GroupMergeRequestFiltersB);
  }

  /**
   * Adds the `not[...]` filters to a query whose keys are all plain filter
   * spellings: the filters are kept, and each negated filter is present
   * exactly when its value is not None.
   */
  lemma LemmaNotOverPlain(params0: map<string, Value>, notParams: seq<Arg>, params: map<string, Value>)
    requires forall k :: k in params0 ==> !IsNotKey(k)
    requires forall k :: k in params0 && !IsNotKey(k) ==> k in params && params[k] == params0[k]
    requires forall i :: 0 <= i < |notParams| ==>
               (NotKey(notParams[i].0) in params <==> notParams[i].1 != Null || NotKey(notParams[i].0) in params0)
    requires params.Keys <= params0.Keys + set i | 0 <= i < |notParams| :: NotKey(notParams[i].0)
    ensures forall k :: k in params0 ==> k in params && params[k] == params0[k]
    ensures forall k :: !IsNotKey(k) ==> (k in params <==> k in params0)
    ensures forall i :: 0 <= i < |notParams| ==> (NotKey(notParams[i].0) in params <==> notParams[i].1 != Null)
  {
    forall i | 0 <= i < |notParams|
      ensures NotKey(notParams[i].0) !in params0
    {
      LemmaNotKey(notParams[i].0, notParams[i].0);
    }
    forall k | !IsNotKey(k) && k in params
      ensures k in params0
    {
      if k !in params0 {
        var i :| 0 <= i < |notParams| && k == NotKey(notParams[i].0);
        LemmaNotKey(notParams[i].0, notParams[i].0);
      }
    }
  }

  /**
   * `list_gitlab_merge_requests`: every filter that is not None is sent
   * under its own name (the comprehension keeps False, 0, "" and []), and
   * every `not_params` entry that is not None under `not[<key>]`.
   */
  method ListMergeRequests(api: string, token: string, values: seq<Value>, notParams: seq<Arg>, o: Outcome)
    returns (x: Exchange)
    requires |values| == |MergeRequestFiltersA + MergeRequestFiltersB|
    requires DistinctNames(notParams)
    ensures x.Remote? && x.request.verb == Get && x.request.url == api + "/merge_requests"
    ensures x.request.headers == WithToken(map[], token)
    ensures forall i :: 0 <= i < |values| ==>
              var name := (MergeRequestFiltersA + MergeRequestFiltersB)[i];
              (name in x.request.params <==> values[i] != Null)
              && (values[i] != Null ==> x.request.params[name] == values[i])
    ensures forall i :: 0 <= i < |notParams| ==>
              (NotKey(notParams[i].0) in x.request.params <==> notParams[i].1 != Null)
              && (notParams[i].1 != Null ==> x.request.params[NotKey(notParams[i].0)] == notParams[i].1)
    ensures x.request.params.Keys <= (set i | 0 <= i < |values| :: (MergeRequestFiltersA + MergeRequestFiltersB)[i])
                                     + (set i | 0 <= i < |notParams| :: NotKey(notParams[i].0))
    ensures x.request.body == map[]
    ensures x.result == Standard(o)
  {
    var names := MergeRequestFiltersA + MergeRequestFiltersB;
    LemmaMergeRequestFilters();
    LemmaZipPlain(names, values);
    var filters := Zip(names, values);
    var params := KeepNotNone(filters);
    LemmaKeepNotNoneKeys(names, values);
    forall k | k in params
      ensures !IsNotKey(k)
    {
      var i :| 0 <= i < |filters| && filters[i].0 == k;
      LemmaPlacedNotKey(k, values[i], {});
    }
    var params' := AddNotParams(params, notParams);
    LemmaNotOverPlain(params, notParams, params');
    forall i | 0 <= i < |values|
      ensures names[i] in params' <==> values[i] != Null
    {
      LemmaPlacedNotKey(names[i], values[i], {});
    }
    x := Remote(Request(Get, api + "/merge_requests", WithToken(map[], token), params', map[]), Standard(o));
  }

  /** The listing loop followed by the `not_params` loop, as the project and group listings run them. */
  method ListingParams(filters: seq<Arg>, listKeys: set<string>, notParams: seq<Arg>) returns (params: map<string, Value>)
    requires PlainNames(filters) && DistinctNames(notParams)
    ensures forall i :: 0 <= i < |filters| ==>
              var key := Placed(filters[i].0, filters[i].1, listKeys);
              (key in params <==> filters[i].1 != Null)
              && (filters[i].1 != Null ==> params[key] == filters[i].1)
              && Unplaced(filters[i].0, filters[i].1, listKeys) !in params
    ensures forall i :: 0 <= i < |notParams| ==>
              (NotKey(notParams[i].0) in params <==> notParams[i].1 != Null)
              && (notParams[i].1 != Null ==> params[NotKey(notParams[i].0)] == notParams[i].1)
    ensures params.Keys <= (set i | 0 <= i < |filters| :: Placed(filters[i].0, filters[i].1, listKeys))
                           + (set i | 0 <= i < |notParams| :: NotKey(notParams[i].0))
  {
    var placed := PlaceParams(filters, listKeys);
    forall k | k in placed
      ensures !IsNotKey(k)
    {
      var i :| 0 <= i < |filters| && k == Placed(filters[i].0, filters[i].1, listKeys);
      LemmaPlacedNotKey(filters[i].0, filters[i].1, listKeys);
    }
    params := AddNotParams(placed, notParams);
    LemmaNotOverPlain(placed, notParams, params);
    forall i | 0 <= i < |filters|
      ensures !IsNotKey(Placed(filters[i].0, filters[i].1, listKeys))
      ensures !IsNotKey(Unplaced(filters[i].0, filters[i].1, listKeys))
    {
      LemmaPlacedNotKey(filters[i].0, filters[i].1, listKeys);
    }
  }

  /**
   * `list_gitlab_project_merge_requests`: a list value for `iids`,
   * `approved_by_ids` or `approver_ids` is sent under `key[]` (and not under
   * its own name); every other filter that is not None under its own name.
   */
  method ListProjectMergeRequests(api: string, token: string, projectId: string, values: seq<Value>,
                                  notParams: seq<Arg>, o: Outcome)
    returns (x: Exchange)
    requires |values| == |ProjectMergeRequestFiltersA + ProjectMergeRequestFiltersB|
    requires DistinctNames(notParams)
    ensures x.Remote? && x.request.verb == Get && x.request.url == api + "/projects/" + projectId + "/merge_requests"
    ensures x.request.headers == WithToken(map[], token)
    ensures forall i :: 0 <= i < |values| ==>
              var name := (ProjectMergeRequestFiltersA + ProjectMergeRequestFiltersB)[i];
              var key := Placed(name, values[i], ProjectListKeys);
              (key in x.request.params <==> values[i] != Null)
              && (values[i] != Null ==> x.request.params[key] == values[i])
              && Unplaced(name, values[i], ProjectListKeys) !in x.request.params
    ensures forall i :: 0 <= i < |notParams| ==>
              (NotKey(notParams[i].0) in x.request.params <==> notParams[i].1 != Null)
              && (notParams[i].1 != Null ==> x.request.params[NotKey(notParams[i].0)] == notParams[i].1)
    ensures x.request.params.Keys
              <= (set i | 0 <= i < |values| :: Placed((ProjectMergeRequestFiltersA + ProjectMergeRequestFiltersB)[i], values[i], ProjectListKeys))
                 + (set i | 0 <= i < |notParams| :: NotKey(notParams[i].0))
    ensures x.request.body == map[]
    ensures x.result == Standard(o)
  {
    var names := ProjectMergeRequestFiltersA + ProjectMergeRequestFiltersB;
    LemmaProjectMergeRequestFilters();
    LemmaZipPlain(names, values);
    var params := ListingParams(Zip(names, values), ProjectListKeys, notParams);
    x := Remote(Request(Get, api + "/projects/" + projectId + "/merge_requests", WithToken(map[], token), params, map[]),
                Standard(o));
  }

  /**
   * `list_gitlab_group_merge_requests`: as the project listing, with
   * `approved_by_ids`, `approved_by_usernames` and `approver_ids` as the
   * filters whose list values are sent under `key[]`.
   */
  method ListGroupMergeRequests(api: string, token: string, groupId: string, values: seq<Value>,
                                notParams: seq<Arg>, o: Outcome)
    returns (x: Exchange)
    requires |values| == |GroupMergeRequestFiltersA + GroupMergeRequestFiltersB|
    requires DistinctNames(notParams)
    ensures x.Remote? && x.request.verb == Get && x.request.url == api + "/groups/" + groupId + "/merge_requests"
    ensures x.request.headers == WithToken(map[], token)
    ensures forall i :: 0 <= i < |values| ==>
              var name := (GroupMergeRequestFiltersA + GroupMergeRequestFiltersB)[i];
              var key := Placed(name, values[i], GroupListKeys);
              (key in x.request.params <==> values[i] != Null)
              && (values[i] != Null ==> x.request.params[key] == values[i])
              && Unplaced(name, values[i], GroupListKeys) !in x.request.params
    ensures forall i :: 0 <= i < |notParams| ==>
              (NotKey(notParams[i].0) in x.request.params <==> notParams[i].1 != Null)
              && (notParams[i].1 != Null ==> x.request.params[NotKey(notParams[i].0)] == notParams[i].1)
    ensures x.request.params.Keys
              <= (set i | 0 <= i < |values| :: Placed((GroupMergeRequestFiltersA + GroupMergeRequestFiltersB)[i], values[i], GroupListKeys))
                 + (set i | 0 <= i < |notParams| :: NotKey(notParams[i].0))
    ensures x.request.body == map[]
    ensures x.result == Standard(o)
  {
    var names := GroupMergeRequestFiltersA + GroupMergeRequestFiltersB;
    LemmaGroupMergeRequestFilters();
    LemmaZipPlain(names, values);
    var params := ListingParams(Zip(names, values), GroupListKeys, notParams);
    x := Remote(Request(Get, api + "/groups/" + groupId + "/merge_requests", WithToken(map[], token), params, map[]),
                Standard(o));
  }

  // ---------------------------------------------------------------------------
  // Single merge requests: get, create, update, merge, delete

  /** The query options of `get_gitlab_single_merge_request`. */
  const SingleMergeRequestOptions: seq<string> := ["include_diverged_commits_count", "include_rebase_in_progress", "render_html"]

  /** The fields of `create_gitlab_merge_request`, in source order. */
  const CreateMergeRequestFields: seq<string> := [
    "source_branch", "target_branch", "title", "description", "target_project_id", "assignee_ids",
    "reviewer_ids", "labels", "milestone_id", "remove_source_branch", "squash", "allow_collaboration",
    "merge_after", "approvals_before_merge", "assignee_id", "allow_maintainer_to_push"]

  /** The fields of `update_gitlab_merge_request`, in source order (first half). */
  const UpdateMergeRequestFieldsA: seq<string> := [
    "title", "description", "target_branch", "state_event", "assignee_ids", "reviewer_ids", "add_labels",
    "remove_labels", "labels"]

  /** The fields of `update_gitlab_merge_request` (second half). */
  const UpdateMergeRequestFieldsB: seq<string> := [
    "milestone_id", "remove_source_branch", "squash", "discussion_locked", "allow_collaboration", "merge_after",
    "assignee_id", "allow_maintainer_to_push"]

  const UpdateMergeRequestFields: seq<string> := UpdateMergeRequestFieldsA + UpdateMergeRequestFieldsB

  /** The fields of `merge_gitlab_merge_request`, in source order. */
  const MergeOptions: seq<string> := [
    "auto_merge", "merge_commit_message", "sha", "should_remove_source_branch", "squash_commit_message",
    "squash", "merge_when_pipeline_succeeds"]

  lemma LemmaSingleMergeRequestNames()
    ensures Distinct(SingleMergeRequestOptions) && Distinct(MergeOptions)
  {
  }

  lemma LemmaCreateMergeRequestFields()
    ensures Distinct(CreateMergeRequestFields)
  {
  }

  lemma LemmaUpdateMergeRequestFieldsHalves()
    ensures Distinct(UpdateMergeRequestFieldsA) && Distinct(UpdateMergeRequestFieldsB)
    ensures Apart(UpdateMergeRequestFieldsA, UpdateMergeRequestFieldsB)
  {
  }

  lemma LemmaUpdateMergeRequestFields()
    ensures Distinct(UpdateMergeRequestFields)
  {
    LemmaUpdateMergeRequestFieldsHalves();
    LemmaDistinctHalves(UpdateMergeRequestFieldsA, UpdateMergeRequestFieldsB);
  }

  /**
   * A request whose query (`inQuery`) or JSON body is the None-dropping
   * comprehension over `names` and `values`: exactly the names whose value
   * is not None are sent, each with its value.
   */
  method NotNoneRequest(names: seq<string>, values: seq<Value>, inQuery: bool, verb: Method, url: string,
                        headers: map<string, string>, o: Outcome)
    returns (x: Exchange)
    requires |names| == |values| && Distinct(names)
    ensures x.Remote? && x.request.verb == verb && x.request.url == url && x.request.headers == headers
    ensures SentNotNone(if inQuery then x.request.params else x.request.body, names, values)
    ensures (if inQuery then x.request.body else x.request.params) == map[]
    ensures x.result == Standard(o)
  {
    LemmaKeepNotNoneKeys(names, values);
    var filtered := KeepNotNone(Zip(names, values));
    if inQuery {
      x := Remote(Request(verb, url, headers, filtered, map[]), Standard(o));
    } else {
      x := Remote(Request(verb, url, headers, map[], filtered), Standard(o));
    }
  }

  /** `get_gitlab_single_merge_request` */
  method GetSingleMergeRequest(api: string, token: string, projectId: string, iid: int, values: seq<Value>, o: Outcome)
    returns (x: Exchange)
    requires |values| == |SingleMergeRequestOptions|
    ensures x.Remote? && x.request.verb == Get
    ensures x.request.url == api + "/projects/" + projectId + "/merge_requests/" + DecimalText(iid)
    ensures x.request.headers == WithToken(map[], token) && x.request.body == map[]
    ensures SentNotNone(x.request.params, SingleMergeRequestOptions, values)
    ensures x.result == Standard(o)
  {
    LemmaSingleMergeRequestNames();
    x := NotNoneRequest(SingleMergeRequestOptions, values, true, Get,
                        api + "/projects/" + projectId + "/merge_requests/" + DecimalText(iid), WithToken(map[], token), o);
  }

  /** `create_gitlab_merge_request`: every field that is not None is sent, including False, "" and []. */
  method CreateMergeRequest(api: string, token: string, projectId: string, values: seq<Value>, o: Outcome)
    returns (x: Exchange)
    requires |values| == |CreateMergeRequestFields|
    ensures x.Remote? && x.request.verb == Post && x.request.url == api + "/projects/" + projectId + "/merge_requests"
    ensures x.request.headers == WithToken(map[], token) && x.request.params == map[]
    ensures SentNotNone(x.request.body, CreateMergeRequestFields, values)
    ensures x.result == Standard(o)
  {
    LemmaCreateMergeRequestFields();
    x := NotNoneRequest(CreateMergeRequestFields, values, false, Post, api + "/projects/" + projectId + "/merge_requests",
                        WithToken(map[], token), o);
  }

  const UpdateRefused: Value :=
    Dict(map["error" := Str("Update failed: Must provide at least one field to update (e.g., title, description, state_event).")])

  /**
   * `update_gitlab_merge_request`: every field that is not None is sent,
   * including False, "" and []; with every field None the tool answers an
   * error and sends nothing.
   */
  method UpdateMergeRequest(api: string, token: string, projectId: string, iid: int, values: seq<Value>, o: Outcome)
    returns (x: Exchange)
    requires |values| == |UpdateMergeRequestFields|
    ensures x.Local? <==> forall i :: 0 <= i < |values| ==> values[i] == Null
    ensures x.Local? ==> x.result == UpdateRefused
    ensures x.Remote? ==> x.request.verb == Put
    ensures x.Remote? ==> x.request.url == api + "/projects/" + projectId + "/merge_requests/" + DecimalText(iid)
    ensures x.Remote? ==> x.request.headers == WithToken(map[], token) && x.request.params == map[]
    ensures x.Remote? ==> SentNotNone(x.request.body, UpdateMergeRequestFields, values)
    ensures x.Remote? ==> x.result == Standard(o)
  {
    LemmaUpdateMergeRequestFields();
    x := UpdateUnlessEmpty(UpdateMergeRequestFields, values, UpdateRefused, Put,
                           api + "/projects/" + projectId + "/merge_requests/" + DecimalText(iid), WithToken(map[], token), o);
  }

  /** `merge_gitlab_merge_request` */
  method MergeMergeRequest(api: string, token: string, projectId: string, iid: int, values: seq<Value>, o: Outcome)
    returns (x: Exchange)
    requires |values| == |MergeOptions|
    ensures x.Remote? && x.request.verb == Put
    ensures x.request.url == api + "/projects/" + projectId + "/merge_requests/" + DecimalText(iid) + "/merge"
    ensures x.request.headers == WithToken(map[], token) && x.request.params == map[]
    ensures SentNotNone(x.request.body, MergeOptions, values)
    ensures x.result == Standard(o)
  {
    LemmaSingleMergeRequestNames();
    x := NotNoneRequest(MergeOptions, values, false, Put,
                        api + "/projects/" + projectId + "/merge_requests/" + DecimalText(iid) + "/merge", WithToken(map[], token), o);
  }

  /** The message of a delete that succeeded with a status other than 204. */
  function UnexpectedDeleteMessage(noun: string, status: int): string
  {
    noun + " deleted, received unexpected status code " + DecimalText(status)
  }

  /**
   * The answer of `delete_gitlab_merge_request` (noun "Merge request") and
   * `delete_gitlab_merge_request_dependency` (noun "Dependency"): None on 204,
   * a success dictionary naming any other non-error status.
   */
  function DeleteResult(noun: string, o: Outcome): Value
  {
    if Fails(o) then Failure(o)
    else if o.response.status == 204 then Null
    else Dict(map["status" := Str("Success"), "message" := Str(UnexpectedDeleteMessage(noun, o.response.status))])
  }

  /**
   * Deleting never decodes the body on success: 204 gives None, another
   * non-error status a success dictionary from whose message the status can
   * be read back; failures are the shared error dictionaries.
   */
  lemma LemmaDeleteResult(noun: string, o: Outcome)
    ensures Fails(o) ==> DeleteResult(noun, o) == Failure(o)
    ensures o.Received? && o.response.status == 204 ==> DeleteResult(noun, o) == Null
    ensures !Fails(o) && o.response.status != 204 ==>
              var r := DeleteResult(noun, o);
              var prefix := noun + " deleted, received unexpected status code ";
              r.Dict? && r.fields.Keys == {"status", "message"} && r.fields["status"] == Str("Success")
              && ReadError(r) == None
              && r.fields["message"].Str? && prefix <= r.fields["message"].s
              && ParseInt(r.fields["message"].s[|prefix|..]) == Some(o.response.status)
  {
    if !Fails(o) && o.response.status != 204 {
      var prefix := noun + " deleted, received unexpected status code ";
      var m := UnexpectedDeleteMessage(noun, o.response.status);
      assert m == prefix + DecimalText(o.response.status);
      assert prefix <= m && m[|prefix|..] == DecimalText(o.response.status);
      LemmaDecimalRoundTrip(o.response.status);
    }
  }

  /** `delete_gitlab_merge_request` */
  method DeleteMergeRequest(api: string, token: string, projectId: string, iid: int, o: Outcome)
    returns (x: Exchange)
    ensures x.Remote? && x.request.verb == Delete
    ensures x.request.url == api + "/projects/" + projectId + "/merge_requests/" + DecimalText(iid)
    ensures x.request.headers == WithToken(map[], token)
    ensures x.request.params == map[] && x.request.body == map[]
    ensures x.result == DeleteResult("Merge request", o)
  {
    x := Remote(Request(Delete, api + "/projects/" + projectId + "/merge_requests/" + DecimalText(iid),
                        WithToken(map[], token), map[], map[]),
                DeleteResult("Merge request", o));
  }

  /** `delete_gitlab_merge_request_dependency` */
  method DeleteMergeRequestDependency(api: string, token: string, projectId: string, iid: int, blockId: int, o: Outcome)
    returns (x: Exchange)
    ensures x.Remote? && x.request.verb == Delete
    ensures x.request.url == api + "/projects/" + projectId + "/merge_requests/" + DecimalText(iid) + "/blocks/" + DecimalText(blockId)
    ensures x.request.headers == WithToken(map[], token)
    ensures x.request.params == map[] && x.request.body == map[]
    ensures x.result == DeleteResult("Dependency", o)
  {
    x := Remote(Request(Delete, api + "/projects/" + projectId + "/merge_requests/" + DecimalText(iid) + "/blocks/" + DecimalText(blockId),
                        WithToken(map[], token), map[], map[]),
                DeleteResult("Dependency", o));
  }

  // ---------------------------------------------------------------------------
  // Deleting approval rules

  function RuleDeletedMessage(ruleId: int): string
  {
    "Successfully deleted approval rule " + DecimalText(ruleId) + "."
  }

  /**
   * The answer of the project and merge-request delete-rule tools: on 204 a
   * dictionary with the message and `status_code: 204`; on another non-error
   * status the decoded body.
   */
  function DeleteRuleResult(ruleId: int, o: Outcome): Value
  {
    if Fails(o) then Failure(o)
    else if o.response.status == 204 then
      Dict(map["message" := Str(RuleDeletedMessage(ruleId)), "status_code" := Int(204)])
    else Body(o.response)
  }

  /**
   * On 204 the answer carries `status_code: 204` and a message from which
   * the rule id can be read back, and it is not an error dictionary.
   */
  lemma LemmaDeleteRuleResult(ruleId: int, o: Outcome)
    ensures Fails(o) ==> DeleteRuleResult(ruleId, o) == Failure(o)
    ensures !Fails(o) && o.response.status != 204 ==> DeleteRuleResult(ruleId, o) == Body(o.response)
    ensures o.Received? && o.response.status == 204 ==>
              var r := DeleteRuleResult(ruleId, o);
              var prefix := "Successfully deleted approval rule ";
              r.Dict? && r.fields.Keys == {"message", "status_code"} && r.fields["status_code"] == Int(204)
              && ReadError(r) == None
              && r.fields["message"].Str? && prefix <= r.fields["message"].s
              && ParseInt(r.fields["message"].s[|prefix|..|r.fields["message"].s| - 1]) == Some(ruleId)
  {
    if o.Received? && o.response.status == 204 {
      var prefix := "Successfully deleted approval rule ";
      var m := RuleDeletedMessage(ruleId);
      assert m == prefix + DecimalText(ruleId) + ".";
      assert prefix <= m && m[|prefix|..|m| - 1] == DecimalText(ruleId);
      LemmaDecimalRoundTrip(ruleId);
    }
  }

  /** `delete_gitlab_project_approval_rule` */
  method DeleteProjectApprovalRule(api: string, token: string, projectId: string, ruleId: int, o: Outcome)
    returns (x: Exchange)
    ensures x.Remote? && x.request.verb == Delete
    ensures x.request.url == api + "/projects/" + projectId + "/approval_rules/" + DecimalText(ruleId)
    ensures x.request.headers == WithToken(map[], token)
    ensures x.request.params == map[] && x.request.body == map[]
    ensures x.result == DeleteRuleResult(ruleId, o)
  {
    x := Remote(Request(Delete, api + "/projects/" + projectId + "/approval_rules/" + DecimalText(ruleId),
                        WithToken(map[], token), map[], map[]),
                DeleteRuleResult(ruleId, o));
  }

  /** `delete_gitlab_merge_request_approval_rule` */
  method DeleteMergeRequestApprovalRule(api: string, token: string, projectId: string, iid: int, ruleId: int, o: Outcome)
    returns (x: Exchange)
    ensures x.Remote? && x.request.verb == Delete
    ensures x.request.url ==
              api + "/projects/" + projectId + "/merge_requests/" + DecimalText(iid) + "/approval_rules/" + DecimalText(ruleId)
    ensures x.request.headers == WithToken(map[], token)
    ensures x.request.params == map[] && x.request.body == map[]
    ensures x.result == DeleteRuleResult(ruleId, o)
  {
    x := Remote(Request(Delete, api + "/projects/" + projectId + "/merge_requests/" + DecimalText(iid) + "/approval_rules/" + DecimalText(ruleId),
                        WithToken(map[], token), map[], map[]),
                DeleteRuleResult(ruleId, o));
  }

  // ---------------------------------------------------------------------------
  // Subscriptions and to-do items: 304 is an answer, not an error

  function NotModified(message: string): Value
  {
    Dict(map["status" := Str("Not Modified"), "message" := Str(message)])
  }

  const AlreadySubscribed: string := "User is already subscribed to this merge request."
  const AlreadyUnsubscribed: string := "User is already unsubscribed from this merge request."
  const TodoExists: string := "To-do item already exists."

  /**
   * The answer of subscribe and unsubscribe: the decoded body on 200, the
   * "Not Modified" dictionary on 304, the shared error dictionaries when
   * `raise_for_status()` raises, and None for any other status (the
   * function falls off its end after `raise_for_status()` returns).
   */
  function SubscriptionResult(already: string, o: Outcome): Value
  {
    if o.Transport? then NetworkError(o.message)
    else if o.response.status == 200 then Body(o.response)
    else if o.response.status == 304 then NotModified(already)
    else if RaisesForStatus(o.response.status) then HttpError(o.response)
    else Null
  }

  /**
   * Every outcome of subscribe/unsubscribe falls in exactly one class: 200
   * decodes the body, 304 is a "Not Modified" answer that is not an error
   * dictionary, 4xx/5xx and transport failures are the shared error
   * dictionaries, and every other status answers None.
   */
  lemma LemmaSubscriptionResult(already: string, o: Outcome)
    ensures o.Received? && o.response.status == 200 ==> SubscriptionResult(already, o) == Body(o.response)
    ensures o.Received? && o.response.status == 304 ==>
              SubscriptionResult(already, o) == NotModified(already) && ReadError(NotModified(already)) == None
    ensures Fails(o) ==> SubscriptionResult(already, o) == Failure(o)
    ensures o.Received? && !Fails(o) && o.response.status != 200 && o.response.status != 304 ==>
              SubscriptionResult(already, o) == Null
  {
    assert NotModified(already).fields.Keys == {"status", "message"};
  }

  /**
   * The answer of `create_gitlab_merge_request_todo`: the decoded body on
   * 201; on 304 the "Not Modified" dictionary, with the decoded body as
   * `details` when it decodes; errors as usual; None for any other status.
   */
  function TodoResult(o: Outcome): Value
  {
    if o.Transport? then NetworkError(o.message)
    else if o.response.status == 201 then Body(o.response)
    else if o.response.status == 304 then
      match o.response.json
      case Parsed(v) => Dict(NotModified(TodoExists).fields["details" := v])
      case Unparsable(_) => NotModified(TodoExists)
    else if RaisesForStatus(o.response.status) then HttpError(o.response)
    else Null
  }

  /** On 304 the to-do answer has a `details` key exactly when the body decodes. */
  lemma LemmaTodoResult(o: Outcome)
    ensures o.Received? && o.response.status == 201 ==> TodoResult(o) == Body(o.response)
    ensures o.Received? && o.response.status == 304 ==>
              var r := TodoResult(o);
              r.Dict? && r.fields["status"] == Str("Not Modified") && r.fields["message"] == Str(TodoExists)
              && ("details" in r.fields <==> o.response.json.Parsed?)
              && (o.response.json.Parsed? ==> r.fields["details"] == o.response.json.value)
              && ReadError(r) == None
    ensures Fails(o) ==> TodoResult(o) == Failure(o)
    ensures o.Received? && !Fails(o) && o.response.status != 201 && o.response.status != 304 ==> TodoResult(o) == Null
  {
    if o.Received? && o.response.status == 304 {
      assert "error" !in TodoResult(o).fields;
    }
  }

  /** `subscribe_to_gitlab_merge_request` */
  method SubscribeToMergeRequest(api: string, token: string, projectId: string, iid: int, o: Outcome)
    returns (x: Exchange)
    ensures x.Remote? && x.request.verb == Post
    ensures x.request.url == api + "/projects/" + projectId + "/merge_requests/" + DecimalText(iid) + "/subscribe"
    ensures x.request.headers == WithToken(map[], token)
    ensures x.request.params == map[] && x.request.body == map[]
    ensures x.result == SubscriptionResult(AlreadySubscribed, o)
  {
    x := Remote(Request(Post, api + "/projects/" + projectId + "/merge_requests/" + DecimalText(iid) + "/subscribe",
                        WithToken(map[], token), map[], map[]),
                SubscriptionResult(AlreadySubscribed, o));
  }

  /** `unsubscribe_from_gitlab_merge_request` */
  method UnsubscribeFromMergeRequest(api: string, token: string, projectId: string, iid: int, o: Outcome)
    returns (x: Exchange)
    ensures x.Remote? && x.request.verb == Post
    ensures x.request.url == api + "/projects/" + projectId + "/merge_requests/" + DecimalText(iid) + "/unsubscribe"
    ensures x.request.headers == WithToken(map[], token)
    ensures x.request.params == map[] && x.request.body == map[]
    ensures x.result == SubscriptionResult(AlreadyUnsubscribed, o)
  {
    x := Remote(Request(Post, api + "/projects/" + projectId + "/merge_requests/" + DecimalText(iid) + "/unsubscribe",
                        WithToken(map[], token), map[], map[]),
                SubscriptionResult(AlreadyUnsubscribed, o));
  }

  /** `create_gitlab_merge_request_todo` */
  method CreateMergeRequestTodo(api: string, token: string, projectId: string, iid: int, o: Outcome)
    returns (x: Exchange)
    ensures x.Remote? && x.request.verb == Post
    ensures x.request.url == api + "/projects/" + projectId + "/merge_requests/" + DecimalText(iid) + "/todo"
    ensures x.request.headers == WithToken(map[], token)
    ensures x.request.params == map[] && x.request.body == map[]
    ensures x.result == TodoResult(o)
  {
    x := Remote(Request(Post, api + "/projects/" + projectId + "/merge_requests/" + DecimalText(iid) + "/todo",
                        WithToken(map[], token), map[], map[]),
                TodoResult(o));
  }
}
