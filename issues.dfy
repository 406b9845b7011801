/**
 * Issue tools (`server/mcp_tools/issue_tools.py`).
 *
 * Every issue tool writes PRIVATE-TOKEN into its header literal
 * (`AlwaysToken`), and every one except the deletes answers through the
 * shared try/except. The long builders are given as tables of keys and
 * tests (`Params.Build`); their argument lists are the tables' values, in
 * the order of the Python signatures.
 */
module Issues {
  import opened Values
  import opened Params
  import opened Http

  /** `/projects/{project_id}/issues/{issue_iid}` */
  function IssueUrl(api: string, projectId: string, iid: int): string
  {
    api + "/projects/" + projectId + "/issues/" + DecimalText(iid)
  }

  /**
   * A joined labels argument reads back: splitting what a builder sends
   * gives the labels again when none of them holds a comma.
   */
  lemma LemmaLabelsRoundTrip(labels: Value)
    requires StringList(labels) && Truthy(labels)
    requires forall k :: 0 <= k < |labels.items| ==> ',' !in labels.items[k].s
    ensures Sent(JoinedWhenTruthy, labels).Str?
    ensures Split(Sent(JoinedWhenTruthy, labels).s) == Texts(labels)
  {
    var texts := Texts(labels);
    assert forall k :: 0 <= k < |texts| ==> ',' !in texts[k] by {
      forall k | 0 <= k < |texts|
        ensures ',' !in texts[k]
      {
        assert labels.items[k] == Str(texts[k]);
      }
    }
    LemmaJoinSplit(texts);
  }

  // ---------------------------------------------------------------------------
  // Listing issues

  /** The filters of `list_issues`, in source order (first half). */
  const IssueFiltersA: seq<string> := [
    "assignee_id", "assignee_username", "author_id", "author_username", "confidential", "created_after",
    "created_before", "due_date", "iids[]", "in", "issue_type"]

  /** The filters of `list_issues` (second half). */
  const IssueFiltersB: seq<string> := [
    "labels", "milestone", "my_reaction_emoji", "order_by", "scope", "search", "sort", "state", "updated_after",
    "updated_before", "with_labels_details"]

  const IssueFilters: seq<string> := IssueFiltersA + IssueFiltersB

  /**
   * The tests of `list_issues`: the ids, usernames and `confidential` are
   * sent when not None, `labels` is comma-joined when truthy, and every
   * other filter is sent when truthy.
   */
  function IssueRule(i: int): Rule
  {
    if i < 5 then WhenNotNone else if i == 11 then JoinedWhenTruthy else WhenTruthy
  }

  const IssueRules: seq<Rule> := seq(22, IssueRule)

  lemma LemmaIssueFiltersA()
    ensures Distinct(IssueFiltersA)
  {
  }

  lemma LemmaIssueFiltersB()
    ensures Distinct(IssueFiltersB)
  {
  }

  lemma LemmaIssueFilters()
    ensures Distinct(IssueFilters)
  {
    LemmaIssueFiltersA();
    LemmaIssueFiltersB();
    assert Apart(IssueFiltersA, IssueFiltersB);
    LemmaDistinctHalves(IssueFiltersA, IssueFiltersB);
  }

  /**
   * `list_issues`: exactly the filters whose test passes are sent; `in_field`
   * goes out under "in" and `iids` under "iids[]"; the labels are joined by
   * commas and read back by splitting.
   */
  method ListIssues(api: string, token: string, values: seq<Value>, o: Outcome) returns (x: Exchange)
    requires |values| == 22 && StringList(values[11])
    ensures x.Remote? && x.request.verb == Get && x.request.url == api + "/issues"
    ensures x.request.headers == AlwaysToken(map[], token) && x.request.body == map[]
    ensures forall i :: 0 <= i < 22 ==>
              (IssueFilters[i] in x.request.params <==> Holds(IssueRules[i], values[i]))
              && (Holds(IssueRules[i], values[i]) ==> x.request.params[IssueFilters[i]] == Sent(IssueRules[i], values[i]))
    ensures x.request.params.Keys == set i | 0 <= i < 22 && Holds(IssueRules[i], values[i]) :: IssueFilters[i]
    ensures "assignee_id" in x.request.params <==> values[0] != Null
    ensures "confidential" in x.request.params <==> values[4] != Null
    ensures "in" in x.request.params <==> Truthy(values[9])
    ensures "in" in x.request.params ==> x.request.params["in"] == values[9]
    ensures "labels" in x.request.params <==> Truthy(values[11])
    ensures "labels" in x.request.params ==> x.request.params["labels"] == Str(Join(Texts(values[11])))
    ensures Truthy(values[11]) && (forall k :: 0 <= k < |values[11].items| ==> ',' !in values[11].items[k].s) ==>
              Split(x.request.params["labels"].s) == Texts(values[11])
    ensures x.result == Standard(o)
  {
    LemmaIssueFilters();
    var params := Build(IssueFilters, IssueRules, values);
    assert IssueFilters[0] == "assignee_id" && IssueFilters[4] == "confidential";
    assert IssueFilters[9] == "in" && IssueFilters[11] == "labels";
    if Truthy(values[11]) && (forall k :: 0 <= k < |values[11].items| ==> ',' !in values[11].items[k].s) {
      LemmaLabelsRoundTrip(values[11]);
    }
    x := Remote(Request(Get, api + "/issues", AlwaysToken(map[], token), params, map[]), Standard(o));
  }

  /** The filters of `list_project_issues`, in source order (first half). */
  const ProjectIssueFiltersA: seq<string> := [
    "assignee_id", "assignee_username[]", "author_id", "author_username", "confidential", "created_after",
    "created_before", "due_date", "iids[]", "issue_type", "labels"]

  /** The filters of `list_project_issues` (second half). */
  const ProjectIssueFiltersB: seq<string> := [
    "milestone", "my_reaction_emoji", "order_by", "scope", "search", "sort", "state", "updated_after",
    "updated_before", "with_labels_details", "cursor"]

  const ProjectIssueFilters: seq<string> := ProjectIssueFiltersA + ProjectIssueFiltersB

  /**
   * The guards of `list_project_issues`: only `assignee_id`, `author_id` and
   * `confidential` are compared with None (the usernames are checked for
   * truthiness here), `labels` is comma-joined, the rest sent when truthy.
   */
  function ProjectIssueRule(i: int): Rule
  {
    if i == 0 || i == 2 || i == 4 then WhenNotNone else if i == 10 then JoinedWhenTruthy else WhenTruthy
  }

  const ProjectIssueRules: seq<Rule> := seq(22, ProjectIssueRule)

  lemma LemmaProjectIssueFilters()
    ensures Distinct(ProjectIssueFilters)
  {
    assert Distinct(ProjectIssueFiltersA);
    assert Distinct(ProjectIssueFiltersB);
    assert Apart(ProjectIssueFiltersA, ProjectIssueFiltersB);
    LemmaDistinctHalves(ProjectIssueFiltersA, ProjectIssueFiltersB);
  }

  /**
   * `list_project_issues`: the same table shape as `list_issues`, but the
   * assignee usernames go out under "assignee_username[]" when truthy, an
   * empty author username is not sent, there is no "in" filter, and a
   * truthy `cursor` is sent last.
   */
  method ListProjectIssues(api: string, token: string, projectId: string, values: seq<Value>, o: Outcome)
    returns (x: Exchange)
    requires |values| == 22 && StringList(values[10])
    ensures x.Remote? && x.request.verb == Get && x.request.url == api + "/projects/" + projectId + "/issues"
    ensures x.request.headers == AlwaysToken(map[], token) && x.request.body == map[]
    ensures forall i :: 0 <= i < 22 ==>
              (ProjectIssueFilters[i] in x.request.params <==> Holds(ProjectIssueRules[i], values[i]))
              && (Holds(ProjectIssueRules[i], values[i]) ==>
                    x.request.params[ProjectIssueFilters[i]] == Sent(ProjectIssueRules[i], values[i]))
    ensures x.request.params.Keys == set i | 0 <= i < 22 && Holds(ProjectIssueRules[i], values[i]) :: ProjectIssueFilters[i]
    ensures "assignee_username[]" in x.request.params <==> Truthy(values[1])
    ensures "author_username" in x.request.params <==> Truthy(values[3])
    ensures "confidential" in x.request.params <==> values[4] != Null
    ensures "cursor" in x.request.params <==> Truthy(values[21])
    ensures "labels" in x.request.params ==> x.request.params["labels"] == Str(Join(Texts(values[10])))
    ensures x.result == Standard(o)
  {
    LemmaProjectIssueFilters();
    var params := Build(ProjectIssueFilters, ProjectIssueRules, values);
    assert ProjectIssueFilters[1] == "assignee_username[]" && ProjectIssueFilters[3] == "author_username";
    assert ProjectIssueFilters[4] == "confidential" && ProjectIssueFilters[10] == "labels";
    assert ProjectIssueFilters[21] == "cursor";
    x := Remote(Request(Get, api + "/projects/" + projectId + "/issues", AlwaysToken(map[], token), params, map[]),
                Standard(o));
  }

  /** `get_single_issue`: the issue is addressed by its global id. */
  method GetSingleIssue(api: string, token: string, issueId: int, o: Outcome) returns (x: Exchange)
    ensures x.Remote? && x.request.verb == Get && x.request.url == api + "/issues/" + DecimalText(issueId)
    ensures x.request.headers == AlwaysToken(map[], token)
    ensures x.request.params == map[] && x.request.body == map[]
    ensures x.result == Standard(o)
  {
    x := Remote(Request(Get, api + "/issues/" + DecimalText(issueId), AlwaysToken(map[], token), map[], map[]),
                Standard(o));
  }

  // ---------------------------------------------------------------------------
  // Creating and editing issues

  /** The fields of `create_new_issue`, in source order (first half). */
  const NewIssueFieldsA: seq<string> := [
    "title", "assignee_id", "assignee_ids", "confidential", "created_at", "description", "discussion_to_resolve",
    "due_date"]

  /** The fields of `create_new_issue` (second half). */
  const NewIssueFieldsB: seq<string> := [
    "epic_id", "iid", "issue_type", "labels", "merge_request_to_resolve_discussions_of", "milestone_id", "weight"]

  const NewIssueFields: seq<string> := NewIssueFieldsA + NewIssueFieldsB

  /**
   * The tests of `create_new_issue`: the title is always sent; ids,
   * `confidential` and `weight` when not None; `labels` comma-joined when
   * truthy; the texts and the assignee list when truthy.
   */
  function NewIssueRule(i: int): Rule
  {
    if i == 0 then Unconditionally
    else if i == 1 || i == 3 || i == 8 || i == 9 || i == 12 || i == 13 || i == 14 then WhenNotNone
    else if i == 11 then JoinedWhenTruthy
    else WhenTruthy
  }

  const NewIssueRules: seq<Rule> := seq(15, NewIssueRule)

  lemma LemmaNewIssueFields()
    ensures Distinct(NewIssueFields)
  {
    assert Distinct(NewIssueFieldsA);
    assert Distinct(NewIssueFieldsB);
    assert Apart(NewIssueFieldsA, NewIssueFieldsB);
    LemmaDistinctHalves(NewIssueFieldsA, NewIssueFieldsB);
  }

  /**
   * `create_new_issue`: the JSON body always holds the title, and every
   * optional field whose test passes; `values` are the fourteen optional
   * arguments after the title.
   */
  method CreateNewIssue(api: string, token: string, projectId: string, title: string, values: seq<Value>, o: Outcome)
    returns (x: Exchange)
    requires |values| == 14 && StringList(values[10])
    ensures x.Remote? && x.request.verb == Post && x.request.url == api + "/projects/" + projectId + "/issues"
    ensures x.request.headers == AlwaysToken(map[], token) && x.request.params == map[]
    ensures "title" in x.request.body && x.request.body["title"] == Str(title)
    ensures var all := RequiredFirst(title, values);
            forall i :: 0 <= i < 15 ==>
              (NewIssueFields[i] in x.request.body <==> Holds(NewIssueRules[i], all[i]))
              && (Holds(NewIssueRules[i], all[i]) ==> x.request.body[NewIssueFields[i]] == Sent(NewIssueRules[i], all[i]))
    ensures var all := RequiredFirst(title, values);
            x.request.body.Keys == set i | 0 <= i < 15 && Holds(NewIssueRules[i], all[i]) :: NewIssueFields[i]
    ensures "confidential" in x.request.body <==> values[2] != Null
    ensures "description" in x.request.body <==> Truthy(values[4])
    ensures "labels" in x.request.body ==> x.request.body["labels"] == Str(Join(Texts(values[10])))
    ensures x.result == Standard(o)
  {
    LemmaNewIssueFields();
    var all := RequiredFirst(title, values);
    var data := Build(NewIssueFields, NewIssueRules, all);
    assert all[3] == values[2] && all[5] == values[4] && all[11] == values[10];
    assert NewIssueFields[0] == "title" && NewIssueFields[3] == "confidential";
    assert NewIssueFields[5] == "description" && NewIssueFields[11] == "labels";
    x := Remote(Request(Post, api + "/projects/" + projectId + "/issues", AlwaysToken(map[], token), map[], data),
                Standard(o));
  }

  /** The fields of `edit_issue`, in source order (first half). */
  const EditIssueFieldsA: seq<string> := [
    "add_labels", "assignee_ids", "confidential", "description", "discussion_locked", "due_date", "epic_id",
    "issue_type"]

  /** The fields of `edit_issue` (second half). */
  const EditIssueFieldsB: seq<string> := [
    "labels", "milestone_id", "remove_labels", "state_event", "title", "updated_at", "weight"]

  const EditIssueFields: seq<string> := EditIssueFieldsA + EditIssueFieldsB

  /** Every field of `edit_issue` is sent when not None. */
  const EditIssueRules: seq<Rule> := seq(15, _ => WhenNotNone)

  lemma LemmaEditIssueFields()
    ensures Distinct(EditIssueFields)
  {
    assert Distinct(EditIssueFieldsA);
    assert Distinct(EditIssueFieldsB);
    assert Apart(EditIssueFieldsA, EditIssueFieldsB);
    LemmaDistinctHalves(EditIssueFieldsA, EditIssueFieldsB);
  }

  const NothingToUpdate: string := "At least one parameter to update is required."

  /**
   * `edit_issue`: every field that is not None is sent (False and "" too);
   * when all are None nothing is sent and the tool answers an error.
   */
  method EditIssue(api: string, token: string, projectId: string, iid: int, values: seq<Value>, o: Outcome)
    returns (x: Exchange)
    requires |values| == 15
    ensures x.Local? <==> forall i :: 0 <= i < 15 ==> values[i] == Null
    ensures x.Local? ==> x.result == Dict(map["error" := Str(NothingToUpdate)])
    ensures x.Remote? ==> x.request.verb == Put && x.request.url == IssueUrl(api, projectId, iid)
                          && x.request.headers == AlwaysToken(map[], token) && x.request.params == map[]
                          && x.result == Standard(o)
    ensures x.Remote? ==> forall i :: 0 <= i < 15 ==>
              (EditIssueFields[i] in x.request.body <==> values[i] != Null)
              && (values[i] != Null ==> x.request.body[EditIssueFields[i]] == values[i])
    ensures x.Remote? ==> x.request.body.Keys == set i | 0 <= i < 15 && values[i] != Null :: EditIssueFields[i]
  {
    LemmaEditIssueFields();
    var data := Build(EditIssueFields, EditIssueRules, values);
    if data == map[] {
      assert forall i :: 0 <= i < 15 ==> EditIssueFields[i] !in data;
      x := Local(Dict(map["error" := Str(NothingToUpdate)]));
    } else {
      x := Remote(Request(Put, IssueUrl(api, projectId, iid), AlwaysToken(map[], token), map[], data), Standard(o));
    }
  }

  // ---------------------------------------------------------------------------
  // Deleting, reordering, moving and cloning

  function IssueDeletedMessage(iid: int): string
  {
    "Issue " + DecimalText(iid) + " deleted successfully."
  }

  /**
   * The answer of `delete_issue`: any non-error status is a success, and
   * the body is never decoded.
   */
  function DeleteIssueResult(iid: int, o: Outcome): Value
  {
    if Fails(o) then Failure(o)
    else Dict(map["status" := Str("success"), "message" := Str(IssueDeletedMessage(iid))])
  }

  /**
   * Deleting an issue reports success for every status `raise_for_status()`
   * accepts, whatever the body; the message names the issue, whose iid
   * reads back from it; the success answer is never an error dictionary.
   */
  lemma LemmaDeleteIssueResult(iid: int, o: Outcome)
    ensures Fails(o) ==> DeleteIssueResult(iid, o) == Failure(o)
    ensures !Fails(o) ==> var r := DeleteIssueResult(iid, o);
              r.Dict? && r.fields.Keys == {"status", "message"} && r.fields["status"] == Str("success")
              && ReadError(r) == None
    ensures var m := IssueDeletedMessage(iid);
            "Issue " <= m && ParseInt(m[6..|m| - 22]) == Some(iid)
  {
    var m := IssueDeletedMessage(iid);
    assert m == "Issue " + DecimalText(iid) + " deleted successfully.";
    assert m[6..|m| - 22] == DecimalText(iid);
    LemmaDecimalRoundTrip(iid);
    if !Fails(o) {
      assert DeleteIssueResult(iid, o).fields.Keys == {"status", "message"};
    }
  }

  /** `delete_issue` */
  method DeleteIssue(api: string, token: string, projectId: string, iid: int, o: Outcome) returns (x: Exchange)
    ensures x.Remote? && x.request.verb == Delete && x.request.url == IssueUrl(api, projectId, iid)
    ensures x.request.headers == AlwaysToken(map[], token)
    ensures x.request.params == map[] && x.request.body == map[]
    ensures x.result == DeleteIssueResult(iid, o)
  {
    x := Remote(Request(Delete, IssueUrl(api, projectId, iid), AlwaysToken(map[], token), map[], map[]),
                DeleteIssueResult(iid, o));
  }

  const NoNeighbour: string := "At least one of 'move_after_id' or 'move_before_id' is required."

  /**
   * `reorder_issue`: without either neighbour the tool answers an error
   * before building anything; otherwise each neighbour that is given is
   * sent as a query parameter.
   */
  method ReorderIssue(api: string, token: string, projectId: string, iid: int, moveAfterId: Option<int>,
                      moveBeforeId: Option<int>, o: Outcome)
    returns (x: Exchange)
    ensures x.Local? <==> moveAfterId.None? && moveBeforeId.None?
    ensures x.Local? ==> x.result == Dict(map["error" := Str(NoNeighbour)])
    ensures x.Remote? ==> x.request.verb == Put && x.request.url == IssueUrl(api, projectId, iid) + "/reorder"
                          && x.request.headers == AlwaysToken(map[], token) && x.request.body == map[]
                          && x.result == Standard(o)
    ensures x.Remote? ==> x.request.params.Keys != {}
    ensures x.Remote? ==> ("move_after_id" in x.request.params <==> moveAfterId.Some?)
                          && ("move_before_id" in x.request.params <==> moveBeforeId.Some?)
                          && (moveAfterId.Some? ==> x.request.params["move_after_id"] == Int(moveAfterId.value))
                          && (moveBeforeId.Some? ==> x.request.params["move_before_id"] == Int(moveBeforeId.value))
                          && x.request.params.Keys <= {"move_after_id", "move_before_id"}
  {
    if moveAfterId.None? && moveBeforeId.None? {
      return Local(Dict(map["error" := Str(NoNeighbour)]));
    }
    var params := map[];
    if moveAfterId.Some? {
      params := params["move_after_id" := Int(moveAfterId.value)];
    }
    if moveBeforeId.Some? {
      params := params["move_before_id" := Int(moveBeforeId.value)];
    }
    assert "move_after_id" in params || "move_before_id" in params;
    x := Remote(Request(Put, IssueUrl(api, projectId, iid) + "/reorder", AlwaysToken(map[], token), params, map[]),
                Standard(o));
  }

  /** `move_issue`: the target project is the only (form) field. */
  method MoveIssue(api: string, token: string, projectId: string, iid: int, toProjectId: int, o: Outcome)
    returns (x: Exchange)
    ensures x.Remote? && x.request.verb == Post && x.request.url == IssueUrl(api, projectId, iid) + "/move"
    ensures x.request.headers == AlwaysToken(map[], token) && x.request.params == map[]
    ensures x.request.body.Keys == {"to_project_id"} && x.request.body["to_project_id"] == Int(toProjectId)
    ensures x.result == Standard(o)
  {
    x := Remote(Request(Post, IssueUrl(api, projectId, iid) + "/move", AlwaysToken(map[], token), map[],
                        map["to_project_id" := Int(toProjectId)]), Standard(o));
  }

  /** `clone_issue`: the target always, `with_notes` when not None, both as query parameters. */
  method CloneIssue(api: string, token: string, projectId: string, iid: int, toProjectId: int, withNotes: Option<bool>,
                    o: Outcome)
    returns (x: Exchange)
    ensures x.Remote? && x.request.verb == Post && x.request.url == IssueUrl(api, projectId, iid) + "/clone"
    ensures x.request.headers == AlwaysToken(map[], token) && x.request.body == map[]
    ensures "to_project_id" in x.request.params && x.request.params["to_project_id"] == Int(toProjectId)
    ensures "with_notes" in x.request.params <==> withNotes.Some?
    ensures withNotes.Some? ==> x.request.params["with_notes"] == Bool(withNotes.value)
    ensures x.request.params.Keys <= {"to_project_id", "with_notes"}
    ensures x.result == Standard(o)
  {
    var params := map["to_project_id" := Int(toProjectId)];
    if withNotes.Some? {
      params := params["with_notes" := Bool(withNotes.value)];
    }
    x := Remote(Request(Post, IssueUrl(api, projectId, iid) + "/clone", AlwaysToken(map[], token), params, map[]),
                Standard(o));
  }

  // ---------------------------------------------------------------------------
  // Subscriptions and to-do items

  /** The three issue actions that answer 304 when there is nothing to do. */
  datatype Toggle = Subscribe | Unsubscribe | Todo

  function ToggleAction(t: Toggle): string
  {
    match t
    case Subscribe => "subscribe"
    case Unsubscribe => "unsubscribe"
    case Todo => "todo"
  }

  function UnchangedMessage(t: Toggle, iid: int): string
  {
    match t
    case Subscribe => "Already subscribed to issue " + DecimalText(iid) + "."
    case Unsubscribe => "You were not subscribed to issue " + DecimalText(iid) + "."
    case Todo => "A to-do item already exists for you on issue " + DecimalText(iid) + "."
  }

  /**
   * The answer of the three actions: 304 is checked before
   * `raise_for_status()` and gives a "not_modified" dictionary; otherwise
   * the common body.
   */
  function ToggleResult(t: Toggle, iid: int, o: Outcome): Value
  {
    if o.Received? && o.response.status == 304 then
      Dict(map["status" := Str("not_modified"), "message" := Str(UnchangedMessage(t, iid))])
    else Standard(o)
  }

  /**
   * A 304 answer is a "not_modified" dictionary, never an error dictionary
   * and never the body; every other outcome is the common answer, so the
   * decoded body for the other successes.
   */
  lemma LemmaToggleResult(t: Toggle, iid: int, o: Outcome)
    ensures o.Received? && o.response.status == 304 ==>
              var r := ToggleResult(t, iid, o);
              r.Dict? && r.fields.Keys == {"status", "message"} && r.fields["status"] == Str("not_modified")
              && ReadError(r) == None
    ensures !(o.Received? && o.response.status == 304) ==> ToggleResult(t, iid, o) == Standard(o)
    ensures Fails(o) ==> ToggleResult(t, iid, o) == Failure(o)
    ensures !Fails(o) && o.response.status != 304 && o.response.json.Parsed? ==>
              ToggleResult(t, iid, o) == o.response.json.value
  {
    if o.Received? && o.response.status == 304 {
      assert ToggleResult(t, iid, o).fields.Keys == {"status", "message"};
    }
  }

  /** The three messages are pairwise different. */
  lemma LemmaUnchangedMessagesDiffer(iid: int)
    ensures UnchangedMessage(Subscribe, iid) != UnchangedMessage(Unsubscribe, iid)
    ensures UnchangedMessage(Subscribe, iid) != UnchangedMessage(Todo, iid)
    ensures UnchangedMessage(Unsubscribe, iid) != UnchangedMessage(Todo, iid)
  {
    var d := DecimalText(iid);
    var s := UnchangedMessage(Subscribe, iid);
    var u := UnchangedMessage(Unsubscribe, iid);
    var t := UnchangedMessage(Todo, iid);
    assert s == "Already subscribed to issue " + (d + ".");
    assert u == "You were not subscribed to issue " + (d + ".");
    assert t == "A to-do item already exists for you on issue " + (d + ".");
    assert |s| == 29 + |d| && |u| == 34 + |d| && |t| == 46 + |d|;
  }

  /** `subscribe_to_issue`, `unsubscribe_from_issue`, `create_todo_on_issue` */
  method ToggleIssue(api: string, token: string, projectId: string, iid: int, t: Toggle, o: Outcome)
    returns (x: Exchange)
    ensures x.Remote? && x.request.verb == Post
    ensures x.request.url == IssueUrl(api, projectId, iid) + "/" + ToggleAction(t)
    ensures x.request.headers == AlwaysToken(map[], token)
    ensures x.request.params == map[] && x.request.body == map[]
    ensures x.result == ToggleResult(t, iid, o)
  {
    x := Remote(Request(Post, IssueUrl(api, projectId, iid) + "/" + ToggleAction(t), AlwaysToken(map[], token), map[],
                        map[]), ToggleResult(t, iid, o));
  }

  // ---------------------------------------------------------------------------
  // Promotion, time tracking, read-only endpoints

  const PromoteCommand: string := "/promote"

  /** The note `promote_issue_to_epic` posts. */
  function PromoteNote(comment: Option<string>): (note: string)
    ensures |note| >= |PromoteCommand| && note[|note| - |PromoteCommand|..] == PromoteCommand
  {
    if comment.Some? && |comment.value| > 0 then comment.value + "\n\n" + PromoteCommand else PromoteCommand
  }

  /**
   * A non-empty comment comes first, separated from the quick action by a
   * blank line; a missing or empty comment leaves the quick action alone.
   */
  lemma LemmaPromoteNote(comment: Option<string>)
    ensures comment.Some? && |comment.value| > 0 ==>
              var note := PromoteNote(comment);
              comment.value <= note && note[|comment.value|..] == "\n\n" + PromoteCommand
    ensures comment.None? || comment == Some("") ==> PromoteNote(comment) == PromoteCommand
  {
  }

  /** `promote_issue_to_epic`: the note goes out as the `body` query parameter. */
  method PromoteIssueToEpic(api: string, token: string, projectId: string, iid: int, comment: Option<string>,
                            o: Outcome)
    returns (x: Exchange)
    ensures x.Remote? && x.request.verb == Post && x.request.url == IssueUrl(api, projectId, iid) + "/notes"
    ensures x.request.headers == AlwaysToken(map[], token) && x.request.body == map[]
    ensures x.request.params.Keys == {"body"} && x.request.params["body"] == Str(PromoteNote(comment))
    ensures x.result == Standard(o)
  {
    x := Remote(Request(Post, IssueUrl(api, projectId, iid) + "/notes", AlwaysToken(map[], token),
                        map["body" := Str(PromoteNote(comment))], map[]), Standard(o));
  }

  /** `set_issue_time_estimate`: the duration is a query parameter. */
  method SetIssueTimeEstimate(api: string, token: string, projectId: string, iid: int, duration: string, o: Outcome)
    returns (x: Exchange)
    ensures x.Remote? && x.request.verb == Post && x.request.url == IssueUrl(api, projectId, iid) + "/time_estimate"
    ensures x.request.headers == AlwaysToken(map[], token) && x.request.body == map[]
    ensures x.request.params.Keys == {"duration"} && x.request.params["duration"] == Str(duration)
    ensures x.result == Standard(o)
  {
    x := Remote(Request(Post, IssueUrl(api, projectId, iid) + "/time_estimate", AlwaysToken(map[], token),
                        map["duration" := Str(duration)], map[]), Standard(o));
  }

  /** `add_spent_time_for_issue`: the duration always, the summary only when non-empty. */
  method AddSpentTime(api: string, token: string, projectId: string, iid: int, duration: string,
                      summary: Option<string>, o: Outcome)
    returns (x: Exchange)
    ensures x.Remote? && x.request.verb == Post && x.request.url == IssueUrl(api, projectId, iid) + "/add_spent_time"
    ensures x.request.headers == AlwaysToken(map[], token) && x.request.body == map[]
    ensures "duration" in x.request.params && x.request.params["duration"] == Str(duration)
    ensures "summary" in x.request.params <==> Given(summary)
    ensures "summary" in x.request.params ==> x.request.params["summary"] == Str(summary.value)
    ensures x.request.params.Keys <= {"duration", "summary"}
    ensures x.result == Standard(o)
  {
    var params := map["duration" := Str(duration)];
    if summary.Some? && |summary.value| > 0 {
      params := params["summary" := Str(summary.value)];
    }
    x := Remote(Request(Post, IssueUrl(api, projectId, iid) + "/add_spent_time", AlwaysToken(map[], token), params,
                        map[]), Standard(o));
  }

  /** The issue endpoints that take no arguments and answer the common body. */
  datatype Endpoint =
    | ResetTimeEstimate | ResetSpentTime                     // POST
    | TimeStats | RelatedMergeRequests | ClosedBy | Participants
    | UserAgentDetail | StateEvents | MetricImages          // GET

  function EndpointPath(e: Endpoint): string
  {
    match e
    case ResetTimeEstimate => "reset_time_estimate"
    case ResetSpentTime => "reset_spent_time"
    case TimeStats => "time_stats"
    case RelatedMergeRequests => "related_merge_requests"
    case ClosedBy => "closed_by"
    case Participants => "participants"
    case UserAgentDetail => "user_agent_detail"
    case StateEvents => "resource_state_events"
    case MetricImages => "metric_images"
  }

  /**
   * The request shared by the argument-free issue tools below: the two
   * resets are POSTs and the rest GETs, each under the issue's own URL.
   */
  method IssueEndpoint(api: string, token: string, projectId: string, iid: int, e: Endpoint, o: Outcome)
    returns (x: Exchange)
    ensures x.Remote? && x.request.url == IssueUrl(api, projectId, iid) + "/" + EndpointPath(e)
    ensures x.request.verb == (if e == ResetTimeEstimate || e == ResetSpentTime then Post else Get)
    ensures x.request.headers == AlwaysToken(map[], token)
    ensures x.request.params == map[] && x.request.body == map[]
    ensures x.result == Standard(o)
  {
    var verb := if e == ResetTimeEstimate || e == ResetSpentTime then Post else Get;
    x := Remote(Request(verb, IssueUrl(api, projectId, iid) + "/" + EndpointPath(e), AlwaysToken(map[], token), map[],
                        map[]), Standard(o));
  }

  /** `reset_issue_time_estimate` */
  method ResetIssueTimeEstimate(api: string, token: string, projectId: string, iid: int, o: Outcome)
    returns (x: Exchange)
    ensures x.Remote? && x.request.verb == Post
    ensures x.request.url == IssueUrl(api, projectId, iid) + "/" + "reset_time_estimate"
    ensures x.request.headers == AlwaysToken(map[], token)
    ensures x.request.params == map[] && x.request.body == map[]
    ensures x.result == Standard(o)
  {
    x := IssueEndpoint(api, token, projectId, iid, ResetTimeEstimate, o);
  }

  /** `reset_spent_time_for_issue` */
  method ResetIssueSpentTime(api: string, token: string, projectId: string, iid: int, o: Outcome)
    returns (x: Exchange)
    ensures x.Remote? && x.request.verb == Post
    ensures x.request.url == IssueUrl(api, projectId, iid) + "/" + "reset_spent_time"
    ensures x.request.headers == AlwaysToken(map[], token)
    ensures x.request.params == map[] && x.request.body == map[]
    ensures x.result == Standard(o)
  {
    x := IssueEndpoint(api, token, projectId, iid, ResetSpentTime, o);
  }

  /** `get_issue_time_tracking_stats` */
  method GetIssueTimeStats(api: string, token: string, projectId: string, iid: int, o: Outcome)
    returns (x: Exchange)
    ensures x.Remote? && x.request.verb == Get
    ensures x.request.url == IssueUrl(api, projectId, iid) + "/" + "time_stats"
    ensures x.request.headers == AlwaysToken(map[], token)
    ensures x.request.params == map[] && x.request.body == map[]
    ensures x.result == Standard(o)
  {
    x := IssueEndpoint(api, token, projectId, iid, TimeStats, o);
  }

  /** `list_related_merge_requests_for_issue` */
  method ListRelatedMergeRequests(api: string, token: string, projectId: string, iid: int, o: Outcome)
    returns (x: Exchange)
    ensures x.Remote? && x.request.verb == Get
    ensures x.request.url == IssueUrl(api, projectId, iid) + "/" + "related_merge_requests"
    ensures x.request.headers == AlwaysToken(map[], token)
    ensures x.request.params == map[] && x.request.body == map[]
    ensures x.result == Standard(o)
  {
    x := IssueEndpoint(api, token, projectId, iid, RelatedMergeRequests, o);
  }

  /** `list_merge_requests_closing_issue` */
  method ListClosingMergeRequests(api: string, token: string, projectId: string, iid: int, o: Outcome)
    returns (x: Exchange)
    ensures x.Remote? && x.request.verb == Get
    ensures x.request.url == IssueUrl(api, projectId, iid) + "/" + "closed_by"
    ensures x.request.headers == AlwaysToken(map[], token)
    ensures x.request.params == map[] && x.request.body == map[]
    ensures x.result == Standard(o)
  {
    x := IssueEndpoint(api, token, projectId, iid, ClosedBy, o);
  }

  /** `list_issue_participants` */
  method ListIssueParticipants(api: string, token: string, projectId: string, iid: int, o: Outcome)
    returns (x: Exchange)
    ensures x.Remote? && x.request.verb == Get
    ensures x.request.url == IssueUrl(api, projectId, iid) + "/" + "participants"
    ensures x.request.headers == AlwaysToken(map[], token)
    ensures x.request.params == map[] && x.request.body == map[]
    ensures x.result == Standard(o)
  {
    x := IssueEndpoint(api, token, projectId, iid, Participants, o);
  }

  /** `get_issue_user_agent_details` */
  method GetUserAgentDetails(api: string, token: string, projectId: string, iid: int, o: Outcome)
    returns (x: Exchange)
    ensures x.Remote? && x.request.verb == Get
    ensures x.request.url == IssueUrl(api, projectId, iid) + "/" + "user_agent_detail"
    ensures x.request.headers == AlwaysToken(map[], token)
    ensures x.request.params == map[] && x.request.body == map[]
    ensures x.result == Standard(o)
  {
    x := IssueEndpoint(api, token, projectId, iid, UserAgentDetail, o);
  }

  /** `list_issue_state_events` */
  method ListStateEvents(api: string, token: string, projectId: string, iid: int, o: Outcome)
    returns (x: Exchange)
    ensures x.Remote? && x.request.verb == Get
    ensures x.request.url == IssueUrl(api, projectId, iid) + "/" + "resource_state_events"
    ensures x.request.headers == AlwaysToken(map[], token)
    ensures x.request.params == map[] && x.request.body == map[]
    ensures x.result == Standard(o)
  {
    x := IssueEndpoint(api, token, projectId, iid, StateEvents, o);
  }

  /** `list_incident_metric_images` */
  method ListIncidentMetricImages(api: string, token: string, projectId: string, iid: int, o: Outcome)
    returns (x: Exchange)
    ensures x.Remote? && x.request.verb == Get
    ensures x.request.url == IssueUrl(api, projectId, iid) + "/" + "metric_images"
    ensures x.request.headers == AlwaysToken(map[], token)
    ensures x.request.params == map[] && x.request.body == map[]
    ensures x.result == Standard(o)
  {
    x := IssueEndpoint(api, token, projectId, iid, MetricImages, o);
  }

  // ---------------------------------------------------------------------------
  // Incident metric images

  const NoImageField: string := "At least one of 'url' or 'url_text' is required to update."

  /**
   * `update_incident_metric_image`: the guard tests the arguments against
   * None, but the (form) body takes each only when non-empty, so an empty
   * `url` passes the guard and an empty body is sent.
   */
  method UpdateIncidentMetricImage(api: string, token: string, projectId: string, iid: int, imageId: int,
                                   url: Option<string>, urlText: Option<string>, o: Outcome)
    returns (x: Exchange)
    ensures x.Local? <==> url.None? && urlText.None?
    ensures x.Local? ==> x.result == Dict(map["error" := Str(NoImageField)])
    ensures x.Remote? ==> x.request.verb == Put
                          && x.request.url == IssueUrl(api, projectId, iid) + "/metric_images/" + DecimalText(imageId)
                          && x.request.headers == AlwaysToken(map[], token) && x.request.params == map[]
                          && x.result == Standard(o)
    ensures x.Remote? ==> ("url" in x.request.body <==> url.Some? && |url.value| > 0)
                          && ("url_text" in x.request.body <==> urlText.Some? && |urlText.value| > 0)
                          && ("url" in x.request.body ==> x.request.body["url"] == Str(url.value))
                          && ("url_text" in x.request.body ==> x.request.body["url_text"] == Str(urlText.value))
                          && x.request.body.Keys <= {"url", "url_text"}
    ensures url == Some("") && urlText.None? ==> x.Remote? && x.request.body == map[]
  {
    if url.None? && urlText.None? {
      return Local(Dict(map["error" := Str(NoImageField)]));
    }
    var data := map[];
    if url.Some? && |url.value| > 0 {
      data := data["url" := Str(url.value)];
    }
    if urlText.Some? && |urlText.value| > 0 {
      data := data["url_text" := Str(urlText.value)];
    }
    x := Remote(Request(Put, IssueUrl(api, projectId, iid) + "/metric_images/" + DecimalText(imageId),
                        AlwaysToken(map[], token), map[], data), Standard(o));
  }

  function ImageDeletedMessage(imageId: int): string
  {
    "Metric image " + DecimalText(imageId) + " deleted successfully."
  }

  /** The answer of `delete_incident_metric_image`: success for any non-error status. */
  function DeleteImageResult(imageId: int, o: Outcome): Value
  {
    if Fails(o) then Failure(o)
    else Dict(map["status" := Str("success"), "message" := Str(ImageDeletedMessage(imageId))])
  }

  /**
   * Deleting a metric image reports success for every status
   * `raise_for_status()` accepts, naming the image, whose id reads back.
   */
  lemma LemmaDeleteImageResult(imageId: int, o: Outcome)
    ensures Fails(o) ==> DeleteImageResult(imageId, o) == Failure(o)
    ensures !Fails(o) ==> var r := DeleteImageResult(imageId, o);
              r.Dict? && r.fields.Keys == {"status", "message"} && r.fields["status"] == Str("success")
              && ReadError(r) == None
    ensures var m := ImageDeletedMessage(imageId);
            "Metric image " <= m && ParseInt(m[13..|m| - 22]) == Some(imageId)
  {
    var m := ImageDeletedMessage(imageId);
    assert m == "Metric image " + DecimalText(imageId) + " deleted successfully.";
    assert m[13..|m| - 22] == DecimalText(imageId);
    LemmaDecimalRoundTrip(imageId);
    if !Fails(o) {
      assert DeleteImageResult(imageId, o).fields.Keys == {"status", "message"};
    }
  }

  /** `delete_incident_metric_image` */
  method DeleteIncidentMetricImage(api: string, token: string, projectId: string, iid: int, imageId: int, o: Outcome)
    returns (x: Exchange)
    ensures x.Remote? && x.request.verb == Delete
    ensures x.request.url == IssueUrl(api, projectId, iid) + "/metric_images/" + DecimalText(imageId)
    ensures x.request.headers == AlwaysToken(map[], token)
    ensures x.request.params == map[] && x.request.body == map[]
    ensures x.result == DeleteImageResult(imageId, o)
  {
    x := Remote(Request(Delete, IssueUrl(api, projectId, iid) + "/metric_images/" + DecimalText(imageId),
                        AlwaysToken(map[], token), map[], map[]), DeleteImageResult(imageId, o));
  }
}
