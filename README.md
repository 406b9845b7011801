# GitLab MCP tools: a Dafny model

This project models the tool layer of a Python MCP (Model Context Protocol)
server for the GitLab REST API (v4). Each tool takes its arguments, reads
the shared configuration (API base URL and private token), builds one HTTP
request and answers a JSON-like value. That value is the decoded body on
success, or a normalised error dictionary on failure. A few tools answer
locally, without any request.

The model makes that behaviour precise:

- **Values** (`values.dfy`): the Python values a tool handles (`Value`:
  None, bools, ints, strings, lists, dicts, bytes) and their truthiness. It
  also holds the textual encodings the tools use: `str(b).lower()`, decimal
  `str(int)` in URLs, and `",".join(...)` for id and label lists. Each
  encoding is proved to round-trip.
- **Configuration** (`config.dfy`): the mutable module-level `_config`
  dictionary becomes the class `GitlabConfig`. It covers the
  `set_gitlab_config` update, `get_headers`, the `configure_gitlab` tool and
  the `check_gitlab_config` report.
- **HTTP exchange** (`http.dfy`): the outcome of the single `requests` call
  is an input (`Outcome`: a transport failure, or a received response with
  status, body text, bytes and JSON decoding). A tool is modelled as a method
  returning an `Exchange`: the exact request it sends (verb, URL, headers,
  query, body) and what it answers for every outcome. `raise_for_status()`
  fails for 4xx and 5xx only. The shared except clauses are `Failure`.
  A success body that is not JSON becomes a network-error dictionary,
  because requests' `JSONDecodeError` is a `RequestException`.
- **Parameter building** (`params.dfy`): the recurring "add the key when
  the value is not None / truthy" chains become a table of `Insertion` rows
  interpreted by one loop (`Insert`) and specified by the recursive `Apply`.
  The None-dropping dictionary comprehensions become `KeepNotNone`. Per-key
  facts are proved once, generically.
- **Tools**: one module per source file. These are branches, commits,
  files (with `urllib.parse.quote_plus` over UTF-8), issues, merge requests
  and approvals (two modules), projects, repository and search.

Every tool method states the request completely: verb, URL, headers, and
for each query or body key exactly when it is present and what it holds.
Where a builder computes the query or body, a named predicate (for example
`Search.SearchQuery` or `Params.SentNotNone`) states it. The builder ensures
that predicate, and the tool ensures the same predicate of the request it
sends.
It also states the answer as a function of the outcome. Lemmas beside the
tools prove the answer's shape for each outcome class: a success, an HTTP
error, a transport error, and the special statuses (204, 202, 304) the tools
handle.

Two behaviours of the code are modelled exactly as written, although they
look unintended:
- `create_project_for_user` sends the API base URL, not the token, as
  PRIVATE-TOKEN (`project_tools.py:1319`).
- `list_projects` always targets `/users/None/projects` when no user id is
  given (`project_tools.py:161`).

Two error handlers that can crash are logged under "Findings". Each is
modelled twice: once as written, and once corrected.

## Model

| member | source | states |
|---|---|---|
| Values.LemmaTruthyNotNull | server/mcp_tools/branch_tools.py:46-54 | a truthy value is never None, and False, 0, "", [] and {} are neither truthy nor None, so an `if x:` guard and an `is not None` guard differ exactly on those values |
| Values.BoolText | server/mcp_tools/commit_tools.py:96-98 | `str(b).lower()` is "true" or "false", and "true" exactly for True |
| Values.LemmaBoolTextRoundTrip | server/mcp_tools/commit_tools.py:96-98 | parsing the lower-cased text of a bool gives the bool back |
| Values.DecimalText | server/mcp_tools/merge_request_tools.py:51 | the decimal text of an integer placed in a URL is non-empty and holds no comma |
| Values.LemmaDecimalRoundTrip | server/mcp_tools/merge_request_tools.py:51 | the decimal text of every integer, negative ones included, parses back to that integer |
| Values.LemmaJoinSplit | server/mcp_tools/issue_tools.py:97 | splitting the comma-joined labels at commas gives the labels back when none holds a comma |
| Values.Decimals | server/mcp_tools/project_tools.py:483 | `map(str, ids)` keeps the length and gives each id's decimal text at its index |
| Values.LemmaIdsRoundTrip | server/mcp_tools/project_tools.py:483 | `",".join(map(str, ids))` parses back to the same id list, and the empty list joins to "" |
| Values.Lower | server/mcp_tools/repo_tools.py:408-419 | `str.lower()` keeps the length and lower-cases character by character |
| Values.LemmaLowerIdempotent | server/mcp_tools/repo_tools.py:408-419 | lower-casing twice is lower-casing once, and the result holds no upper-case ASCII letter |
| Config.Report | server/config.py:97-103 | the `check_gitlab_config` answer has exactly the keys configured, api_url, token_set and message; configured is `is_configured()`, token_set says whether a token is set, and api_url is the URL or "(not set)" |
| Config.LemmaUpdatedPartial | server/config.py:29-34 | `set_gitlab_config` changes only what is given non-empty and never clears a set value |
| Config.LemmaUpdatedIdempotent | server/config.py:29-34 | applying the same update twice is applying it once |
| Config.LemmaConfiguredAfterUpdate | server/config.py:29-49 | after an update the server is configured iff both the URL and the token are set, either by the update or before it |
| Config.LemmaReportHidesToken | server/config.py:97-103 | the report depends on the token only through whether it is set, so the token value never leaks |
| Config.GitlabConfig.constructor | server/config.py:16-19 | the initial configuration is the environment values, "" when absent |
| Config.GitlabConfig.SetGitlabConfig | server/config.py:29-34 | the new state is the update of the old state by the given values |
| Config.GitlabConfig.GetHeaders | server/config.py:36-41 | Accept is application/json, PRIVATE-TOKEN is present iff the token is non-empty and then holds it, and nothing else is sent |
| Config.GitlabConfig.ConfigureGitlab | server/config.py:57-87 | without a non-empty token the state is unchanged and the answer is the "Token is required" error; otherwise the state is updated with the URL in effect (the given one, or the gitlab.com default when omitted, which replaces a stored URL) and the answer reports status "configured" with that URL |
| Config.GitlabConfig.CheckGitlabConfig | server/config.py:90-103 | the answer is the report of the current state, which is not changed |
| Config.LemmaConfigureOutcome | server/config.py:74-87 | with a token, configure sets it; an omitted URL leaves the default URL stored whatever was there; an empty URL keeps the old one; the server is then configured iff the URL in effect is non-empty or one was already set |
| Http.WithToken | server/mcp_tools/merge_request_tools.py:54-58 | the base headers are kept and PRIVATE-TOKEN is added iff the token is non-empty, holding the token |
| Http.AlwaysToken | server/mcp_tools/branch_tools.py:41-43 | PRIVATE-TOKEN is always present, even empty, beside the base headers |
| Http.LemmaFailureChain | server/mcp_tools/merge_request_tools.py:79-92 | a transport failure answers a network error with its message and no details; an HTTP error answers str(e) with the decoded JSON body, or else the body text, as details |
| Http.LemmaTextFailure | server/mcp_tools/project_tools.py:2387-2395 | the binary endpoints report an HTTP error with the body text as details, whatever the body is |
| Http.LemmaStandard | server/mcp_tools/merge_request_tools.py:70-92 | the common body: error dictionaries on failure, the decoded JSON on success, and a network error when a success body is not JSON |
| Http.LemmaRawResults | server/mcp_tools/repo_tools.py:189-196 | the raw endpoints answer the body text (or bytes) on success, which is never read as an error, and the shared errors otherwise |
| Params.IfNotNone | server/mcp_tools/merge_request_tools.py:63-66 | an `if value is not None: d[key] = value` row writes the value exactly when it is not None |
| Params.IfTruthy | server/mcp_tools/search_tools.py:50-59 | an `if value: d[key] = value` row writes the value exactly when it is truthy |
| Params.Always | server/mcp_tools/search_tools.py:44-47 | an unconditional assignment row always writes its value |
| Params.LemmaApplyAt | server/mcp_tools/search_tools.py:44-59 | after a chain of conditional assignments, a key written by one row only is present iff its condition holds or it was there before, and then holds that row's value |
| Params.LemmaApplyKeys | server/mcp_tools/search_tools.py:44-59 | the keys after a chain are the keys before plus those of the rows whose condition holds |
| Params.LemmaApplyDistinct | server/mcp_tools/search_tools.py:44-59 | with pairwise different keys, every row's key is present iff its condition holds (or it was there before), and then holds that row's value |
| Params.Insert | server/mcp_tools/search_tools.py:44-59 | the loop that runs the chain computes exactly `Apply` of the rows to the starting map |
| Params.Build | server/mcp_tools/issue_tools.py:73-119 | each key is sent iff its rule holds for its value, then with the value the rule sends (the value, or the comma-join of a list), and no other key is sent |
| Params.KeepNotNone | server/mcp_tools/merge_request_tools.py:1697 | `{k: v for k, v in args if v is not None}`: each name is present iff its value is not None, then with that value, and no None is ever sent |
| Params.LemmaNotNoneRows | server/mcp_tools/merge_request_tools.py:1697 | the comprehension and the chain of `is not None` assignments over the same arguments give the same map |
| Params.LemmaKeepNotNoneEmpty | server/mcp_tools/merge_request_tools.py:2292 | the filtered map is empty iff every argument is None |
| Params.LemmaKeepNotNoneKeys | server/mcp_tools/merge_request_tools.py:2292 | the filtered keys are exactly the names whose value is not None |
| Branches.ListBranchesParams | server/mcp_tools/branch_tools.py:46-54 | regex is sent iff truthy; search only when regex is not truthy and search is; never both; each with its given value |
| Branches.ListBranches | server/mcp_tools/branch_tools.py:7-78 | a GET of the project's branches with the always-present token, no body, and a query that holds regex iff truthy, otherwise search iff truthy, each with its given value, and nothing else |
| Branches.GetSingleBranch | server/mcp_tools/branch_tools.py:81-142 | a GET of the branch named in the URL as given, no query, the common answer |
| Branches.CreateBranch | server/mcp_tools/branch_tools.py:145-209 | a POST whose query is exactly the new branch name and its source ref |
| Branches.LemmaDeleteBranchResult | server/mcp_tools/branch_tools.py:247-274 | a failure answers the shared error; 204 answers the confirmation naming the branch; any other status answers a warning whose status code parses back from its text, with the body text, and the body is never decoded |
| Branches.DeleteBranch | server/mcp_tools/branch_tools.py:212-274 | a DELETE of the named branch, answered as above |
| Search.SearchParams | server/mcp_tools/search_tools.py:44-59 | scope and search are always sent; confidential iff not None; order_by, sort and state iff truthy; each with its value; no other key |
| Search.ProjectSearchParams | server/mcp_tools/search_tools.py:210-225 | as the global query, plus ref iff truthy |
| Search.GlobalSearch | server/mcp_tools/search_tools.py:7-85 | a GET of /search with the always-present token and no body; the query holds scope and search with their values, confidential iff not None, order_by, sort and state iff truthy, each with its value, and no other key |
| Search.GroupSearch | server/mcp_tools/search_tools.py:88-166 | a GET of the group's /search with the always-present token, no body, and exactly the global search query: scope and search always, confidential iff not None, order_by, sort and state iff truthy, each with its value |
| Search.ProjectSearch | server/mcp_tools/search_tools.py:169-251 | a GET of the project's /search with the always-present token, no body, and the global search query plus ref iff truthy, every key with its value and no other key |
| Commits.Spelt | server/mcp_tools/commit_tools.py:94-100 | a bool is sent as text that parses back to it; every other value is sent as is; no bool is ever sent |
| Commits.CopyGiven | server/mcp_tools/commit_tools.py:219-225 | the loop over the optional arguments keeps the base keys and adds each name iff its value is not None, then with the stored value, and nothing else |
| Commits.ListCommits | server/mcp_tools/commit_tools.py:7-124 | a GET of the commits where each of the twelve filters is sent under its API name (all_commits as "all") iff it is not None, booleans as text, and nothing else |
| Commits.CreateCommit | server/mcp_tools/commit_tools.py:127-249 | a POST whose JSON body always holds branch, commit_message and actions, plus each of the seven options iff not None, booleans as text |
| Commits.FlagQuery | server/mcp_tools/commit_tools.py:305-306 | a query flag is present iff given, as text that parses back to the flag |
| Commits.GetSingleCommit | server/mcp_tools/commit_tools.py:252-330 | a GET of the commit with `stats` as text when given |
| Commits.GetCommitReferences | server/mcp_tools/commit_tools.py:333-412 | a GET of the commit's refs with type, per_page and page each iff not None |
| Commits.GetCommitSequence | server/mcp_tools/commit_tools.py:415-478 | a GET of the commit's sequence with `first_parent` as text when given |
| Commits.PickPayload | server/mcp_tools/commit_tools.py:539-548 | the cherry-pick body: the branch always, dry_run as text iff given, message iff given, nothing else |
| Commits.LemmaCommitActionResult | server/mcp_tools/commit_tools.py:552-588 | every non-error status answers the decoded body (the 201 and 200-with-dry-run checks change nothing); transport and non-JSON errors answer the shared error; a JSON error body goes through the corrected handler |
| Commits.CherryPickCommit | server/mcp_tools/commit_tools.py:481-588 | a POST to the commit's cherry_pick with the payload above and the answer above |
| Commits.RevertCommit | server/mcp_tools/commit_tools.py:591-695 | a POST to the commit's revert with the branch and dry_run, never a message |
| Commits.LemmaPickErrorEscapes | server/mcp_tools/commit_tools.py:577-584 | a JSON error body of 0 or null raises TypeError and a list holding "message" raises AttributeError, none of them caught; the corrected handler answers the details instead |
| Commits.PickError | server/mcp_tools/commit_tools.py:577-584 | the corrected handler always answers a dictionary with an "error" key |
| Commits.LemmaPickErrorAgrees | server/mcp_tools/commit_tools.py:577-584 | on every JSON object body, and wherever the written handler returns, the two handlers answer the same |
| Commits.LemmaPickError | server/mcp_tools/commit_tools.py:580-582 | an object with error_code or message answers exactly error (the message, else str(e)) and error_code ("unknown_api_error" when absent); any other body answers str(e) with the body as details |
| Commits.GetCommitDiff | server/mcp_tools/commit_tools.py:698-770 | a GET of the commit's diff with `unidiff` as text when given |
| Commits.GetCommitComments | server/mcp_tools/commit_tools.py:773-830 | a GET of the commit's /comments with no query and no body, answered with the standard result |
| Commits.GetCommitDiscussions | server/mcp_tools/commit_tools.py:923-981 | a GET of the commit's /discussions with no query and no body, answered with the standard result |
| Commits.PostCommitComment | server/mcp_tools/commit_tools.py:833-920 | a POST whose body is the note plus path, line and line_type each iff not None, nothing else |
| Commits.ListCommitStatuses | server/mcp_tools/commit_tools.py:984-1094 | a GET of the commit's statuses where each of the nine filters is sent iff not None, booleans as text, and nothing else |
| Commits.SetCommitPipelineStatus | server/mcp_tools/commit_tools.py:1097-1212 | a POST to /statuses/{sha} with the state; name iff given, otherwise context iff given, never both; each of the five options iff not None |
| Commits.ListCommitMergeRequests | server/mcp_tools/commit_tools.py:1215-1309 | a GET of the commit's merge requests with `state` iff given |
| Commits.LemmaSignatureErrorAgrees | server/mcp_tools/commit_tools.py:1372-1378 | wherever the written handler returns, the corrected one answers the same; other statuses answer the shared error; a 404 with a JSON list body raises AttributeError as written, while the corrected handler answers the shared error |
| Commits.LemmaSignatureError | server/mcp_tools/commit_tools.py:1372-1378 | the corrected 404 handler answers every JSON error body, of any type, with an error dictionary, and gives the unsigned-commit notice only for a 404 whose body is an object |
| Commits.LemmaSignatureResult | server/mcp_tools/commit_tools.py:1362-1384 | a 404 whose JSON object's message lower-cases to "404 gpg signature not found" answers the unsigned-commit error with that body; every other outcome answers as the common body |
| Commits.GetCommitSignature | server/mcp_tools/commit_tools.py:1312-1384 | a GET of the commit's signature answered as above |
| Files.Utf8 | server/mcp_tools/file_tools.py:48 | the UTF-8 encoding that `quote_plus` applies first: one to four bytes per character, one byte exactly for ASCII |
| Files.LemmaDecodeOne | server/mcp_tools/file_tools.py:48 | the decoder reads back exactly the character and its width from any encoded character, whatever follows it |
| Files.LemmaUtf8RoundTrip | server/mcp_tools/file_tools.py:48 | decoding the UTF-8 encoding of any string gives the string back |
| Files.QuoteByte | server/mcp_tools/file_tools.py:48 | a space becomes "+", an unreserved byte (letter, digit, `_.-~`) stays, any other byte becomes "%" and two upper-case hex digits of its value |
| Files.LemmaQuotedCharacters | server/mcp_tools/file_tools.py:48 | a quoted byte string holds only unreserved characters, "+", "%" and hex digits, so never "/", space, "?" or "#" |
| Files.LemmaQuotePlusCharacters | server/mcp_tools/file_tools.py:48-51 | a quoted path holds no "/" and no space, so it stays one URL path segment |
| Files.LemmaQuoteBytesRoundTrip | server/mcp_tools/file_tools.py:48 | unquoting the quoted bytes gives the bytes back |
| Files.LemmaQuotePlusRoundTrip | server/mcp_tools/file_tools.py:48 | `unquote_plus(quote_plus(s)) == s` for every string |
| Files.LemmaQuotePlusInjective | server/mcp_tools/file_tools.py:48 | two different paths never quote to the same URL segment |
| Files.LemmaQuotePlusPlain | server/mcp_tools/file_tools.py:48 | a path made only of unreserved ASCII characters is left unchanged |
| Files.LemmaSlashAndSpace | server/mcp_tools/file_tools.py:47-48 | "/" is quoted as "%2F" and a space as "+" |
| Files.LemmaFileUrl | server/mcp_tools/file_tools.py:48-51 | the file URL is the project's files prefix followed by one segment without "/" that unquotes to the file path |
| Files.AddCommitFields | server/mcp_tools/file_tools.py:68-74 | the given fields are kept; author_email, author_name, last_commit_id and start_branch are each added iff given non-empty, holding the value |
| Files.ContentFields | server/mcp_tools/file_tools.py:60-66 | the content payload is exactly branch, commit_message, content, encoding and execute_filemode, each holding its argument |
| Files.CreateFile | server/mcp_tools/file_tools.py:8-102 | a POST to the quoted file URL, the token always sent with the JSON content type; the body is the content payload plus author_email, author_name and start_branch iff given non-empty, and never last_commit_id |
| Files.UpdateFile | server/mcp_tools/file_tools.py:105-200 | a PUT to the same URL with the content payload plus the four commit fields, each iff given non-empty |
| Files.DeleteFields | server/mcp_tools/file_tools.py:247-252 | the delete payload starts as exactly branch and commit_message |
| Files.LemmaDeleteFileResult | server/mcp_tools/file_tools.py:270-280 | 204 answers the fixed success dictionary, which is not an error, even when the empty body is not JSON; every other outcome answers as the common body |
| Files.DeleteFile | server/mcp_tools/file_tools.py:203-295 | a DELETE of the file with branch and commit_message and the four commit fields each iff given non-empty, every field with its value and no other field, answered as above |
| Files.GetRawFile | server/mcp_tools/file_tools.py:298-364 | a GET of the file's /raw with the query exactly ref and lfs, answering the body text |
| Files.GetFileMetadata | server/mcp_tools/file_tools.py:367-434 | a GET of the file URL with the query exactly ref |
| Files.GetFileBlame | server/mcp_tools/file_tools.py:437-519 | a GET of the file's /blame with ref always, and range[start], range[end] and range each iff given |
| Repo.TreeParams | server/mcp_tools/repo_tools.py:48-73 | ref, path, page_token and pagination are each sent iff given non-empty; recursive is sent as "true" iff set; per_page iff not None; no other key |
| Repo.ListRepositoryTree | server/mcp_tools/repo_tools.py:13-99 | a GET of the repository tree with the always-present token and no body; the query holds ref, path, page_token and pagination iff given non-empty, recursive as "true" iff set, per_page iff not None, each with its value, and nothing else |
| Repo.GetBlob | server/mcp_tools/repo_tools.py:103-158 | a GET of the blob named by its SHA, no query |
| Repo.GetRawBlob | server/mcp_tools/repo_tools.py:161-214 | a GET of the blob's /raw answering the body text on success |
| Repo.GetFileArchive | server/mcp_tools/repo_tools.py:217-285 | a GET of the archive whose URL ends in the requested format, "tar.gz" when the format is omitted, with sha and path each iff given non-empty and with their values, answering the body bytes |
| Repo.CompareRefs | server/mcp_tools/repo_tools.py:288-363 | a GET of /compare whose query is exactly from, to and straight, plus from_project_id iff it is not None |
| Repo.Accepted | server/mcp_tools/repo_tools.py:404-419 | a value is sent iff it is given non-empty and its lower-case form is among the accepted ones, and then in lower case |
| Repo.LemmaAccepted | server/mcp_tools/repo_tools.py:404-419 | an already valid lower-case value is sent unchanged, and re-validating a sent value changes nothing |
| Repo.LemmaOrdersLowerCase | server/mcp_tools/repo_tools.py:404-411 | the accepted order_by values are already lower case |
| Repo.LemmaSortsLowerCase | server/mcp_tools/repo_tools.py:412-419 | the accepted sort values are already lower case |
| Repo.GetContributors | server/mcp_tools/repo_tools.py:366-447 | a GET of /contributors with order_by and sort each sent iff valid ignoring case, then lower-cased; an invalid value is dropped, not an error |
| Repo.RefList | server/mcp_tools/repo_tools.py:485 | the refs query is the list of the refs in order |
| Repo.GetMergeBase | server/mcp_tools/repo_tools.py:450-517 | fewer than two refs answer "Invalid Input" locally with no request; otherwise a GET of /merge_base whose query is exactly the refs list |
| Repo.AddChangelogData | server/mcp_tools/repo_tools.py:520-613 | a form POST of /changelog with the version always and each of the eight options under its API name iff its rule holds; from and to are sent iff from_ref and to_ref are truthy, and never under their Python names |
| Repo.GenerateChangelogData | server/mcp_tools/repo_tools.py:616-696 | a GET of /changelog with the version always and each of the five options iff its rule holds; from and to iff truthy |
| Repo.UpdateSubmoduleReference | server/mcp_tools/repo_tools.py:699-766 | a form PUT of the submodule with branch and commit_sha always and commit_message iff given non-empty, nothing else |
| Issues.LemmaLabelsRoundTrip | server/mcp_tools/issue_tools.py:96-97 | the labels are sent as one string that splits back into the labels |
| Issues.ListIssues | server/mcp_tools/issue_tools.py:7-138 | a GET of /issues where each of the 22 filters is sent iff its own guard holds (`is not None` for assignee_id, confidential and the other None-checked ones, truthiness for the rest), labels comma-joined, and nothing else |
| Issues.ListProjectIssues | server/mcp_tools/issue_tools.py:141-274 | a GET of the project's issues with the same per-filter guards as this tool writes them (assignee_username[], author_username and cursor on truthiness, confidential on None) |
| Issues.GetSingleIssue | server/mcp_tools/issue_tools.py:277-318 | a GET of /issues/{id}, no query |
| Issues.CreateNewIssue | server/mcp_tools/issue_tools.py:321-427 | a POST with the title always and each of the 14 options iff its guard holds (confidential on None, description on truthiness), labels comma-joined, nothing else |
| Issues.EditIssue | server/mcp_tools/issue_tools.py:430-541 | with every field None the answer is the local "at least one parameter" error and no request; otherwise a PUT whose body holds exactly the fields that are not None |
| Issues.LemmaDeleteIssueResult | server/mcp_tools/issue_tools.py:568-590 | a failure answers the shared error; any success answers a "success" dictionary, not an error, whose message names the issue iid, which parses back |
| Issues.DeleteIssue | server/mcp_tools/issue_tools.py:544-590 | a DELETE of the issue answered as above |
| Issues.ReorderIssue | server/mcp_tools/issue_tools.py:593-651 | with both neighbours None the answer is the local error and no request; otherwise a PUT of /reorder whose query holds each neighbour iff given, so it is never empty |
| Issues.MoveIssue | server/mcp_tools/issue_tools.py:654-705 | a POST of /move whose body is exactly the target project id |
| Issues.CloneIssue | server/mcp_tools/issue_tools.py:708-764 | a POST of /clone whose query is the target project and with_notes iff given |
| Issues.LemmaToggleResult | server/mcp_tools/issue_tools.py:795-910 | subscribe, unsubscribe and to-do answer a not_modified dictionary, not an error, for 304, and the common body for every other outcome |
| Issues.LemmaUnchangedMessagesDiffer | server/mcp_tools/issue_tools.py:800-910 | the three 304 messages are pairwise different, so the answer tells which action was a no-op |
| Issues.ToggleIssue | server/mcp_tools/issue_tools.py:767-929 | a POST of the issue's subscribe, unsubscribe or todo, answered as above |
| Issues.PromoteNote | server/mcp_tools/issue_tools.py:961-965 | the note always ends with the /promote quick action |
| Issues.LemmaPromoteNote | server/mcp_tools/issue_tools.py:961-965 | a non-empty comment is kept verbatim before a blank line and /promote; no comment, or an empty one, gives /promote alone |
| Issues.PromoteIssueToEpic | server/mcp_tools/issue_tools.py:932-992 | a POST of the issue's /notes whose query is exactly the note body |
| Issues.SetIssueTimeEstimate | server/mcp_tools/issue_tools.py:995-1046 | a POST of /time_estimate whose query is exactly the duration |
| Issues.AddSpentTime | server/mcp_tools/issue_tools.py:1097-1152 | a POST of /add_spent_time with the duration always and the summary iff it is given non-empty |
| Issues.ResetIssueTimeEstimate | server/mcp_tools/issue_tools.py:1049-1094 | a POST of the issue's /reset_time_estimate with PRIVATE-TOKEN always present, no query and no body, answered with the standard result |
| Issues.ResetIssueSpentTime | server/mcp_tools/issue_tools.py:1155-1200 | a POST of the issue's /reset_spent_time with PRIVATE-TOKEN always present, no query and no body, answered with the standard result |
| Issues.GetIssueTimeStats | server/mcp_tools/issue_tools.py:1203-1248 | a GET of the issue's /time_stats with PRIVATE-TOKEN always present, no query and no body, answered with the standard result |
| Issues.ListRelatedMergeRequests | server/mcp_tools/issue_tools.py:1251-1296 | a GET of the issue's /related_merge_requests with PRIVATE-TOKEN always present, no query and no body, answered with the standard result |
| Issues.ListClosingMergeRequests | server/mcp_tools/issue_tools.py:1299-1344 | a GET of the issue's /closed_by with PRIVATE-TOKEN always present, no query and no body, answered with the standard result |
| Issues.ListIssueParticipants | server/mcp_tools/issue_tools.py:1347-1392 | a GET of the issue's /participants with PRIVATE-TOKEN always present, no query and no body, answered with the standard result |
| Issues.GetUserAgentDetails | server/mcp_tools/issue_tools.py:1395-1440 | a GET of the issue's /user_agent_detail with PRIVATE-TOKEN always present, no query and no body, answered with the standard result |
| Issues.ListStateEvents | server/mcp_tools/issue_tools.py:1443-1488 | a GET of the issue's /resource_state_events with PRIVATE-TOKEN always present, no query and no body, answered with the standard result |
| Issues.ListIncidentMetricImages | server/mcp_tools/issue_tools.py:1555-1600 | a GET of the issue's /metric_images with PRIVATE-TOKEN always present, no query and no body, answered with the standard result |
| Issues.UpdateIncidentMetricImage | server/mcp_tools/issue_tools.py:1603-1663 | with url and url_text both None the answer is the local error and no request; otherwise a form PUT with each iff given non-empty, so url="" passes the guard and sends an empty form |
| Issues.LemmaDeleteImageResult | server/mcp_tools/issue_tools.py:1692-1713 | a failure answers the shared error; any success answers "success" with a message naming the image id, which parses back |
| Issues.DeleteIncidentMetricImage | server/mcp_tools/issue_tools.py:1666-1713 | a DELETE of the metric image answered as above |
| Projects.Interpolated | server/mcp_tools/project_tools.py:161 | an f-string spells a None user id as "None" and a given one as itself |
| Projects.SingleProjectParams | server/mcp_tools/project_tools.py:45-51 | license, statistics and with_custom_attributes are each sent iff truthy, with their value, so only truthy values are sent |
| Projects.GetSingleProject | server/mcp_tools/project_tools.py:8-75 | a GET of the project with the always-present token and no body; the query holds license, statistics and with_custom_attributes each iff truthy, with its value, and nothing else |
| Projects.ListProjectsParams | server/mcp_tools/project_tools.py:170-234 | each of the filters is sent iff it is not None, with its value, and nothing else |
| Projects.ListProjects | server/mcp_tools/project_tools.py:78-258 | a GET of /users/{user_id}/projects, which is /users/None/projects when no user id is given, with the filters above |
| Projects.LemmaContributedResult | server/mcp_tools/project_tools.py:315-359 | an empty body answers [] before the status is checked; otherwise a failure answers an error; a JSON list body is answered as is; every answer is a list or a dictionary with "error" |
| Projects.ContributedParams | server/mcp_tools/project_tools.py:306-313 | order_by, simple and sort are each sent iff not None |
| Projects.ListUserContributedProjects | server/mcp_tools/project_tools.py:261-359 | a GET of the user's contributed projects with no body; the query holds order_by, simple and sort each iff not None, with its value, and nothing else; answered as above |
| Projects.SearchProjectsByName | server/mcp_tools/project_tools.py:362-433 | a GET of /projects with search always and order_by and sort each iff not None |
| Projects.IfIdsGiven | server/mcp_tools/project_tools.py:481-483 | an id list that is not None is sent as the comma-joined decimal ids |
| Projects.IfNamesGiven | server/mcp_tools/project_tools.py:711-713 | a name list that is not None is sent comma-joined |
| Projects.ListProjectUsers | server/mcp_tools/project_tools.py:436-507 | a GET of the project's users with search iff not None and skip_users iff not None, as comma-joined ids that parse back to the list |
| Projects.ProjectGroupsParams | server/mcp_tools/project_tools.py:546-559 | the five filters are each sent iff not None, skip_groups comma-joined |
| Projects.ListProjectGroups | server/mcp_tools/project_tools.py:510-583 | a GET of the project's groups with no body; the query holds search, shared_min_access_level, shared_visible_only, skip_groups (comma-joined) and with_shared each iff not None, with its value, and nothing else; skip_groups parses back to the ids |
| Projects.ListProjectShareableGroups | server/mcp_tools/project_tools.py:586-651 | a GET of /share_locations with search iff not None |
| Projects.InvitedGroupsParams | server/mcp_tools/project_tools.py:704-715 | search, min_access_level, relation (comma-joined) and with_custom_attributes are each sent iff not None |
| Projects.ListProjectInvitedGroups | server/mcp_tools/project_tools.py:654-739 | a GET of /invited_groups with no body; the query holds search, min_access_level, relation (comma-joined) and with_custom_attributes each iff not None, with its value, and nothing else; a comma-free relation list splits back |
| Projects.ListProjectLanguages | server/mcp_tools/project_tools.py:742-797 | a GET of /languages, no query |
| Projects.ProjectPayload | server/mcp_tools/project_tools.py:1004-1006 | the payload literal lists name, path and the other fields, all under different names |
| Projects.LemmaPayloadNamePath | server/mcp_tools/project_tools.py:1084-1088 | name and path survive the None-dropping comprehension exactly when they are not None |
| Projects.LemmaPayloadFields | server/mcp_tools/project_tools.py:1084 | every other field survives exactly when it is not None, with its value, and no key is invented |
| Projects.CreateProject | server/mcp_tools/project_tools.py:800-1113 | with name and path both None the answer is the local validation error and no request; otherwise a POST of /projects whose body is the filtered payload, holding name or path |
| Projects.CreateProjectForUser | server/mcp_tools/project_tools.py:1116-1433 | without a truthy name the answer is the local validation error; otherwise a POST of /projects/user/{id} whose PRIVATE-TOKEN header is the API URL, as written, and whose body is the filtered payload with the name |
| Projects.EditProject | server/mcp_tools/project_tools.py:1436-1836 | with every field None the answer is the local warning and no request; otherwise a PUT whose body is the non-empty filtered payload |
| Projects.ImportProjectMembers | server/mcp_tools/project_tools.py:1839-1909 | a POST of /import_project_members/{source} with no body |
| Projects.ArchiveProject | server/mcp_tools/project_tools.py:1912-1968 | a POST of the project's /archive with a JSON content type, PRIVATE-TOKEN always present, no query and no body, answered with the standard result |
| Projects.UnarchiveProject | server/mcp_tools/project_tools.py:1971-2027 | a POST of the project's /unarchive with a JSON content type, PRIVATE-TOKEN always present, no query and no body, answered with the standard result |
| Projects.RestoreProject | server/mcp_tools/project_tools.py:2106-2162 | a POST of the project's /restore with a JSON content type, PRIVATE-TOKEN always present, no query and no body, answered with the standard result |
| Projects.TransferProject | server/mcp_tools/project_tools.py:2165-2226 | a PUT of /transfer whose body is exactly the namespace |
| Projects.ListTransferLocations | server/mcp_tools/project_tools.py:2229-2285 | a GET of /transfer_locations with search iff truthy |
| Projects.LemmaDeleteProjectResult | server/mcp_tools/project_tools.py:2073-2103 | 202 and 204 answer a message naming the project and the state ("queued for deletion" or "immediately deleted", which differ) with a status that parses back; a failure answers the shared error; any other success falls off the end and answers None |
| Projects.DeleteProject | server/mcp_tools/project_tools.py:2030-2103 | a DELETE of the project with full_path and permanently_remove each iff not None, answered as above |
| Projects.LemmaAvatarResult | server/mcp_tools/project_tools.py:2369-2399 | without a save path a success answers the raw bytes; an HTTP error answers the body text as details; a transport error answers the network error |
| Projects.DownloadProjectAvatar | server/mcp_tools/project_tools.py:2344-2399 | a GET of /avatar, with the token only when set, answered as above |
| Projects.RemoveProjectAvatar | server/mcp_tools/project_tools.py:2402-2445 | a PUT of the project whose body is exactly an empty avatar |
| Projects.ShareProjectWithGroup | server/mcp_tools/project_tools.py:2448-2500 | a POST of /share with group_id and group_access always and expires_at iff truthy |
| Projects.LemmaUnshareResult | server/mcp_tools/project_tools.py:2525-2548 | a failure answers the shared error; 204 answers success; any other status answers a warning whose status code parses back; the body is never decoded |
| Projects.UnshareProjectFromGroup | server/mcp_tools/project_tools.py:2503-2548 | a DELETE of /share/{group_id} answered as above |
| Projects.LemmaHousekeepingResult | server/mcp_tools/project_tools.py:2576-2599 | a failure answers the shared error; 202 answers success alone; another success answers success with the decoded body, or {} when empty; a non-JSON body is a network error |
| Projects.StartProjectHousekeeping | server/mcp_tools/project_tools.py:2551-2599 | a POST of /housekeeping with task iff truthy, answered as above |
| Projects.SastRealTimeScan | server/mcp_tools/project_tools.py:2602-2654 | a POST of the SAST scan whose body is exactly the file path and content |
| Projects.GetRepositoryStoragePath | server/mcp_tools/project_tools.py:2712-2753 | a GET of /storage, no query |
| Projects.DownloadRepositorySnapshot | server/mcp_tools/project_tools.py:2657-2709 | a GET of /snapshot whose query is exactly wiki as "true" or "false", parsing back to the flag; an HTTP error answers the body text as details |
| MergeRequests.ApprovePayload | server/mcp_tools/merge_request_tools.py:60-66 | the approval body holds approval_password and sha exactly when each is given, carrying the given values and nothing else |
| MergeRequests.ApproveMergeRequest | server/mcp_tools/merge_request_tools.py:7-92 | a JSON POST of /approve with no query whose body holds sha and approval_password exactly when given, with their values, and nothing else |
| MergeRequests.UpdateUnlessEmpty | server/mcp_tools/merge_request_tools.py:224-321 | no request is made, and the fixed warning is the answer, exactly when every field is None; otherwise the body keys are exactly the fields that are not None, each with its value, and the query is empty |
| MergeRequests.UpdateApprovalConfiguration | server/mcp_tools/merge_request_tools.py:224-321 | the no-update warning and no request exactly when every setting is None; otherwise a JSON POST of /approvals with no query whose body keys are exactly the settings that are not None, each with its value |
| MergeRequests.UpdateProjectApprovalRule | server/mcp_tools/merge_request_tools.py:572-668 | the no-update warning and no request exactly when every field is None; otherwise a JSON PUT of the project rule with no query whose body keys are exactly the fields that are not None, each with its value |
| MergeRequests.UpdateMergeRequestApprovalRule | server/mcp_tools/merge_request_tools.py:1099-1190 | the no-update warning and no request exactly when every field is None; otherwise a JSON PUT of the merge request rule with no query whose body keys are exactly the fields that are not None, each with its value |
| MergeRequests.UpdateGroupApprovalRule | server/mcp_tools/merge_request_tools.py:1423-1518 | the no-update warning and no request exactly when every field is None; otherwise a JSON PUT of the group rule with no query whose body keys are exactly the fields that are not None, each with its value |
| MergeRequests.RulePayload | server/mcp_tools/merge_request_tools.py:521-543 | a rule body is name and approvals_required, always sent, plus every optional field that is not None |
| MergeRequests.CreateRule | server/mcp_tools/merge_request_tools.py:465-569 | a JSON POST with no query whose body keys are exactly name, approvals_required and the optional fields that are not None, each carrying its value |
| MergeRequests.CreateProjectApprovalRule | server/mcp_tools/merge_request_tools.py:465-569 | a JSON POST of /projects/{id}/approval_rules with no query whose body holds name and approvals_required and exactly the project rule options that are not None, each with its value |
| MergeRequests.CreateMergeRequestApprovalRule | server/mcp_tools/merge_request_tools.py:1007-1096 | a JSON POST of the merge request's approval_rules with no query whose body holds name and approvals_required and exactly the merge request rule options that are not None, each with its value |
| MergeRequests.CreateGroupApprovalRule | server/mcp_tools/merge_request_tools.py:1336-1420 | a JSON POST of /groups/{id}/approval_rules with no query whose body holds name and approvals_required and exactly the group rule options that are not None, each with its value |
| MergeRequests.LemmaNotKey | server/mcp_tools/merge_request_tools.py:1701-1703 | a not[key] name is recognisably a negated filter, and distinct keys give distinct names |
| MergeRequests.NotRows | server/mcp_tools/merge_request_tools.py:1700-1703 | one not[key] insertion per negated filter, made only when its value is not None |
| MergeRequests.AddNotParams | server/mcp_tools/merge_request_tools.py:1700-1703 | the loop over negated filters adds not[key] exactly for the values that are not None and leaves every other query entry as it was |
| MergeRequests.LemmaNotRows | server/mcp_tools/merge_request_tools.py:1700-1703 | the negated-filter insertions add exactly not[key] for each non-None value and change no other entry |
| MergeRequests.LemmaBrackets | server/mcp_tools/merge_request_tools.py:1914-1916 | a key[] name ends in brackets and distinct keys give distinct names |
| MergeRequests.PlacedRows | server/mcp_tools/merge_request_tools.py:1910-1918 | one insertion per filter, under key[] for a list value of a list key and under key otherwise, made only when the value is not None |
| MergeRequests.LemmaPlacedAt | server/mcp_tools/merge_request_tools.py:1910-1918 | after those insertions each filter sits under its placed name exactly when not None, and never under the other spelling |
| MergeRequests.PlaceParams | server/mcp_tools/merge_request_tools.py:2124-2134 | the filter loop puts each non-None value under key[] (a list for a list key) or key, and nothing under the other spelling |
| MergeRequests.LemmaNotOverPlain | server/mcp_tools/merge_request_tools.py:1920-1924 | adding the negated filters over plain filter names keeps every plain entry and adds not[key] exactly for the non-None values |
| MergeRequests.ListMergeRequests | server/mcp_tools/merge_request_tools.py:1521-1729 | a GET of /merge_requests whose query holds each filter exactly when not None, and not[key] exactly for each non-None negated filter, and no other key |
| MergeRequests.ListingParams | server/mcp_tools/merge_request_tools.py:1909-1924 | the listing query: each filter under its placed name exactly when not None, and each negated filter under not[key] exactly when not None, and no other key |
| MergeRequests.ListProjectMergeRequests | server/mcp_tools/merge_request_tools.py:1732-1953 | a GET of the project's merge requests with that query, iids, approved_by_ids and approver_ids lists going under key[], and no key beyond the placed filters and not[key] entries |
| MergeRequests.ListGroupMergeRequests | server/mcp_tools/merge_request_tools.py:1956-2166 | a GET of the group's merge requests with that query, approved_by_ids, approved_by_usernames and approver_ids lists going under key[], and no key beyond the placed filters and not[key] entries |
| MergeRequests.NotNoneRequest | server/mcp_tools/merge_request_tools.py:2292 | a request whose query (or body) keys are exactly the options that are not None, each carrying its value, and whose other part is empty |
| MergeRequests.GetSingleMergeRequest | server/mcp_tools/merge_request_tools.py:2169-2317 | a GET of the merge request with no body whose query keys are exactly the options that are not None, each with its value |
| MergeRequests.CreateMergeRequest | server/mcp_tools/merge_request_tools.py:3045-3156 | a POST of /merge_requests whose body keys are exactly the fields that are not None, each carrying its value |
| MergeRequests.UpdateMergeRequest | server/mcp_tools/merge_request_tools.py:3159-3275 | no request, and the refusal answer, exactly when every field is None; otherwise a PUT with no query whose body keys are exactly the fields that are not None, each with its value |
| MergeRequests.MergeMergeRequest | server/mcp_tools/merge_request_tools.py:3339-3422 | a PUT of /merge with no query whose body keys are exactly the merge options that are not None, each with its value |
| MergeRequests.LemmaDeleteResult | server/mcp_tools/merge_request_tools.py:3316-3330 | a failure answers the shared error; 204 answers None; another success answers a Success status whose message ends with the status code, parsing back to it |
| MergeRequests.DeleteMergeRequest | server/mcp_tools/merge_request_tools.py:3278-3336 | a DELETE of the merge request with no query or body, answered as above |
| MergeRequests.DeleteMergeRequestDependency | server/mcp_tools/merge_request_tools.py:2576-2637 | a DELETE of /blocks/{block id} with no query or body, answered as above for a dependency |
| MergeRequests.LemmaDeleteRuleResult | server/mcp_tools/merge_request_tools.py:711-725 | a failure answers the shared error; 204 answers a message naming the rule id, parsing back to it, with status_code 204; another success answers the decoded body |
| MergeRequests.DeleteProjectApprovalRule | server/mcp_tools/merge_request_tools.py:671-733 | a DELETE of the project rule with no query or body, answered as above |
| MergeRequests.DeleteMergeRequestApprovalRule | server/mcp_tools/merge_request_tools.py:1193-1258 | a DELETE of the merge request rule with no query or body, answered as above |
| MergeRequests.LemmaSubscriptionResult | server/mcp_tools/merge_request_tools.py:3768-3786 | 200 answers the decoded body; 304 answers a Not Modified notice that is not an error; a failure answers the shared error; any other success answers None |
| MergeRequests.SubscribeToMergeRequest | server/mcp_tools/merge_request_tools.py:3729-3792 | a POST of /subscribe with no query or body, answered as above with the already-subscribed notice |
| MergeRequests.UnsubscribeFromMergeRequest | server/mcp_tools/merge_request_tools.py:3795-3858 | a POST of /unsubscribe with no query or body, answered as above with the already-unsubscribed notice |
| MergeRequests.LemmaTodoResult | server/mcp_tools/merge_request_tools.py:3898-3921 | 201 answers the decoded body; 304 answers Not Modified with the existing-todo message and the body as details exactly when it decodes; a failure answers the shared error; any other success answers None |
| MergeRequests.CreateMergeRequestTodo | server/mcp_tools/merge_request_tools.py:3861-3927 | a POST of /todo with no query or body, answered as above |
| MergeRequestEndpoints.ResetMergeRequestApprovals | server/mcp_tools/merge_request_tools.py:95-158 | a PUT of /reset_approvals with a JSON content type, no query and no body, answered with the standard result |
| MergeRequestEndpoints.GetApprovalState | server/mcp_tools/merge_request_tools.py:736-793 | a GET of /approvals, no query and no body, answered with the standard result |
| MergeRequestEndpoints.GetApprovalDetails | server/mcp_tools/merge_request_tools.py:796-857 | a GET of /approval_state, no query and no body, answered with the standard result |
| MergeRequestEndpoints.ListParticipants | server/mcp_tools/merge_request_tools.py:2320-2380 | a GET of /participants, no query and no body, answered with the standard result |
| MergeRequestEndpoints.ListReviewers | server/mcp_tools/merge_request_tools.py:2383-2440 | a GET of /reviewers, no query and no body, answered with the standard result |
| MergeRequestEndpoints.ListMergeRequestCommits | server/mcp_tools/merge_request_tools.py:2443-2512 | a GET of the merge request's /commits, no query and no body, answered with the standard result |
| MergeRequestEndpoints.ListDependencies | server/mcp_tools/merge_request_tools.py:2515-2573 | a GET of /blocks, no query and no body, answered with the standard result |
| MergeRequestEndpoints.ListBlockees | server/mcp_tools/merge_request_tools.py:2705-2763 | a GET of /blockees, no query and no body, answered with the standard result |
| MergeRequestEndpoints.CreateMergeRequestPipeline | server/mcp_tools/merge_request_tools.py:2982-3042 | a POST of the merge request's /pipelines, no query and no body, answered with the standard result |
| MergeRequestEndpoints.GetMergeRef | server/mcp_tools/merge_request_tools.py:3425-3483 | a GET of /merge_ref, no query and no body, answered with the standard result |
| MergeRequestEndpoints.CancelMergeWhenPipelineSucceeds | server/mcp_tools/merge_request_tools.py:3486-3540 | a POST of /cancel_merge_when_pipeline_succeeds, no query and no body, answered with the standard result |
| MergeRequestEndpoints.ListClosingIssues | server/mcp_tools/merge_request_tools.py:3613-3668 | a GET of /closes_issues, no query and no body, answered with the standard result |
| MergeRequestEndpoints.ListRelatedIssues | server/mcp_tools/merge_request_tools.py:3671-3726 | a GET of /related_issues, no query and no body, answered with the standard result |
| MergeRequestEndpoints.ListDiffVersions | server/mcp_tools/merge_request_tools.py:3930-3984 | a GET of /versions, no query and no body, answered with the standard result |
| MergeRequestEndpoints.ResetTimeEstimate | server/mcp_tools/merge_request_tools.py:4115-4168 | a POST of /reset_time_estimate, no query and no body, answered with the standard result |
| MergeRequestEndpoints.ResetSpentTime | server/mcp_tools/merge_request_tools.py:4236-4289 | a POST of /reset_spent_time, no query and no body, answered with the standard result |
| MergeRequestEndpoints.GetTimeStats | server/mcp_tools/merge_request_tools.py:4292-4349 | a GET of /time_stats, no query and no body, answered with the standard result |
| MergeRequestEndpoints.ListProjectApprovalRules | server/mcp_tools/merge_request_tools.py:324-396 | a GET of the project's approval_rules whose query keys are exactly the paging values given, answered with the standard result |
| MergeRequestEndpoints.ListMergeRequestApprovalRules | server/mcp_tools/merge_request_tools.py:860-937 | a GET of the merge request's approval_rules whose query keys are exactly the paging values given, answered with the standard result |
| MergeRequestEndpoints.ListGroupApprovalRules | server/mcp_tools/merge_request_tools.py:1261-1333 | a GET of the group's approval_rules whose query keys are exactly the paging values given, answered with the standard result |
| MergeRequestEndpoints.GetProjectApprovalRule | server/mcp_tools/merge_request_tools.py:399-462 | a GET of the project's approval_rules/{rule id}, no query and no body, answered with the standard result |
| MergeRequestEndpoints.GetMergeRequestApprovalRule | server/mcp_tools/merge_request_tools.py:940-1004 | a GET of the merge request's approval_rules/{rule id}, no query and no body, answered with the standard result |
| MergeRequestEndpoints.GetRawDiffs | server/mcp_tools/merge_request_tools.py:2850-2905 | a GET of /raw_diffs answered with the body text rather than decoded JSON |
| MergeRequestEndpoints.PageParams | server/mcp_tools/merge_request_tools.py:324-396 | the paging query holds per_page and page exactly when each is given |
| MergeRequestEndpoints.GetApprovalConfiguration | server/mcp_tools/merge_request_tools.py:161-221 | a GET of /projects/{id}/approvals with no query |
| MergeRequestEndpoints.ListMergeRequestDiffs | server/mcp_tools/merge_request_tools.py:2766-2847 | a GET of /diffs whose query is exactly page, per_page and unidiff where not None |
| MergeRequestEndpoints.ListMergeRequestPipelines | server/mcp_tools/merge_request_tools.py:2908-2979 | a GET of /pipelines whose query is exactly page and per_page where not None |
| MergeRequestEndpoints.RebaseMergeRequest | server/mcp_tools/merge_request_tools.py:3543-3610 | a PUT of /rebase whose body is skip_ci exactly when it is not None |
| MergeRequestEndpoints.CreateMergeRequestDependency | server/mcp_tools/merge_request_tools.py:2640-2702 | a POST of /blocks whose query is exactly the blocking merge request id |
| MergeRequestEndpoints.GetDiffVersion | server/mcp_tools/merge_request_tools.py:3987-4050 | a GET of /versions/{version id} sending unidiff, as a boolean, exactly when given |
| MergeRequestEndpoints.SetTimeEstimate | server/mcp_tools/merge_request_tools.py:4053-4112 | a POST of /time_estimate whose query is exactly the duration |
| MergeRequestEndpoints.AddSpentTime | server/mcp_tools/merge_request_tools.py:4171-4233 | a POST of /add_spent_time whose query always holds the duration and holds summary exactly when one is given, an empty summary included |

## Left out

- The HTTP calls themselves (`requests.get/post/put/delete`, `raise_for_status`, `response.json()`) are not modelled: each tool takes their outcome as the `Outcome` parameter, and the text of `str(e)` is an opaque string in it.
- The distinction between a `json=` body and a form-encoded `data=` body is not kept: both are the request's `body` map.
- Dictionary order is not modelled: queries and bodies are maps, so the order in which keys are sent is not captured.
- The `coverage` float of the commit-status tool (`server/mcp_tools/commit_tools.py:1101`) is passed through as an opaque `Value`.
- Values.Lower lower-cases ASCII letters only, where Python's `str.lower` also folds other scripts. No non-ASCII character lower-cases into the values it is compared with (the contributors order and sort values and the signature message), so the comparisons come out as in the source.
- Params.Build: a non-string element of a list that the source comma-joins reads as "" in the model, where Python's `",".join` would raise TypeError; the tools themselves require string lists there.
- Local file I/O is not modelled. This covers avatar upload and download, snapshot download and metric-image upload (`server/mcp_tools/project_tools.py:2287-2399`, `2656-2709`; `server/mcp_tools/issue_tools.py:1491-1552`). The two download tools take the success of the file write as a parameter. The upload tools (`upload_project_avatar`, `upload_incident_metric_image`) are left out because the request body is the file's bytes read from disk.
- The async `create_repository` and `search_repositories` (`server/mcp_tools/repo_tools.py:768-928`) are left out. They use an undefined `client` and httpx, and raise instead of answering an error dictionary.
- The getters `get_gitlab_api` and `get_gitlab_token` (`server/config.py:21-27`) are the reads of `GitlabConfig`'s two fields. Each tool takes their values as its `api` and `token` parameters, so the tools are independent of the configuration object.
- Environment-variable reads (`server/config.py:17-18`) and the httpx `get_client` with its float timeout (`server/config.py:43-45`) are left out. The initial configuration is the constructor's parameters.
- Logging (every `print`) is left out, including the "not available" message printed when promoting an issue (`server/mcp_tools/issue_tools.py:982-983`).
- Tool registration with FastMCP, `server.py`, `server/gitlab_server.py`, the package `__init__` files and the pydantic records of `server/schema.py` are not part of this model. Registration is the reason `get_raw_gitlab_file` would never be exposed: its decorator line at `server/mcp_tools/file_tools.py:297` lacks the `@`. Its behaviour is still modelled as `Files.GetRawFile`.
- Concurrency is left out: calls on the shared configuration are sequential.
- Response payloads are passed through. The shapes GitLab gives its answers are not modelled, beyond the fields the tools read themselves.
- Projects.CreateProject, Projects.CreateProjectForUser, Projects.EditProject: the keyword arguments other than `name` and `path` are a parameter list of (key, value) pairs, required pairwise distinct. The source writes them as a fixed literal, so the model does not pin down which keys are in that list.
- Projects.ImportProjectMembers: on a success body that is not a JSON object, the source's `result.get('status')` (used only for logging) raises AttributeError. The model answers the decoded body there.
- Projects.SearchProjectsByName: on a success whose JSON body has no length (a number, true/false or null), the source's log line `len(response.json())` (project_tools.py:417) raises TypeError, which none of its except clauses catch. The model answers the decoded body there.
- Projects.ListTransferLocations: on a success whose JSON body has no length (a number, true/false or null), the source's log line `len(result)` (project_tools.py:2266) raises TypeError. The model answers the decoded body there.
- Projects.RemoveProjectAvatar: on a success body that is not a JSON object, the source's log line `result.get('avatar_url')` (project_tools.py:2430) raises AttributeError. The model answers the decoded body there.
- Projects.SastRealTimeScan: on a success body that is not a JSON object, the source's log line (project_tools.py:2639) raises AttributeError at `result.get`. It raises TypeError when `vulnerabilities` is a number, true/false or null. The model answers the decoded body there.
- The sizes of integers are unbounded, as in Python, so no wrap-around is modelled.

## Findings

| source | as written | input that shows it | evidently intended | confidence | as-written member | corrected member |
|---|---|---|---|---|---|---|
| server/mcp_tools/commit_tools.py:580-582 (and 685-687) | the cherry-pick and revert HTTP-error handlers test `'error_code' in error_details` on whatever JSON the error body holds, then call `.get` on it | an HTTP 400 whose body is the JSON `0` or `null` (the `in` test raises TypeError), or `["message"]` (the `.get` raises AttributeError); the exception escapes the handler | a body that is not a JSON object is reported as the details of the HTTP error | not executed | Commits.LemmaPickErrorEscapes | Commits.LemmaPickError |
| server/mcp_tools/commit_tools.py:1375 | the signature tool's 404 handler calls `error_details.get('message', '').lower()` on whatever JSON the error body holds | an HTTP 404 whose body is the JSON `[]` raises AttributeError, which escapes the handler | such a body is answered with the shared HTTP error dictionary | not executed | Commits.LemmaSignatureErrorAgrees | Commits.LemmaSignatureError |
