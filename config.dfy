/**
 * The process-wide GitLab configuration (`server/config.py`): an API base URL
 * and a personal access token, both strings, "" meaning unset. The setter
 * overwrites a field only with a non-empty value; `configure_gitlab` and
 * `check_gitlab_config` are the tools that write and report it.
 */
module Config {
  import opened Values

  /** The two fields of the configuration record. */
  datatype State = State(apiUrl: string, token: string)

  /** The record after `set_gitlab_config(api, token)`. */
  function Updated(s: State, api: Option<string>, token: Option<string>): State
  {
    State(if Given(api) then api.value else s.apiUrl,
          if Given(token) then token.value else s.token)
  }

  /** `is_configured()`: both fields are non-empty. */
  predicate Configured(s: State)
  {
    s.apiUrl != "" && s.token != ""
  }

  /** The default of `configure_gitlab`'s `api_url` argument. */
  const DefaultApiUrl: string := "https://gitlab.com/api/v4"

  /** The `api_url` a `configure_gitlab` call runs with: the argument, or the default when it is omitted (None). */
  function ApiUrlInEffect(api: Option<string>): string
  {
    if api.Some? then api.value else DefaultApiUrl
  }
  const NotSet: string := "(not set)"
  const TokenHelp: string :=
    "Please provide your GitLab Personal Access Token. Create one at: https://gitlab.com/-/user_settings/personal_access_tokens"
  const ConfiguredMessage: string := "GitLab credentials configured successfully. You can now use GitLab tools."
  const ReadyMessage: string := "Ready to use GitLab tools."
  const NotReadyMessage: string := "Please run configure_gitlab with your token first."

  /** The dictionary `check_gitlab_config` answers for a given record. */
  function Report(s: State): (r: Value)
    ensures r.Dict? && r.fields.Keys == {"configured", "api_url", "token_set", "message"}
    ensures r.fields["configured"] == Bool(Configured(s))
    ensures r.fields["token_set"] == Bool(s.token != "")
    ensures r.fields["api_url"] == Str(if s.apiUrl == "" then NotSet else s.apiUrl)
  {
    Dict(map[
      "configured" := Bool(Configured(s)),
      "api_url" := Str(if s.apiUrl != "" then s.apiUrl else NotSet),
      "token_set" := Bool(s.token != ""),
      "message" := Str(if Configured(s) then ReadyMessage else NotReadyMessage)
    ])
  }

  /** Setting only ever fills fields: an absent or empty argument keeps the old value. */
  lemma LemmaUpdatedPartial(s: State, api: Option<string>, token: Option<string>)
    ensures !Given(api) ==> Updated(s, api, token).apiUrl == s.apiUrl
    ensures !Given(token) ==> Updated(s, api, token).token == s.token
    ensures Given(api) ==> Updated(s, api, token).apiUrl == api.value
    ensures Given(token) ==> Updated(s, api, token).token == token.value
    ensures s.apiUrl != "" ==> Updated(s, api, token).apiUrl != ""
    ensures s.token != "" ==> Updated(s, api, token).token != ""
  {
  }

  /** Applying the same update twice is the same as applying it once. */
  lemma LemmaUpdatedIdempotent(s: State, api: Option<string>, token: Option<string>)
    ensures Updated(Updated(s, api, token), api, token) == Updated(s, api, token)
  {
  }

  /**
   * Whether the store is configured after an update, over all four
   * set/unset combinations of the two arguments.
   */
  lemma LemmaConfiguredAfterUpdate(s: State, api: Option<string>, token: Option<string>)
    ensures Configured(Updated(s, api, token)) <==>
              (Given(api) || s.apiUrl != "") && (Given(token) || s.token != "")
  {
  }

  /**
   * The report never reveals the token: two records with the same URL whose
   * tokens are both set (or both unset) give the same report.
   */
  lemma LemmaReportHidesToken(s1: State, s2: State)
    requires s1.apiUrl == s2.apiUrl && (s1.token == "" <==> s2.token == "")
    ensures Report(s1) == Report(s2)
  {
  }

  /** The mutable configuration record of the running server. */
  class GitlabConfig {
    var apiUrl: string
    var token: string

    function Snapshot(): State
      reads this
    {
      State(apiUrl, token)
    }

    /** The initial record: the GITLAB_API and GITLAB_TOKEN environment values, "" when unset. */
    constructor (envApi: Option<string>, envToken: Option<string>)
      ensures apiUrl == (if envApi.Some? then envApi.value else "")
      ensures token == (if envToken.Some? then envToken.value else "")
    {
      apiUrl := if envApi.Some? then envApi.value else "";
      token := if envToken.Some? then envToken.value else "";
    }

    /** `set_gitlab_config(api_url, token)` */
    method SetGitlabConfig(api: Option<string>, tok: Option<string>)
      modifies this
      ensures Snapshot() == Updated(old(Snapshot()), api, tok)
    {
      if Given(api) {
        apiUrl := api.value;
      }
      if Given(tok) {
        token := tok.value;
      }
    }

    /** `is_configured()` */
    predicate IsConfigured()
      reads this
    {
      Configured(Snapshot())
    }

    /**
     * `get_headers()`: always `Accept: application/json`, and the token under
     * PRIVATE-TOKEN exactly when it is set; no other header.
     */
    method GetHeaders() returns (headers: map<string, string>)
      ensures "Accept" in headers && headers["Accept"] == "application/json"
      ensures "PRIVATE-TOKEN" in headers <==> token != ""
      ensures "PRIVATE-TOKEN" in headers ==> headers["PRIVATE-TOKEN"] == token
      ensures headers.Keys <= {"Accept", "PRIVATE-TOKEN"}
    {
      headers := map["Accept" := "application/json"];
      if token != "" {
        headers := headers["PRIVATE-TOKEN" := token];
      }
    }

    /**
     * `configure_gitlab(api_url, token)`: `api` is None when the caller omits
     * `api_url`, which then takes its default, the gitlab.com API. Without a
     * non-empty token it answers an error and changes nothing; otherwise it
     * stores the token and the URL in effect when that is non-empty (so an
     * omitted URL replaces a stored self-hosted one), and answers status
     * "configured" with that URL.
     */
    method ConfigureGitlab(api: Option<string>, tok: Option<string>) returns (result: Value)
      modifies this
      ensures !Given(tok) ==> Snapshot() == old(Snapshot())
      ensures !Given(tok) ==> result == Dict(map["error" := Str("Token is required"), "message" := Str(TokenHelp)])
      ensures Given(tok) ==> Snapshot() == Updated(old(Snapshot()), Some(ApiUrlInEffect(api)), tok)
      ensures Given(tok) && api.None? ==> apiUrl == DefaultApiUrl && token == tok.value
      ensures Given(tok) ==> result == Dict(map[
                "status" := Str("configured"),
                "api_url" := Str(ApiUrlInEffect(api)),
                "message" := Str(ConfiguredMessage)])
    {
      if !Given(tok) {
        return Dict(map["error" := Str("Token is required"), "message" := Str(TokenHelp)]);
      }
      var url := if api.Some? then api.value else DefaultApiUrl;
      SetGitlabConfig(Some(url), tok);
      result := Dict(map[
        "status" := Str("configured"),
        "api_url" := Str(url),
        "message" := Str(ConfiguredMessage)]);
    }

    /** `check_gitlab_config()` */
    method CheckGitlabConfig() returns (result: Value)
      ensures result == Report(Snapshot())
    {
      result := Dict(map[
        "configured" := Bool(IsConfigured()),
        "api_url" := Str(if apiUrl != "" then apiUrl else NotSet),
        "token_set" := Bool(token != ""),
        "message" := Str(if IsConfigured() then ReadyMessage else NotReadyMessage)
      ]);
    }
  }

  /**
   * A successful configure stores the token. With the URL omitted the store
   * then holds the default URL, whatever it held before, and is configured;
   * with an empty URL passed it keeps its old URL and is configured iff that
   * URL was set.
   */
  lemma LemmaConfigureOutcome(s: State, api: Option<string>, token: Option<string>)
    requires Given(token)
    ensures Updated(s, Some(ApiUrlInEffect(api)), token).token == token.value
    ensures api.None? ==> Updated(s, Some(ApiUrlInEffect(api)), token).apiUrl == DefaultApiUrl
    ensures Configured(Updated(s, Some(ApiUrlInEffect(api)), token)) <==> ApiUrlInEffect(api) != "" || s.apiUrl != ""
    ensures api == Some("") ==> Updated(s, Some(ApiUrlInEffect(api)), token).apiUrl == s.apiUrl
  {
  }
}
