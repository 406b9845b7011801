/**
 * The HTTP exchange every tool makes, taken as an input, and the error
 * normalisation the tools share.
 *
 * Every tool wraps its single `requests` call in the same try/except:
 *   - `raise_for_status()` raises an HTTPError for a 4xx or 5xx status; the
 *     tool answers `{"error": str(e), "details": <JSON body>}` or, when the
 *     body is not JSON, `{"error": str(e), "details": <body text>}`;
 *   - any other RequestException (connection failure, timeout, and also a
 *     success body that is not JSON, since requests' JSONDecodeError is a
 *     RequestException) gives `{"error": "Network/Request Error: <e>"}`,
 *     with no "details" key.
 * The texts of exceptions (`str(e)`) are opaque strings carried by the input.
 */
module Http {
  import opened Values

  /** What `response.json()` gives: the decoded value, or the decoder's message. */
  datatype Parse = Parsed(value: Value) | Unparsable(message: string)

  /**
   * A received response. `errorText` is `str(e)` of the HTTPError that
   * `raise_for_status()` raises for this response.
   */
  datatype Response = Response(status: int, errorText: string, text: string, content: seq<byte>, json: Parse)

  /** The result of sending a request: a transport failure, or a response. */
  datatype Outcome = Transport(message: string) | Received(response: Response)

  datatype Method = Get | Post | Put | Delete

  /** A request as a tool hands it to `requests`. */
  datatype Request = Request(verb: Method, url: string, headers: map<string, string>,
                             params: map<string, Value>, body: map<string, Value>)

  /**
   * What a tool invocation does: answer locally without any request (a
   * validation error or warning), or send one request and answer from its outcome.
   */
  datatype Exchange = Local(result: Value) | Remote(request: Request, result: Value)

  /**
   * The headers most tools build: the fixed `base` headers, plus the token
   * under PRIVATE-TOKEN when it is non-empty (`if get_gitlab_token(): ...`).
   */
  function WithToken(base: map<string, string>, token: string): (h: map<string, string>)
    requires "PRIVATE-TOKEN" !in base
    ensures "PRIVATE-TOKEN" in h <==> token != ""
    ensures token != "" ==> h["PRIVATE-TOKEN"] == token
    ensures forall k :: k in base ==> k in h && h[k] == base[k]
    ensures h.Keys <= base.Keys + {"PRIVATE-TOKEN"}
  {
    if token != "" then base["PRIVATE-TOKEN" := token] else base
  }

  const JsonContent: map<string, string> := map["Content-Type" := "application/json"]

  /**
   * The headers of tools that write PRIVATE-TOKEN into the header literal:
   * the header is present even when its value is empty.
   */
  function AlwaysToken(base: map<string, string>, token: string): (h: map<string, string>)
    requires "PRIVATE-TOKEN" !in base
    ensures h.Keys == base.Keys + {"PRIVATE-TOKEN"} && h["PRIVATE-TOKEN"] == token
    ensures forall k :: k in base ==> h[k] == base[k]
  {
    base["PRIVATE-TOKEN" := token]
  }

  /** `raise_for_status()` raises for client and server errors only. */
  predicate RaisesForStatus(status: int)
  {
    400 <= status < 600
  }

  /** The outcomes that end in the except clauses. */
  predicate Fails(o: Outcome)
  {
    o.Transport? || RaisesForStatus(o.response.status)
  }

  const NetworkPrefix: string := "Network/Request Error: "

  function NetworkError(message: string): Value
  {
    Dict(map["error" := Str(NetworkPrefix + message)])
  }

  /** The details of an HTTP error: the decoded JSON body, else the raw text. */
  function ErrorDetails(r: Response): Value
  {
    match r.json
    case Parsed(v) => v
    case Unparsable(_) => Str(r.text)
  }

  function HttpError(r: Response): Value
  {
    Dict(map["error" := Str(r.errorText), "details" := ErrorDetails(r)])
  }

  /** The except clauses shared by the tools. */
  function Failure(o: Outcome): Value
    requires Fails(o)
  {
    match o
    case Transport(message) => NetworkError(message)
    case Received(r) => HttpError(r)
  }

  /**
   * The except clauses of the binary endpoints (avatar, snapshot), whose
   * HTTP-error details are always the body text.
   */
  function TextFailure(o: Outcome): Value
    requires Fails(o)
  {
    match o
    case Transport(message) => NetworkError(message)
    case Received(r) => Dict(map["error" := Str(r.errorText), "details" := Str(r.text)])
  }

  /** `return response.json()` inside the try: a body that is not JSON is a RequestException. */
  function Body(r: Response): Value
  {
    match r.json
    case Parsed(v) => v
    case Unparsable(message) => NetworkError(message)
  }

  /** The common tool body: `raise_for_status()`, then `return response.json()`. */
  function Standard(o: Outcome): Value
  {
    if Fails(o) then Failure(o) else Body(o.response)
  }

  // ---------------------------------------------------------------------------
  // Reading a normalised error back

  /** The two kinds of error dictionary a tool can answer with. */
  datatype ErrorKind = NetworkFailure(message: string) | HttpFailure(error: string, details: Value)

  /** Recognises an error dictionary by its keys and its "error" text. */
  function ReadError(v: Value): Option<ErrorKind>
  {
    if v.Dict? && v.fields.Keys == {"error"} && v.fields["error"].Str? && NetworkPrefix <= v.fields["error"].s then
      Some(NetworkFailure(v.fields["error"].s[|NetworkPrefix|..]))
    else if v.Dict? && v.fields.Keys == {"error", "details"} && v.fields["error"].Str? then
      Some(HttpFailure(v.fields["error"].s, v.fields["details"]))
    else
      None
  }

  /**
   * The fallback chain: a transport failure is reported with its message and
   * no "details" key; an HTTP error carries str(e) and, as details, the JSON
   * body when it decodes and the raw text otherwise.
   */
  lemma LemmaFailureChain(o: Outcome)
    requires Fails(o)
    ensures Failure(o).Dict? && "error" in Failure(o).fields
    ensures "details" in Failure(o).fields <==> o.Received?
    ensures o.Transport? ==> ReadError(Failure(o)) == Some(NetworkFailure(o.message))
    ensures o.Received? && o.response.json.Parsed? ==>
              ReadError(Failure(o)) == Some(HttpFailure(o.response.errorText, o.response.json.value))
    ensures o.Received? && o.response.json.Unparsable? ==>
              ReadError(Failure(o)) == Some(HttpFailure(o.response.errorText, Str(o.response.text)))
  {
    if o.Transport? {
      var e := NetworkPrefix + o.message;
      assert NetworkPrefix <= e && e[|NetworkPrefix|..] == o.message;
    } else {
      assert Failure(o).fields.Keys == {"error", "details"};
      assert "details" !in map["error" := Str(o.response.errorText)];
    }
  }

  /** The binary endpoints' variant always reports the text, even for a JSON body. */
  lemma LemmaTextFailure(o: Outcome)
    requires Fails(o)
    ensures o.Transport? ==> TextFailure(o) == Failure(o)
    ensures o.Received? ==> ReadError(TextFailure(o)) == Some(HttpFailure(o.response.errorText, Str(o.response.text)))
  {
    if o.Received? {
      assert TextFailure(o).fields.Keys == {"error", "details"};
    }
  }

  /**
   * The common tool body returns the decoded JSON of every non-error
   * response; a non-error response whose body is not JSON is reported as a
   * network error, and every failing outcome as the shared error dictionary.
   */
  lemma LemmaStandard(o: Outcome)
    ensures Fails(o) ==> Standard(o) == Failure(o)
    ensures !Fails(o) && o.response.json.Parsed? ==> Standard(o) == o.response.json.value
    ensures !Fails(o) && o.response.json.Unparsable? ==>
              ReadError(Standard(o)) == Some(NetworkFailure(o.response.json.message))
  {
    if !Fails(o) && o.response.json.Unparsable? {
      var e := NetworkPrefix + o.response.json.message;
      assert NetworkPrefix <= e && e[|NetworkPrefix|..] == o.response.json.message;
    }
  }

  /** The answer of a tool that returns `response.text`. */
  function TextResult(o: Outcome): Value
  {
    if Fails(o) then Failure(o) else Str(o.response.text)
  }

  /** The answer of a tool that returns `response.content`. */
  function ContentResult(o: Outcome): Value
  {
    if Fails(o) then Failure(o) else Bytes(o.response.content)
  }

  /**
   * The raw endpoints never decode a successful body, so a success is
   * never read as an error, whatever the body holds; failures are the
   * shared error dictionaries.
   */
  lemma LemmaRawResults(o: Outcome)
    ensures Fails(o) ==> TextResult(o) == Failure(o) && ContentResult(o) == Failure(o)
    ensures !Fails(o) ==> TextResult(o) == Str(o.response.text) && ReadError(TextResult(o)) == None
    ensures !Fails(o) ==> ContentResult(o) == Bytes(o.response.content) && ReadError(ContentResult(o)) == None
  {
  }
}
