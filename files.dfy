/**
 * Repository file tools (`server/mcp_tools/file_tools.py`) and the path
 * encoding they share: `urllib.parse.quote_plus(file_path)` encodes the
 * path as UTF-8, keeps the unreserved bytes of section 2.3 of RFC 3986,
 * writes a space as `+` and every other byte as `%HH` (section 2.1 of
 * RFC 3986), so that the whole path, slashes included, is one URL segment.
 */
module Files {
  import opened Values
  import opened Params
  import opened Http

  // ---------------------------------------------------------------------------
  // UTF-8

  /** The UTF-8 encoding of one Unicode scalar value. */
  function Utf8(c: char): (bs: seq<byte>)
    ensures 1 <= |bs| <= 4
    ensures (c as int < 0x80) <==> |bs| == 1
  {
    var n := c as int;
    if n < 0x80 then [n as byte]
    else if n < 0x800 then [(0xC0 + n / 64) as byte, (0x80 + n % 64) as byte]
    else if n < 0x10000 then [(0xE0 + n / 4096) as byte, (0x80 + n / 64 % 64) as byte, (0x80 + n % 64) as byte]
    else [(0xF0 + n / 262144) as byte, (0x80 + n / 4096 % 64) as byte, (0x80 + n / 64 % 64) as byte,
          (0x80 + n % 64) as byte]
  }

  /** `s.encode('utf-8')` */
  function Encode(s: string): (bs: seq<byte>)
    ensures |bs| >= |s|
  {
    if |s| == 0 then [] else Utf8(s[0]) + Encode(s[1..])
  }

  /** A continuation byte `10xxxxxx`. */
  predicate Continuation(b: byte)
  {
    0x80 <= b < 0xC0
  }

  /** A code point that is a Unicode scalar value, i.e. a Dafny `char`. */
  predicate Scalar(n: int)
  {
    0 <= n < 0xD800 || 0xE000 <= n < 0x11_0000
  }

  /**
   * The first character of a UTF-8 byte sequence and the length of its
   * encoding, or None when the sequence does not start with a character.
   */
  function DecodeOne(bs: seq<byte>): (r: Option<(char, nat)>)
    ensures r.Some? ==> 1 <= r.value.1 <= |bs|
  {
    if |bs| == 0 then None
    else
      var b0 := bs[0] as int;
      if b0 < 0x80 then Some((b0 as char, 1))
      else if 0xC0 <= b0 < 0xE0 && |bs| >= 2 && Continuation(bs[1]) then
        var n := (b0 - 0xC0) * 64 + (bs[1] as int - 0x80);
        Some((n as char, 2))
      else if 0xE0 <= b0 < 0xF0 && |bs| >= 3 && Continuation(bs[1]) && Continuation(bs[2]) then
        var n := (b0 - 0xE0) * 4096 + (bs[1] as int - 0x80) * 64 + (bs[2] as int - 0x80);
        if Scalar(n) then Some((n as char, 3)) else None
      else if 0xF0 <= b0 < 0xF5 && |bs| >= 4 && Continuation(bs[1]) && Continuation(bs[2]) && Continuation(bs[3]) then
        var n := (b0 - 0xF0) * 262144 + (bs[1] as int - 0x80) * 4096 + (bs[2] as int - 0x80) * 64 + (bs[3] as int - 0x80);
        if Scalar(n) then Some((n as char, 4)) else None
      else None
  }

  /** `bs.decode('utf-8')`, lenient about over-long forms. */
  function Decode(bs: seq<byte>): Option<string>
    decreases |bs|
  {
    if |bs| == 0 then Some("")
    else match DecodeOne(bs)
      case None => None
      case Some((c, width)) =>
        match Decode(bs[width..])
        case None => None
        case Some(rest) => Some([c] + rest)
  }

  /** The three lower digits of a code point in base 64. */
  lemma LemmaBase64Digits(n: int)
    requires 0 <= n
    ensures n == (n / 64) * 64 + n % 64
    ensures n / 64 == (n / 4096) * 64 + n / 64 % 64
    ensures n / 4096 == (n / 262144) * 64 + n / 4096 % 64
  {
  }

  lemma LemmaDecodeTwo(c: char, rest: seq<byte>)
    requires 0x80 <= c as int < 0x800
    ensures DecodeOne(Utf8(c) + rest) == Some((c, 2))
  {
    var n := c as int;
    var bs := Utf8(c) + rest;
    LemmaBase64Digits(n);
    assert bs[0] as int == 0xC0 + n / 64 && bs[1] as int == 0x80 + n % 64;
  }

  lemma LemmaDecodeThree(c: char, rest: seq<byte>)
    requires 0x800 <= c as int < 0x10000
    ensures DecodeOne(Utf8(c) + rest) == Some((c, 3))
  {
    var n := c as int;
    var bs := Utf8(c) + rest;
    LemmaBase64Digits(n);
    assert bs[0] as int == 0xE0 + n / 4096 && bs[1] as int == 0x80 + n / 64 % 64 && bs[2] as int == 0x80 + n % 64;
    assert (n / 4096) * 4096 + (n / 64 % 64) * 64 + n % 64 == n;
  }

  lemma LemmaDecodeFour(c: char, rest: seq<byte>)
    requires 0x10000 <= c as int
    ensures DecodeOne(Utf8(c) + rest) == Some((c, 4))
  {
    var n := c as int;
    var bs := Utf8(c) + rest;
    LemmaBase64Digits(n);
    assert bs[0] as int == 0xF0 + n / 262144 && bs[1] as int == 0x80 + n / 4096 % 64;
    assert bs[2] as int == 0x80 + n / 64 % 64 && bs[3] as int == 0x80 + n % 64;
    assert (n / 262144) * 262144 + (n / 4096 % 64) * 4096 + (n / 64 % 64) * 64 + n % 64 == n;
  }

  /** Decoding the encoding of a character gives the character back, and the rest is left alone. */
  lemma LemmaDecodeOne(c: char, rest: seq<byte>)
    ensures DecodeOne(Utf8(c) + rest) == Some((c, |Utf8(c)|))
  {
    var n := c as int;
    if n < 0x80 {
    } else if n < 0x800 {
      LemmaDecodeTwo(c, rest);
    } else if n < 0x10000 {
      LemmaDecodeThree(c, rest);
    } else {
      LemmaDecodeFour(c, rest);
    }
  }

  /** UTF-8 decoding undoes UTF-8 encoding. */
  lemma {:induction false} LemmaUtf8RoundTrip(s: string)
    ensures Decode(Encode(s)) == Some(s)
  {
    if |s| > 0 {
      var bs := Encode(s);
      LemmaDecodeOne(s[0], Encode(s[1..]));
      assert bs[|Utf8(s[0])|..] == Encode(s[1..]);
      LemmaUtf8RoundTrip(s[1..]);
      assert [s[0]] + s[1..] == s;
    }
  }

  // ---------------------------------------------------------------------------
  // Percent-encoding

  /** The bytes `quote` never escapes: ASCII letters, digits and `_.-~`. */
  predicate Unreserved(b: byte)
  {
    ('A' as byte <= b <= 'Z' as byte) || ('a' as byte <= b <= 'z' as byte) || ('0' as byte <= b <= '9' as byte)
    || b == '_' as byte || b == '.' as byte || b == '-' as byte || b == '~' as byte
  }

  /** An upper-case hexadecimal digit, as `quote` writes them. */
  function HexDigit(d: int): (c: char)
    requires 0 <= d < 16
    ensures '0' <= c <= '9' || 'A' <= c <= 'F'
  {
    if d < 10 then ('0' as int + d) as char else ('A' as int + d - 10) as char
  }

  /** The value of a hexadecimal digit of either case. */
  function HexValue(c: char): (d: Option<int>)
    ensures d.Some? ==> 0 <= d.value < 16
  {
    if '0' <= c <= '9' then Some(c as int - '0' as int)
    else if 'A' <= c <= 'F' then Some(c as int - 'A' as int + 10)
    else if 'a' <= c <= 'f' then Some(c as int - 'a' as int + 10)
    else None
  }

  /** One byte as `quote_plus` writes it. */
  function QuoteByte(b: byte): (t: string)
    ensures b == ' ' as byte ==> t == "+"
    ensures Unreserved(b) ==> t == [b as char]
    ensures b != ' ' as byte && !Unreserved(b) ==>
              |t| == 3 && t[0] == '%' && HexValue(t[1]) == Some(b as int / 16) && HexValue(t[2]) == Some(b as int % 16)
  {
    if b == ' ' as byte then "+"
    else if Unreserved(b) then [b as char]
    else ['%', HexDigit(b as int / 16), HexDigit(b as int % 16)]
  }

  /** Every byte in turn. */
  function QuoteBytes(bs: seq<byte>): string
  {
    if |bs| == 0 then "" else QuoteByte(bs[0]) + QuoteBytes(bs[1..])
  }

  /** `urllib.parse.quote_plus(s)` with its default `safe=''`. */
  function QuotePlus(s: string): string
  {
    QuoteBytes(Encode(s))
  }

  /** A character `quote_plus` can write. */
  predicate Quoted(c: char)
  {
    ('A' <= c <= 'Z') || ('a' <= c <= 'z') || ('0' <= c <= '9') || c == '_' || c == '.' || c == '-' || c == '~'
    || c == '+' || c == '%'
  }

  /**
   * The encoded path holds only unreserved characters, `+` and `%`, so it
   * has no `/`, no space and no `?` or `#` and stays a single URL segment.
   */
  lemma {:induction false} LemmaQuotedCharacters(bs: seq<byte>)
    ensures forall k :: 0 <= k < |QuoteBytes(bs)| ==> Quoted(QuoteBytes(bs)[k])
    ensures '/' !in QuoteBytes(bs) && ' ' !in QuoteBytes(bs) && '?' !in QuoteBytes(bs) && '#' !in QuoteBytes(bs)
  {
    if |bs| > 0 {
      LemmaQuotedCharacters(bs[1..]);
      var head := QuoteByte(bs[0]);
      assert forall k :: 0 <= k < |head| ==> Quoted(head[k]);
      assert QuoteBytes(bs) == head + QuoteBytes(bs[1..]);
    }
  }

  /** The path characters `quote_plus` writes. */
  lemma LemmaQuotePlusCharacters(s: string)
    ensures forall k :: 0 <= k < |QuotePlus(s)| ==> Quoted(QuotePlus(s)[k])
    ensures '/' !in QuotePlus(s) && ' ' !in QuotePlus(s)
  {
    LemmaQuotedCharacters(Encode(s));
  }

  /** The server side: `+` is a space, `%HH` a byte, any other ASCII character itself. */
  function UnquoteBytes(t: string): Option<seq<byte>>
    decreases |t|
  {
    if |t| == 0 then Some([])
    else if t[0] == '+' then Prepend(' ' as byte, UnquoteBytes(t[1..]))
    else if t[0] == '%' then
      if |t| >= 3 && HexValue(t[1]).Some? && HexValue(t[2]).Some? then
        Prepend((HexValue(t[1]).value * 16 + HexValue(t[2]).value) as byte, UnquoteBytes(t[3..]))
      else None
    else if t[0] as int < 0x80 then Prepend(t[0] as int as byte, UnquoteBytes(t[1..]))
    else None
  }

  function Prepend(b: byte, rest: Option<seq<byte>>): Option<seq<byte>>
  {
    if rest.Some? then Some([b] + rest.value) else None
  }

  /** `urllib.parse.unquote_plus(t)` on the text `quote_plus` writes. */
  function UnquotePlus(t: string): Option<string>
  {
    match UnquoteBytes(t)
    case None => None
    case Some(bs) => Decode(bs)
  }

  /** Unquoting undoes quoting, byte by byte. */
  lemma {:induction false} LemmaQuoteBytesRoundTrip(bs: seq<byte>)
    ensures UnquoteBytes(QuoteBytes(bs)) == Some(bs)
  {
    if |bs| > 0 {
      var b := bs[0];
      var head := QuoteByte(b);
      var rest := QuoteBytes(bs[1..]);
      LemmaQuoteBytesRoundTrip(bs[1..]);
      assert QuoteBytes(bs) == head + rest;
      if b == ' ' as byte {
        assert (head + rest)[1..] == rest;
      } else if Unreserved(b) {
        assert (head + rest)[1..] == rest;
      } else {
        assert (head + rest)[3..] == rest;
        assert (b as int / 16) * 16 + b as int % 16 == b as int;
      }
      assert [b] + bs[1..] == bs;
    }
  }

  /**
   * The server reads the original path back from the encoded one, so two
   * different paths never name the same file.
   */
  lemma LemmaQuotePlusRoundTrip(s: string)
    ensures UnquotePlus(QuotePlus(s)) == Some(s)
  {
    LemmaQuoteBytesRoundTrip(Encode(s));
    LemmaUtf8RoundTrip(s);
  }

  /** Distinct paths have distinct encodings. */
  lemma LemmaQuotePlusInjective(s: string, t: string)
    ensures QuotePlus(s) == QuotePlus(t) ==> s == t
  {
    LemmaQuotePlusRoundTrip(s);
    LemmaQuotePlusRoundTrip(t);
  }

  /** A path made of unreserved ASCII characters only is sent as it is. */
  lemma {:induction false} LemmaQuotePlusPlain(s: string)
    requires forall k :: 0 <= k < |s| ==> s[k] as int < 0x80 && Unreserved(s[k] as int as byte)
    ensures QuotePlus(s) == s
  {
    if |s| > 0 {
      LemmaQuotePlusPlain(s[1..]);
      assert Utf8(s[0]) == [s[0] as int as byte];
      assert Encode(s) == [s[0] as int as byte] + Encode(s[1..]);
      assert QuoteBytes(Encode(s)) == QuoteByte(s[0] as int as byte) + QuoteBytes(Encode(s[1..]));
      assert [s[0]] + s[1..] == s;
    }
  }

  /** A slash is sent as `%2F` and a space as `+`. */
  lemma LemmaSlashAndSpace()
    ensures QuotePlus("/") == "%2F"
    ensures QuotePlus(" ") == "+"
  {
    assert Encode("/") == ['/' as int as byte];
    assert Encode(" ") == [' ' as int as byte];
    assert QuoteBytes(['/' as int as byte]) == QuoteByte('/' as int as byte);
    assert QuoteBytes([' ' as int as byte]) == QuoteByte(' ' as int as byte);
  }

  // ---------------------------------------------------------------------------
  // File tools

  /** `/projects/{project_id}/repository/files/{quote_plus(file_path)}` */
  function FileUrl(api: string, projectId: string, filePath: string): string
  {
    api + "/projects/" + projectId + "/repository/files/" + QuotePlus(filePath)
  }

  /**
   * The file path is the URL's last segment, and the server reads it back
   * exactly as given.
   */
  lemma LemmaFileUrl(api: string, projectId: string, filePath: string)
    ensures var prefix := api + "/projects/" + projectId + "/repository/files/";
            var url := FileUrl(api, projectId, filePath);
            prefix <= url && UnquotePlus(url[|prefix|..]) == Some(filePath) && '/' !in url[|prefix|..]
  {
    var prefix := api + "/projects/" + projectId + "/repository/files/";
    LemmaQuotePlusRoundTrip(filePath);
    LemmaQuotePlusCharacters(filePath);
    assert (prefix + QuotePlus(filePath))[|prefix|..] == QuotePlus(filePath);
  }

  /** The field names the optional commit fields are added under. */
  const CommitFieldNames: set<string> := {"author_email", "author_name", "last_commit_id", "start_branch"}

  /** None of the optional commit field names is one of the fields always sent. */
  lemma LemmaCommitFieldNames()
    ensures CommitFieldNames !! {"branch", "commit_message", "content", "encoding", "execute_filemode"}
  {
  }

  /**
   * The optional commit fields of the create, update and delete bodies:
   * each is added to `data` only when truthy, and `data` is otherwise kept.
   */
  method AddCommitFields(data: map<string, Value>, authorEmail: Option<string>, authorName: Option<string>,
                         lastCommitId: Option<string>, startBranch: Option<string>)
    returns (d: map<string, Value>)
    requires data.Keys !! CommitFieldNames
    ensures forall k :: k in data ==> k in d && d[k] == data[k]
    ensures "author_email" in d <==> Given(authorEmail)
    ensures "author_name" in d <==> Given(authorName)
    ensures "last_commit_id" in d <==> Given(lastCommitId)
    ensures "start_branch" in d <==> Given(startBranch)
    ensures Given(authorEmail) ==> d["author_email"] == Str(authorEmail.value)
    ensures Given(authorName) ==> d["author_name"] == Str(authorName.value)
    ensures Given(lastCommitId) ==> d["last_commit_id"] == Str(lastCommitId.value)
    ensures Given(startBranch) ==> d["start_branch"] == Str(startBranch.value)
    ensures d.Keys <= data.Keys + CommitFieldNames
  {
    d := data;
    if Given(authorEmail) {
      d := d["author_email" := Str(authorEmail.value)];
    }
    if Given(authorName) {
      d := d["author_name" := Str(authorName.value)];
    }
    if Given(lastCommitId) {
      d := d["last_commit_id" := Str(lastCommitId.value)];
    }
    if Given(startBranch) {
      d := d["start_branch" := Str(startBranch.value)];
    }
  }

  /** The five fields create and update always send. */
  function ContentFields(branch: string, commitMessage: string, content: string, encoding: Value,
                         executeFilemode: Value): (data: map<string, Value>)
    ensures data.Keys == {"branch", "commit_message", "content", "encoding", "execute_filemode"}
    ensures data["branch"] == Str(branch) && data["commit_message"] == Str(commitMessage)
    ensures data["content"] == Str(content) && data["encoding"] == encoding
    ensures data["execute_filemode"] == executeFilemode
  {
    map["branch" := Str(branch), "commit_message" := Str(commitMessage), "content" := Str(content),
        "encoding" := encoding, "execute_filemode" := executeFilemode]
  }

  /**
   * `create_gitlab_file`: POST with a JSON body that always holds branch,
   * commit message, content, encoding and file mode (defaults "text" and
   * False, sent as passed, None included), and the author and start-branch
   * fields when truthy.
   */
  method CreateFile(api: string, token: string, projectId: string, filePath: string, branch: string, content: string,
                    commitMessage: string, authorEmail: Option<string>, authorName: Option<string>, encoding: Value,
                    executeFilemode: Value, startBranch: Option<string>, o: Outcome)
    returns (x: Exchange)
    ensures x.Remote? && x.request.verb == Post && x.request.url == FileUrl(api, projectId, filePath)
    ensures x.request.headers == AlwaysToken(JsonContent, token) && x.request.params == map[]
    ensures var b := x.request.body;
            forall k :: k in ContentFields(branch, commitMessage, content, encoding, executeFilemode) ==>
              k in b && b[k] == ContentFields(branch, commitMessage, content, encoding, executeFilemode)[k]
    ensures "author_email" in x.request.body <==> Given(authorEmail)
    ensures "author_name" in x.request.body <==> Given(authorName)
    ensures "start_branch" in x.request.body <==> Given(startBranch)
    ensures "last_commit_id" !in x.request.body
    ensures Given(authorEmail) ==> x.request.body["author_email"] == Str(authorEmail.value)
    ensures Given(authorName) ==> x.request.body["author_name"] == Str(authorName.value)
    ensures Given(startBranch) ==> x.request.body["start_branch"] == Str(startBranch.value)
    ensures x.request.body.Keys <= {"branch", "commit_message", "content", "encoding", "execute_filemode",
                                    "author_email", "author_name", "start_branch"}
    ensures x.result == Standard(o)
  {
    var data := ContentFields(branch, commitMessage, content, encoding, executeFilemode);
    LemmaCommitFieldNames();
    data := AddCommitFields(data, authorEmail, authorName, None, startBranch);
    x := Remote(Request(Post, FileUrl(api, projectId, filePath), AlwaysToken(JsonContent, token), map[], data),
                Standard(o));
  }

  /**
   * `update_gitlab_file`: PUT with the body of create, plus
   * `last_commit_id` when truthy.
   */
  method UpdateFile(api: string, token: string, projectId: string, filePath: string, branch: string, content: string,
                    commitMessage: string, authorEmail: Option<string>, authorName: Option<string>, encoding: Value,
                    executeFilemode: Value, lastCommitId: Option<string>, startBranch: Option<string>, o: Outcome)
    returns (x: Exchange)
    ensures x.Remote? && x.request.verb == Put && x.request.url == FileUrl(api, projectId, filePath)
    ensures x.request.headers == AlwaysToken(JsonContent, token) && x.request.params == map[]
    ensures var b := x.request.body;
            forall k :: k in ContentFields(branch, commitMessage, content, encoding, executeFilemode) ==>
              k in b && b[k] == ContentFields(branch, commitMessage, content, encoding, executeFilemode)[k]
    ensures "author_email" in x.request.body <==> Given(authorEmail)
    ensures "author_name" in x.request.body <==> Given(authorName)
    ensures "last_commit_id" in x.request.body <==> Given(lastCommitId)
    ensures "start_branch" in x.request.body <==> Given(startBranch)
    ensures Given(authorEmail) ==> x.request.body["author_email"] == Str(authorEmail.value)
    ensures Given(authorName) ==> x.request.body["author_name"] == Str(authorName.value)
    ensures Given(lastCommitId) ==> x.request.body["last_commit_id"] == Str(lastCommitId.value)
    ensures Given(startBranch) ==> x.request.body["start_branch"] == Str(startBranch.value)
    ensures x.request.body.Keys <= {"branch", "commit_message", "content", "encoding", "execute_filemode",
                                    "author_email", "author_name", "last_commit_id", "start_branch"}
    ensures x.result == Standard(o)
  {
    var data := ContentFields(branch, commitMessage, content, encoding, executeFilemode);
    LemmaCommitFieldNames();
    data := AddCommitFields(data, authorEmail, authorName, lastCommitId, startBranch);
    x := Remote(Request(Put, FileUrl(api, projectId, filePath), AlwaysToken(JsonContent, token), map[], data),
                Standard(o));
  }

  /** The two fields delete always sends. */
  function DeleteFields(branch: string, commitMessage: string): (data: map<string, Value>)
    ensures data.Keys == {"branch", "commit_message"}
    ensures data["branch"] == Str(branch) && data["commit_message"] == Str(commitMessage)
  {
    map["branch" := Str(branch), "commit_message" := Str(commitMessage)]
  }

  const FileDeleted: map<string, Value> :=
    map["status" := Str("success"), "message" := Str("File deleted successfully (No Content returned)")]

  /** The answer of `delete_gitlab_file`: 204 is answered without reading the body. */
  function DeleteFileResult(o: Outcome): Value
  {
    if Fails(o) then Failure(o)
    else if o.response.status == 204 then Dict(FileDeleted)
    else Body(o.response)
  }

  /**
   * A 204 gives the success dictionary whatever its body, which reads as no
   * error; any other success is the decoded body, as for every other tool.
   */
  lemma LemmaDeleteFileResult(o: Outcome)
    ensures o.Received? && o.response.status == 204 ==>
              DeleteFileResult(o) == Dict(FileDeleted) && ReadError(DeleteFileResult(o)) == None
    ensures o.Received? && o.response.status == 204 && o.response.json.Unparsable? ==> Standard(o) != DeleteFileResult(o)
    ensures !(o.Received? && o.response.status == 204) ==> DeleteFileResult(o) == Standard(o)
  {
    if o.Received? && o.response.status == 204 {
      assert !Fails(o);
      assert "error" !in FileDeleted;
      if o.response.json.Unparsable? {
        assert Standard(o) == NetworkError(o.response.json.message);
      }
    }
  }

  /**
   * `delete_gitlab_file`: DELETE with a JSON body holding the branch and
   * the commit message, and the optional commit fields when truthy.
   */
  method DeleteFile(api: string, token: string, projectId: string, filePath: string, branch: string,
                    commitMessage: string, authorEmail: Option<string>, authorName: Option<string>,
                    lastCommitId: Option<string>, startBranch: Option<string>, o: Outcome)
    returns (x: Exchange)
    ensures x.Remote? && x.request.verb == Delete && x.request.url == FileUrl(api, projectId, filePath)
    ensures x.request.headers == AlwaysToken(JsonContent, token) && x.request.params == map[]
    ensures var b := x.request.body;
            "branch" in b && b["branch"] == Str(branch) && "commit_message" in b && b["commit_message"] == Str(commitMessage)
    ensures "author_email" in x.request.body <==> Given(authorEmail)
    ensures "author_name" in x.request.body <==> Given(authorName)
    ensures "last_commit_id" in x.request.body <==> Given(lastCommitId)
    ensures "start_branch" in x.request.body <==> Given(startBranch)
    ensures Given(authorEmail) ==> x.request.body["author_email"] == Str(authorEmail.value)
    ensures Given(authorName) ==> x.request.body["author_name"] == Str(authorName.value)
    ensures Given(lastCommitId) ==> x.request.body["last_commit_id"] == Str(lastCommitId.value)
    ensures Given(startBranch) ==> x.request.body["start_branch"] == Str(startBranch.value)
    ensures x.request.body.Keys <= {"branch", "commit_message", "author_email", "author_name", "last_commit_id",
                                    "start_branch"}
    ensures x.result == DeleteFileResult(o)
  {
    var data := DeleteFields(branch, commitMessage);
    LemmaCommitFieldNames();
    data := AddCommitFields(data, authorEmail, authorName, lastCommitId, startBranch);
    x := Remote(Request(Delete, FileUrl(api, projectId, filePath), AlwaysToken(JsonContent, token), map[], data),
                DeleteFileResult(o));
  }

  /** `get_raw_gitlab_file`: the query is exactly `ref` and `lfs`; the answer is the body text. */
  method GetRawFile(api: string, token: string, projectId: string, filePath: string, ref: string, lfs: bool,
                    o: Outcome)
    returns (x: Exchange)
    ensures x.Remote? && x.request.verb == Get && x.request.url == FileUrl(api, projectId, filePath) + "/raw"
    ensures x.request.headers == AlwaysToken(map[], token) && x.request.body == map[]
    ensures x.request.params == map["ref" := Str(ref), "lfs" := Bool(lfs)]
    ensures x.request.params.Keys == {"ref", "lfs"}
    ensures x.result == TextResult(o)
  {
    x := Remote(Request(Get, FileUrl(api, projectId, filePath) + "/raw", AlwaysToken(map[], token),
                        map["ref" := Str(ref), "lfs" := Bool(lfs)], map[]), TextResult(o));
  }

  /** `get_gitlab_file_metadata_and_content` */
  method GetFileMetadata(api: string, token: string, projectId: string, filePath: string, ref: string, o: Outcome)
    returns (x: Exchange)
    ensures x.Remote? && x.request.verb == Get && x.request.url == FileUrl(api, projectId, filePath)
    ensures x.request.headers == AlwaysToken(map[], token) && x.request.body == map[]
    ensures x.request.params.Keys == {"ref"} && x.request.params["ref"] == Str(ref)
    ensures x.result == Standard(o)
  {
    x := Remote(Request(Get, FileUrl(api, projectId, filePath), AlwaysToken(map[], token), map["ref" := Str(ref)],
                        map[]), Standard(o));
  }

  /**
   * `get_gitlab_file_blame`: `ref` always; the range start, end and hash
   * under `range[start]`, `range[end]` and `range`, each when not None
   * (an empty hash is still sent).
   */
  method GetFileBlame(api: string, token: string, projectId: string, filePath: string, ref: string,
                      rangeStart: Option<int>, rangeEnd: Option<int>, rangeHash: Option<string>, o: Outcome)
    returns (x: Exchange)
    ensures x.Remote? && x.request.verb == Get && x.request.url == FileUrl(api, projectId, filePath) + "/blame"
    ensures x.request.headers == AlwaysToken(map[], token) && x.request.body == map[]
    ensures "ref" in x.request.params && x.request.params["ref"] == Str(ref)
    ensures "range[start]" in x.request.params <==> rangeStart.Some?
    ensures "range[end]" in x.request.params <==> rangeEnd.Some?
    ensures "range" in x.request.params <==> rangeHash.Some?
    ensures rangeStart.Some? ==> x.request.params["range[start]"] == Int(rangeStart.value)
    ensures rangeEnd.Some? ==> x.request.params["range[end]"] == Int(rangeEnd.value)
    ensures rangeHash.Some? ==> x.request.params["range"] == Str(rangeHash.value)
    ensures x.request.params.Keys <= {"ref", "range[start]", "range[end]", "range"}
    ensures x.result == Standard(o)
  {
    var params := map["ref" := Str(ref)];
    if rangeStart.Some? {
      params := params["range[start]" := Int(rangeStart.value)];
    }
    if rangeEnd.Some? {
      params := params["range[end]" := Int(rangeEnd.value)];
    }
    if rangeHash.Some? {
      params := params["range" := Str(rangeHash.value)];
    }
    x := Remote(Request(Get, FileUrl(api, projectId, filePath) + "/blame", AlwaysToken(map[], token), params, map[]),
                Standard(o));
  }
}
