/** The `exchange` command of the OIDC plugin: it turns an OIDC identity token into a
    JFrog access token with one OAuth 2.0 Token Exchange request (RFC 8693).

    Collaborators the command only calls through an interface are parameters here:
    the flag accessor is a map, the HTTP client is an `HttpClient` object whose
    answers are a function of the request, and Go's JSON encoder and decoder are
    the two functions of a `Json` value. */
module Exchange {
  import opened Wrappers
  import opened GoStrings

  type Bytes = seq<bv8>

  /** A Go `error`; the command passes every error on unchanged. */
  datatype Error = Error(message: string)

  /** Grant type of section 2.1 of RFC 8693. */
  const GrantTypeTokenExchange: string := "urn:ietf:params:oauth:grant-type:token-exchange"
  /** Token type identifier for an OpenID Connect ID token, section 3 of RFC 8693. */
  const TokenTypeIdToken: string := "urn:ietf:params:oauth:token-type:id_token"
  /** Path of the token-exchange endpoint under the server URL. */
  const TokenPath: string := "/access/api/v1/oidc/token"
  const JsonContentType: string := "application/json"

  /** The request body. `projectKey` is a nil-able pointer in the source, and the
      JSON field is omitted when it is nil. */
  datatype Payload = Payload(
    grantType: string,
    subjectTokenType: string,
    subjectToken: string,
    providerName: string,
    projectKey: Option<string>)

  /** The decoded response body. */
  datatype ExchangeResponse = ExchangeResponse(accessToken: string)

  /** Flag values by flag name; a flag that was not given reads as "". */
  type FlagContext = map<string, string>

  function GetStringFlagValue(c: FlagContext, name: string): (v: string)
    ensures name in c ==> v == c[name]
    ensures name !in c ==> v == ""
  {
    if name in c then c[name] else ""
  }

  // ---------------------------------------------------------------------------
  // Request body

  /** A body the command can build: the two RFC 8693 identifiers, and a project key
      that is either absent or non-empty. */
  predicate WellFormed(p: Payload) {
    && p.grantType == GrantTypeTokenExchange
    && p.subjectTokenType == TokenTypeIdToken
    && p.projectKey != Some("")
  }

  /** The `project` flag that a project key came from. */
  function ProjectFlag(key: Option<string>): string {
    key.GetOr("")
  }

  /** The body for a token, a provider and a project flag ("" for none). */
  function BuildPayload(token: string, provider: string, project: string): (p: Payload)
    ensures WellFormed(p)
    ensures p.subjectToken == token && p.providerName == provider
    ensures p.projectKey == None <==> project == ""
    ensures p.projectKey.Some? ==> p.projectKey.value == project
  {
    var data := Payload(GrantTypeTokenExchange, TokenTypeIdToken, token, provider, None);
    if project != "" then data.(projectKey := Some(project)) else data
  }

  /** Every well-formed body is built from exactly one choice of flag values:
      `BuildPayload` and the field selectors invert each other. */
  lemma PayloadRoundTrip(p: Payload)
    requires WellFormed(p)
    ensures BuildPayload(p.subjectToken, p.providerName, ProjectFlag(p.projectKey)) == p
  {
  }

  lemma BuildPayloadInjective(t1: string, v1: string, j1: string, t2: string, v2: string, j2: string)
    ensures BuildPayload(t1, v1, j1) == BuildPayload(t2, v2, j2) <==> (t1, v1, j1) == (t2, v2, j2)
  {
    var p1, p2 := BuildPayload(t1, v1, j1), BuildPayload(t2, v2, j2);
    if p1 == p2 {
      assert ProjectFlag(p1.projectKey) == j1;
      assert ProjectFlag(p2.projectKey) == j2;
    }
  }

  // ---------------------------------------------------------------------------
  // Endpoint URL

  /** The base URL: the server with at most one trailing "/" removed. */
  function BaseUrl(server: string): (base: string)
    ensures HasSuffix(server, "/") ==> base + "/" == server
    ensures !HasSuffix(server, "/") ==> base == server
  {
    CutSuffix(server, "/").0
  }

  /** The endpoint: the server without one trailing "/", then the fixed path. */
  function ExchangeUrl(server: string): (url: string)
    ensures HasSuffix(url, TokenPath)
    ensures HasSuffix(server, "/") ==> url == server[..|server| - 1] + TokenPath
    ensures !HasSuffix(server, "/") ==> url == server + TokenPath
  {
    var url := BaseUrl(server) + TokenPath;
    assert url[|url| - |TokenPath|..] == TokenPath;
    url
  }

  /** A server with and without one trailing "/" reach the same endpoint. */
  lemma TrailingSlashIrrelevant(s: string)
    requires !HasSuffix(s, "/")
    ensures ExchangeUrl(s + "/") == ExchangeUrl(s)
  {
    CutSuffixOfAppended(s, "/");
  }

  /** Only one "/" is removed: a server ending in "//" keeps one before the path. */
  lemma OnlyOneSlashRemoved(s: string)
    ensures ExchangeUrl(s + "//") == s + "/" + TokenPath
  {
    assert s + "//" == (s + "/") + "/";
    CutSuffixOfAppended(s + "/", "/");
  }

  /** The number of "/" characters that end `s`. */
  function TrailingSlashes(s: string): (n: nat)
    ensures n <= |s|
    ensures forall i :: |s| - n <= i < |s| ==> s[i] == '/'
    ensures n < |s| ==> s[|s| - n - 1] != '/'
  {
    if |s| > 0 && s[|s| - 1] == '/' then 1 + TrailingSlashes(s[..|s| - 1]) else 0
  }

  /** However many "/" end the server, the base URL keeps all of them but one, and
      everything before them unchanged. */
  lemma BaseUrlDropsOneSlash(server: string)
    ensures var n := TrailingSlashes(server);
            var kept := if n == 0 then 0 else n - 1;
            && TrailingSlashes(BaseUrl(server)) == kept
            && BaseUrl(server) == server[..|server| - n + kept]
  {
    var n := TrailingSlashes(server);
    if |server| > 0 && server[|server| - 1] == '/' {
      var t := server[..|server| - 1];
      assert server == t + "/";
      CutSuffixOfAppended(t, "/");
      assert BaseUrl(server) == t;
      assert n == 1 + TrailingSlashes(t);
    } else {
      assert n == 0;
      assert !HasSuffix(server, "/") by {
        if |server| > 0 {
          assert server[|server| - 1..][0] == server[|server| - 1];
        }
      }
      assert BaseUrl(server) == server;
      assert server[..|server|] == server;
    }
  }

  /** Two servers reach the same endpoint exactly when they are equal, or one is the
      other, which does not end in "/", followed by one "/". */
  lemma SameUrlIffSameServer(a: string, b: string)
    ensures ExchangeUrl(a) == ExchangeUrl(b) <==>
              || a == b
              || (a == b + "/" && !HasSuffix(b, "/"))
              || (b == a + "/" && !HasSuffix(a, "/"))
  {
    if ExchangeUrl(a) == ExchangeUrl(b) {
      var u := ExchangeUrl(a);
      assert BaseUrl(a) == u[..|u| - |TokenPath|];
      assert BaseUrl(b) == u[..|u| - |TokenPath|];
      if HasSuffix(a, "/") && HasSuffix(b, "/") {
        assert a == BaseUrl(a) + "/" && b == BaseUrl(b) + "/";
      }
    } else if a == b + "/" && !HasSuffix(b, "/") {
      TrailingSlashIrrelevant(b);
    } else if b == a + "/" && !HasSuffix(a, "/") {
      TrailingSlashIrrelevant(a);
    }
  }

  // ---------------------------------------------------------------------------
  // HTTP and JSON collaborators

  datatype Request = Request(url: string, contentType: string, body: Bytes)

  /** An HTTP response whose body has been read to its end: `body` is what the read
      produced, or the error it stopped with. */
  datatype Response = Response(statusCode: int, body: Result<Bytes, Error>)

  /** Go's `json.Marshal` on a payload and `json.Unmarshal` into an exchange response. */
  datatype Json = Json(
    marshal: Payload -> Result<Bytes, Error>,
    unmarshal: Bytes -> Result<ExchangeResponse, Error>)

  /** The injected HTTP client. What the network answers is a function of the request;
      `sent` records every request the client has been asked to send. */
  class HttpClient {
    const answer: Request -> Result<Response, Error>
    ghost var sent: seq<Request>

    constructor (answer: Request -> Result<Response, Error>)
      ensures this.answer == answer && sent == []
    {
      this.answer := answer;
      sent := [];
    }

    method Post(url: string, contentType: string, body: Bytes) returns (r: Result<Response, Error>)
      modifies this
      ensures sent == old(sent) + [Request(url, contentType, body)]
      ensures r == answer(Request(url, contentType, body))
    {
      sent := sent + [Request(url, contentType, body)];
      r := answer(Request(url, contentType, body));
    }
  }

  // ---------------------------------------------------------------------------
  // The command

  /** The body the command builds from its flags. */
  function RequestPayload(c: FlagContext): Payload {
    BuildPayload(GetStringFlagValue(c, "token"), GetStringFlagValue(c, "provider"), GetStringFlagValue(c, "project"))
  }

  /** The request the command sends, or the encoding error that stops it first. */
  function ExchangeRequest(c: FlagContext, json: Json): (r: Result<Request, Error>)
    ensures r.Success? ==> r.value.url == ExchangeUrl(GetStringFlagValue(c, "server"))
    ensures r.Success? ==> r.value.contentType == JsonContentType
    ensures json.marshal(RequestPayload(c)) == if r.Success? then Success(r.value.body) else Failure(r.error)
  {
    var data := RequestPayload(c);
    var url := ExchangeUrl(GetStringFlagValue(c, "server"));
    match json.marshal(data)
    case Failure(e) => Failure(e)
    case Success(encoded) => Success(Request(url, JsonContentType, encoded))
  }

  /** What the command returns once the POST has produced `posted`: the access token
      of the decoded body, or the first error among transport, read and decode. */
  function ReplyOutcome(posted: Result<Response, Error>, json: Json): (r: Result<string, Error>)
    ensures posted.Failure? ==> r == Failure(posted.error)
    ensures posted.Success? && posted.value.body.Failure? ==> r == Failure(posted.value.body.error)
    ensures posted.Success? && posted.value.body.Success? && json.unmarshal(posted.value.body.value).Failure?
            ==> r == Failure(json.unmarshal(posted.value.body.value).error)
    ensures posted.Success? && posted.value.body.Success? && json.unmarshal(posted.value.body.value).Success?
            ==> r == Success(json.unmarshal(posted.value.body.value).value.accessToken)
    ensures r.Success? ==> posted.Success? && posted.value.body.Success?
                           && json.unmarshal(posted.value.body.value) == Success(ExchangeResponse(r.value))
  {
    match posted
    case Failure(e) => Failure(e)
    case Success(resp) =>
      match resp.body
      case Failure(e) => Failure(e)
      case Success(bytes) =>
        match json.unmarshal(bytes)
        case Failure(e) => Failure(e)
        case Success(decoded) => Success(decoded.accessToken)
  }

  /** The whole exchange as a function of the flags, the codec and the network. A token
      is only ever the access token decoded from the network's reply to the one request
      built from the flags. */
  function ExchangeOutcome(c: FlagContext, json: Json, answer: Request -> Result<Response, Error>)
    : (r: Result<string, Error>)
    ensures r.Success? ==>
              && ExchangeRequest(c, json).Success?
              && var posted := answer(ExchangeRequest(c, json).value);
                 && posted.Success? && posted.value.body.Success?
                 && json.unmarshal(posted.value.body.value) == Success(ExchangeResponse(r.value))
    ensures ExchangeRequest(c, json).Failure? ==> r == Failure(json.marshal(RequestPayload(c)).error)
  {
    match ExchangeRequest(c, json)
    case Failure(e) => Failure(e)
    case Success(req) => ReplyOutcome(answer(req), json)
  }

  /** The command: build the body, POST it as JSON to the endpoint, read and decode the
      reply, and return its access token or the first error met. */
  method ExchangeCommand(c: FlagContext, client: HttpClient, json: Json) returns (r: Result<string, Error>)
    modifies client
    ensures r == ExchangeOutcome(c, json, client.answer)
    ensures ExchangeRequest(c, json).Failure? ==> client.sent == old(client.sent)
    ensures ExchangeRequest(c, json).Success? ==> client.sent == old(client.sent) + [ExchangeRequest(c, json).value]
  {
    var data := BuildPayload(GetStringFlagValue(c, "token"), GetStringFlagValue(c, "provider"),
                             GetStringFlagValue(c, "project"));
    var exchangeUrl := ExchangeUrl(GetStringFlagValue(c, "server"));

    var encoded := json.marshal(data);
    if encoded.Failure? {
      return Failure(encoded.error);
    }

    var resp := client.Post(exchangeUrl, JsonContentType, encoded.value);
    if resp.Failure? {
      return Failure(resp.error);
    }

    var buf := resp.value.body;
    if buf.Failure? {
      return Failure(buf.error);
    }

    var jsonResp := json.unmarshal(buf.value);
    if jsonResp.Failure? {
      return Failure(jsonResp.error);
    }

    return Success(jsonResp.value.accessToken);
  }

  // ---------------------------------------------------------------------------
  // Properties of the exchange

  /** The outcome step by step, from the flags: each of the four fallible steps passes its
      error on unchanged and stops the exchange, and a decoded reply yields its access token. */
  lemma ExchangeSteps(c: FlagContext, json: Json, answer: Request -> Result<Response, Error>)
    ensures var encoded := json.marshal(RequestPayload(c));
            encoded.Failure? ==> ExchangeOutcome(c, json, answer) == Failure(encoded.error)
    ensures var encoded := json.marshal(RequestPayload(c));
            encoded.Success? ==>
              var posted := answer(Request(ExchangeUrl(GetStringFlagValue(c, "server")), JsonContentType, encoded.value));
              && (posted.Failure? ==> ExchangeOutcome(c, json, answer) == Failure(posted.error))
              && (posted.Success? && posted.value.body.Failure? ==>
                    ExchangeOutcome(c, json, answer) == Failure(posted.value.body.error))
              && (posted.Success? && posted.value.body.Success? ==>
                    var decoded := json.unmarshal(posted.value.body.value);
                    && (decoded.Failure? ==> ExchangeOutcome(c, json, answer) == Failure(decoded.error))
                    && (decoded.Success? ==> ExchangeOutcome(c, json, answer) == Success(decoded.value.accessToken)))
  {
  }

  /** The reply is decoded whatever its status code: no status check comes first. */
  function WithStatus(answer: Request -> Result<Response, Error>, code: int): Request -> Result<Response, Error> {
    req => match answer(req)
           case Failure(e) => Failure(e)
           case Success(resp) => Success(resp.(statusCode := code))
  }

  lemma StatusCodeIgnored(c: FlagContext, json: Json, answer: Request -> Result<Response, Error>, code: int)
    ensures ExchangeOutcome(c, json, WithStatus(answer, code)) == ExchangeOutcome(c, json, answer)
  {
  }

  /** Giving the server with or without one trailing "/" changes nothing: same request,
      same outcome. */
  lemma TrailingSlashSameExchange(c: FlagContext, json: Json, answer: Request -> Result<Response, Error>, s: string)
    requires !HasSuffix(s, "/")
    ensures ExchangeRequest(c["server" := s + "/"], json) == ExchangeRequest(c["server" := s], json)
    ensures ExchangeOutcome(c["server" := s + "/"], json, answer) == ExchangeOutcome(c["server" := s], json, answer)
  {
    TrailingSlashIrrelevant(s);
  }

  /** The request body sent is the encoding of a well-formed payload that carries the token
      and provider flags unchanged, and a project key exactly when the project flag is
      non-empty, equal to that flag. */
  lemma RequestCarriesFlags(c: FlagContext, json: Json)
    requires ExchangeRequest(c, json).Success?
    ensures exists p: Payload ::
              && json.marshal(p) == Success(ExchangeRequest(c, json).value.body)
              && WellFormed(p)
              && p.subjectToken == GetStringFlagValue(c, "token")
              && p.providerName == GetStringFlagValue(c, "provider")
              && (p.projectKey == None <==> GetStringFlagValue(c, "project") == "")
              && (p.projectKey.Some? ==> p.projectKey.value == GetStringFlagValue(c, "project"))
  {
    var p := RequestPayload(c);
    assert json.marshal(p) == Success(ExchangeRequest(c, json).value.body);
  }

  // ---------------------------------------------------------------------------
  // The repository's test scenarios

  /** The tests' mock server: a 200 reply carrying `body` for the one expected request,
      and an error for any other call. */
  function MockAnswer(expected: Request, body: Bytes): Request -> Result<Response, Error> {
    req => if req == expected then Success(Response(200, Success(body))) else Failure(Error("unexpected call"))
  }

  /** The server of the repository's tests. */
  const TestServer: string := "https://test-server.local"

  /** Both spellings of the test server reach the endpoint the tests' mock expects. */
  lemma TestServerUrl(server: string)
    requires server == "https://test-server.local" || server == "https://test-server.local/"
    ensures ExchangeUrl(server) == "https://test-server.local/access/api/v1/oidc/token"
  {
    TestServerSpellings(server);
    TestEndpointSpelledOut();
  }

  lemma TestServerSpellings(server: string)
    requires server == TestServer || server == TestServer + "/"
    ensures ExchangeUrl(server) == TestServer + TokenPath
  {
    assert TestServer[|TestServer| - 1] == 'l';
    if server != TestServer {
      TrailingSlashIrrelevant(TestServer);
    }
  }

  lemma TestEndpointSpelledOut()
    ensures TestServer + TokenPath == "https://test-server.local/access/api/v1/oidc/token"
  {
  }

  /** The body the tests' mock expects, written out as the tests write it. */
  function TestPayload(project: string): Payload {
    Payload("urn:ietf:params:oauth:grant-type:token-exchange", "urn:ietf:params:oauth:token-type:id_token",
            "this.is.atest", "github", if project == "" then None else Some(project))
  }

  /** Token "this.is.atest" from provider "github" against the test server, given with or
      without its trailing "/", and with or without a project: the single request goes to
      the test server's endpoint with the JSON body, and the decoded token comes back. */
  method SimpleExchangeScenario(json: Json, server: string, project: string, replyBody: Bytes)
    returns (r: Result<string, Error>)
    requires server == "https://test-server.local" || server == "https://test-server.local/"
    requires json.marshal(TestPayload(project)).Success?
    requires json.unmarshal(replyBody) == Success(ExchangeResponse("this-is-an-access-token-from-a-test"))
    ensures r == Success("this-is-an-access-token-from-a-test")
  {
    var flags := map["token" := "this.is.atest", "provider" := "github", "project" := project, "server" := server];
    var body := json.marshal(TestPayload(project)).value;
    var expected := Request("https://test-server.local/access/api/v1/oidc/token", "application/json", body);
    assert GetStringFlagValue(flags, "token") == "this.is.atest";
    assert GetStringFlagValue(flags, "provider") == "github";
    assert GetStringFlagValue(flags, "project") == project;
    assert GetStringFlagValue(flags, "server") == server;
    TestServerUrl(server);
    assert RequestPayload(flags) == TestPayload(project);
    assert ExchangeRequest(flags, json) == Success(expected);
    var client := new HttpClient(MockAnswer(expected, replyBody));
    r := ExchangeCommand(flags, client, json);
    assert client.sent == [expected];
  }
}
