/** The request layer of the client (src/services/api.ts): the global token
    slot, the composition of every request's headers, the fixed-order
    handling of a response, the authentication calls and their effect on the
    token, and the endpoints of the polls API.

    The network is an input: a request is answered by a `Reply` record, and
    the model computes what the client does with it. */
module Api {
  import opened Common

  // ---------------------------------------------------------------------
  // Records exchanged with the server

  datatype Visibility = Public | Private

  datatype User = User(id: string, username: string, email: string)

  /** Login and registration credentials; `email` is sent only on registration. */
  datatype AuthData = AuthData(username: string, password: string, email: Option<string>)

  /** The body of a successful login or registration. A field the server left
      out is `None`. */
  datatype AuthResponse = AuthResponse(token: Option<string>, user: Option<User>)

  /** The body of a poll creation request. */
  datatype PollData = PollData(question: string, options: seq<string>, visibility: Visibility)

  datatype PollOption = PollOption(id: string, text: string, voteCount: nat)

  /** A poll as the server returns it; an absent `hasVoted` reads as false. */
  datatype Poll = Poll(id: string, question: string, options: seq<PollOption>,
                       visibility: Visibility, shareLink: Option<string>, createdAt: string,
                       hasVoted: bool, userVoteOptionId: Option<string>)

  /** What a request carries as its JSON body. */
  datatype RequestBody = NoBody | Credentials(auth: AuthData) | NewPoll(poll: PollData) | Ballot(optionId: string)

  // ---------------------------------------------------------------------
  // The API's base address

  const DefaultBaseUrl := "https://poll-api-7doi.onrender.com/api"

  /** The configured address when one is set and non-empty, else the default. */
  function BaseUrl(configured: Option<string>): (url: string)
    ensures url != ""
    ensures Truthy(configured) ==> url == configured.value
    ensures !Truthy(configured) ==> url == DefaultBaseUrl
  {
    if Truthy(configured) then configured.value else DefaultBaseUrl
  }

  // ---------------------------------------------------------------------
  // The token slot

  /** The single persisted slot that holds the bearer token. */
  class TokenStore {
    var token: Option<string>

    /** The slot as it was persisted before the page loaded. */
    constructor(persisted: Option<string>)
      ensures token == persisted
    {
      token := persisted;
    }

    method GetToken() returns (t: Option<string>)
      ensures t == token
    {
      t := token;
    }

    method SetToken(t: string)
      modifies this
      ensures token == Some(t)
    {
      token := Some(t);
    }

    method RemoveToken()
      modifies this
      ensures token == None
    {
      token := None;
    }

    /** `!!getItem(...)`: an empty stored token does not count. */
    method IsAuthenticated() returns (b: bool)
      ensures b <==> token.Some? && token.value != ""
    {
      var t := GetToken();
      b := Truthy(t);
    }
  }

  // ---------------------------------------------------------------------
  // Headers and the request configuration

  type Headers = map<string, string>

  const ContentTypeHeader := "Content-Type"
  const AuthorizationHeader := "Authorization"
  const JsonMime := "application/json"

  /** The header object built from the token: the JSON content type, the
      bearer token when the token is truthy, then the caller's headers, each
      spread over the previous ones. */
  function ComposedHeaders(token: Option<string>, extra: Option<Headers>): Headers {
    var base := map[ContentTypeHeader := JsonMime];
    var withAuth := if Truthy(token) then base[AuthorizationHeader := "Bearer " + token.value] else base;
    if extra.Some? then withAuth + extra.value else withAuth
  }

  /** The options a caller passes; `headers` is `None` when the caller did
      not set that property. `httpMethod` is `None` for fetch's default, GET. */
  datatype RequestOptions = RequestOptions(httpMethod: Option<string>, body: RequestBody, headers: Option<Headers>)

  /** What is handed to `fetch`: the address and the request's options. */
  datatype RequestConfig = RequestConfig(url: string, httpMethod: string, body: RequestBody, headers: Headers)

  /** The address is the base address followed by the endpoint. The options
      are `{ headers: composed, ...options }`: the caller's options are spread
      last, so a caller that sets `headers` replaces the composed object.
      `apiUrl` is the build's `VITE_API_URL`. */
  function Configure(apiUrl: Option<string>, endpoint: string, token: Option<string>, options: RequestOptions): RequestConfig {
    var composed := ComposedHeaders(token, options.headers);
    RequestConfig(BaseUrl(apiUrl) + endpoint, options.httpMethod.GetOr("GET"), options.body,
                  if options.headers.Some? then options.headers.value else composed)
  }

  /** The request goes to the endpoint under the base address. Without caller
      headers it is JSON and carries the bearer token exactly when the token
      is truthy; with caller headers, those headers are sent as they are and
      nothing is added. */
  lemma ConfigureHeaders(apiUrl: Option<string>, endpoint: string, token: Option<string>, options: RequestOptions)
    ensures var url := Configure(apiUrl, endpoint, token, options).url;
      |url| > |endpoint| && url[..|url| - |endpoint|] == BaseUrl(apiUrl) && url[|url| - |endpoint|..] == endpoint
    ensures var h := Configure(apiUrl, endpoint, token, options).headers;
      && (options.headers.None? ==>
            && ContentTypeHeader in h && h[ContentTypeHeader] == JsonMime
            && (AuthorizationHeader in h <==> Truthy(token))
            && (Truthy(token) ==> h[AuthorizationHeader] == "Bearer " + token.value)
            && h.Keys <= {ContentTypeHeader, AuthorizationHeader})
      && (options.headers.Some? ==> h == options.headers.value)
  {
    assert ContentTypeHeader != AuthorizationHeader by {
      assert ContentTypeHeader[0] != AuthorizationHeader[0];
    }
  }

  // ---------------------------------------------------------------------
  // Responses

  /** What `response.json().catch(() => ({}))` gives for an error response:
      a body that does not parse (which becomes `{}`), the JSON value `null`,
      or another JSON value with its `message` property, `None` when it has
      none (a number, a string, an array, an object without the field). */
  datatype ErrorBody = Unparsable | JsonNull | JsonValue(message: Option<string>)

  /** A received HTTP response. `json` is what parsing the body as JSON
      yields, `errorBody` what the error branch makes of it. */
  datatype Response<T> = Response(status: nat, ok: bool, statusText: string,
                                  contentType: Option<string>, json: Result<T>,
                                  text: string, errorBody: ErrorBody)

  /** The outcome of `fetch`: no response at all, or a response. */
  datatype Reply<T> = Unreachable(failure: string) | Received(response: Response<T>)

  /** What a successful request resolves to. */
  datatype Payload<T> = JsonBody(value: T) | TextBody(text: string)

  const AuthRequiredMessage := "Authentication required"

  /** That text contains neither a digit 4 nor a capital I, so it names no
      4xx status and no "Invalid credentials". */
  lemma AuthRequiredMessageNamesNoStatus()
    ensures '4' !in AuthRequiredMessage && 'I' !in AuthRequiredMessage
  {
  }

  /** The message of a failed non-401 request: the server's message when it
      is non-empty, else `HTTP <status>: <statusText>`. */
  function HttpErrorMessage(status: nat, statusText: string, serverMessage: Option<string>): string {
    if Truthy(serverMessage) then serverMessage.value
    else "HTTP " + NatToString(status) + ": " + statusText
  }

  /** What reading `message` of a JSON `null` throws, in the wording of the
      V8 engine. */
  const NullErrorBodyMessage := "Cannot read " + "properties " + "of null " + "(reading " + "'message')"

  /** That text contains no digit 4, so it names no 4xx status. */
  lemma NullErrorBodyMessageNamesNoStatus()
    ensures '4' !in NullErrorBodyMessage
  {
    assert '4' !in "Cannot read " && '4' !in "properties " && '4' !in "of null ";
    assert '4' !in "(reading " && '4' !in "'message')";
  }

  /** The message of a failed non-401 request, from its error body: reading
      the message of `null` throws; otherwise the message is taken when it
      is non-empty, else the status-derived one. */
  function ErrorBodyMessage(status: nat, statusText: string, body: ErrorBody): string {
    match body
    case Unparsable => HttpErrorMessage(status, statusText, None)
    case JsonNull => NullErrorBodyMessage
    case JsonValue(m) => HttpErrorMessage(status, statusText, m)
  }

  /** The fallback message names the status in decimal. */
  lemma HttpErrorMessageNamesStatus(status: nat, statusText: string)
    ensures Includes(HttpErrorMessage(status, statusText, None), NatToString(status))
  {
    IncludesInfix("HTTP ", NatToString(status), ": " + statusText);
    assert "HTTP " + NatToString(status) + ": " + statusText
        == "HTTP " + NatToString(status) + (": " + statusText);
  }

  /** The response's content type declares JSON. */
  predicate DeclaresJson<T>(r: Response<T>) {
    Truthy(r.contentType) && Includes(r.contentType.value, JsonMime)
  }

  /** The request got a 401 answer, which clears the token and redirects. */
  predicate Unauthorized<T>(reply: Reply<T>) {
    reply.Received? && reply.response.status == 401
  }

  /** How `apiRequest` settles, checked in this order: a transport failure
      propagates; 401 fails with the fixed message; any other non-OK status
      fails with the server's or the generic message; otherwise the body is
      parsed as JSON when declared so, else returned as text. */
  function Settle<T>(reply: Reply<T>): Result<Payload<T>> {
    match reply
    case Unreachable(failure) => Err(failure)
    case Received(r) =>
      if r.status == 401 then Err(AuthRequiredMessage)
      else if !r.ok then Err(ErrorBodyMessage(r.status, r.statusText, r.errorBody))
      else if DeclaresJson(r) then
        (match r.json
         case Ok(v) => Ok(JsonBody(v))
         case Err(m) => Err(m))
      else Ok(TextBody(r.text))
  }

  /** A request succeeds exactly when a response arrived with an OK status
      other than 401 and, if it declares JSON, its body parses; the payload is
      JSON exactly when declared so. A 401 always fails the same way. Any
      other non-OK status fails with the server's message, or the
      status-derived one when there is none, except that an error body of
      `null` fails with the error reading it throws. */
  lemma SettleCases<T>(reply: Reply<T>)
    ensures Settle(reply).Ok? <==>
      && reply.Received? && reply.response.status != 401 && reply.response.ok
      && (DeclaresJson(reply.response) ==> reply.response.json.Ok?)
    ensures Settle(reply).Ok? ==> (Settle(reply).value.JsonBody? <==> DeclaresJson(reply.response))
    ensures Settle(reply).Ok? && Settle(reply).value.JsonBody? ==>
      Settle(reply).value.value == reply.response.json.value
    ensures Settle(reply).Ok? && Settle(reply).value.TextBody? ==>
      Settle(reply).value.text == reply.response.text
    ensures Unauthorized(reply) ==> Settle(reply) == Err(AuthRequiredMessage)
    ensures reply.Received? && reply.response.status != 401 && !reply.response.ok ==>
      Settle(reply) == Err(ErrorBodyMessage(reply.response.status, reply.response.statusText,
                                            reply.response.errorBody))
    ensures reply.Received? && reply.response.status != 401 && !reply.response.ok ==>
      && (reply.response.errorBody.JsonNull? ==> Settle(reply) == Err(NullErrorBodyMessage))
      && (reply.response.errorBody.Unparsable? || reply.response.errorBody == JsonValue(None) ==>
            Settle(reply) == Err(HttpErrorMessage(reply.response.status, reply.response.statusText, None)))
      && (reply.response.errorBody.JsonValue? && Truthy(reply.response.errorBody.message) ==>
            Settle(reply) == Err(reply.response.errorBody.message.value))
  {
  }

  /** `apiRequest`: builds the configuration from the token as it is when the
      call starts, then settles the reply. On 401 the token is removed and the
      page is sent to the login screen; nothing else touches the token. */
  method Request<T>(store: TokenStore, apiUrl: Option<string>, endpoint: string, options: RequestOptions, reply: Reply<T>)
    returns (config: RequestConfig, result: Result<Payload<T>>, redirect: Option<string>)
    modifies store
    ensures config == Configure(apiUrl, endpoint, old(store.token), options)
    ensures result == Settle(reply)
    ensures redirect == (if Unauthorized(reply) then Some(LoginRoute) else None)
    ensures store.token == (if Unauthorized(reply) then None else old(store.token))
  {
    var token := store.GetToken();
    config := Configure(apiUrl, endpoint, token, options);
    redirect := None;
    match reply {
      case Unreachable(failure) =>
        result := Err(failure);
      case Received(r) =>
        if r.status == 401 {
          store.RemoveToken();
          redirect := Some(LoginRoute);
          result := Err(AuthRequiredMessage);
        } else if !r.ok {
          result := Err(ErrorBodyMessage(r.status, r.statusText, r.errorBody));
        } else if DeclaresJson(r) {
          match r.json {
            case Ok(v) => result := Ok(JsonBody(v));
            case Err(m) => result := Err(m);
          }
        } else {
          result := Ok(TextBody(r.text));
        }
    }
  }

  // ---------------------------------------------------------------------
  // authAPI

  const LoginEndpoint := "/auth/login"
  const RegisterEndpoint := "/auth/register"

  /** The string `setToken(response.token)` persists: the token, or the text
      "undefined" when the payload carries none (storage stringifies it). */
  function StoredToken(p: Payload<AuthResponse>): (t: string)
    ensures p.JsonBody? && p.value.token.Some? ==> t == p.value.token.value
    ensures p.TextBody? || p.value.token.None? ==> t == "undefined"
  {
    match p
    case JsonBody(r) => r.token.GetOr("undefined")
    case TextBody(_) => "undefined"
  }

  /** The shared body of `login` and `register`: POST the credentials and
      store the token only once the request has succeeded. A 401 sends the
      page to the login screen, as every request does. */
  method Authenticate(store: TokenStore, apiUrl: Option<string>, endpoint: string, data: AuthData, reply: Reply<AuthResponse>)
    returns (config: RequestConfig, result: Result<Payload<AuthResponse>>, redirect: Option<string>)
    modifies store
    ensures config == Configure(apiUrl, endpoint, old(store.token), RequestOptions(Some("POST"), Credentials(data), None))
    ensures result == Settle(reply)
    ensures result.Ok? ==> store.token == Some(StoredToken(result.value))
    ensures result.Err? ==> store.token == (if Unauthorized(reply) then None else old(store.token))
    ensures redirect == (if Unauthorized(reply) then Some(LoginRoute) else None)
  {
    config, result, redirect := Request(store, apiUrl, endpoint, RequestOptions(Some("POST"), Credentials(data), None), reply);
    if result.Ok? {
      store.SetToken(StoredToken(result.value));
    }
  }

  method Login(store: TokenStore, apiUrl: Option<string>, credentials: AuthData, reply: Reply<AuthResponse>)
    returns (config: RequestConfig, result: Result<Payload<AuthResponse>>, redirect: Option<string>)
    modifies store
    ensures config.url == BaseUrl(apiUrl) + LoginEndpoint && config.httpMethod == "POST" && config.body == Credentials(credentials)
    ensures result == Settle(reply)
    ensures result.Ok? ==> store.token == Some(StoredToken(result.value))
    ensures result.Err? ==> store.token == (if Unauthorized(reply) then None else old(store.token))
    ensures redirect == (if Unauthorized(reply) then Some(LoginRoute) else None)
  {
    config, result, redirect := Authenticate(store, apiUrl, LoginEndpoint, credentials, reply);
  }

  method Register(store: TokenStore, apiUrl: Option<string>, userData: AuthData, reply: Reply<AuthResponse>)
    returns (config: RequestConfig, result: Result<Payload<AuthResponse>>, redirect: Option<string>)
    modifies store
    ensures config.url == BaseUrl(apiUrl) + RegisterEndpoint && config.httpMethod == "POST" && config.body == Credentials(userData)
    ensures result == Settle(reply)
    ensures result.Ok? ==> store.token == Some(StoredToken(result.value))
    ensures result.Err? ==> store.token == (if Unauthorized(reply) then None else old(store.token))
    ensures redirect == (if Unauthorized(reply) then Some(LoginRoute) else None)
  {
    config, result, redirect := Authenticate(store, apiUrl, RegisterEndpoint, userData, reply);
  }

  method Logout(store: TokenStore)
    modifies store
    ensures store.token == None
  {
    store.RemoveToken();
  }

  // ---------------------------------------------------------------------
  // pollsAPI

  /** The calls the polls API offers. */
  datatype PollsCall =
    | GetPolls
    | GetPoll(id: string)
    | GetPollByShareLink(shareLink: string)
    | CreatePoll(data: PollData)
    | DeletePoll(id: string)
    | CastVote(id: string, optionId: string)
    | GetResults(id: string)

  /** The endpoint and options each call sends. */
  function Route(call: PollsCall): (route: (string, RequestOptions)) {
    match call
    case GetPolls => ("/polls", RequestOptions(None, NoBody, None))
    case GetPoll(id) => ("/polls/" + id, RequestOptions(None, NoBody, None))
    case GetPollByShareLink(link) => ("/polls/share/" + link, RequestOptions(None, NoBody, None))
    case CreatePoll(data) => ("/polls", RequestOptions(Some("POST"), NewPoll(data), None))
    case DeletePoll(id) => ("/polls/" + id, RequestOptions(Some("DELETE"), NoBody, None))
    case CastVote(id, optionId) => ("/polls/" + id + "/vote", RequestOptions(Some("POST"), Ballot(optionId), None))
    case GetResults(id) => ("/polls/" + id + "/results", RequestOptions(None, NoBody, None))
  }

  /** Whether a call only reads. */
  predicate IsRead(call: PollsCall) {
    call.GetPolls? || call.GetPoll? || call.GetPollByShareLink? || call.GetResults?
  }

  /** Every call goes under `/polls`, names its poll right after `/polls/`,
      sends fetch's default GET exactly when it only reads, never sets its own
      headers (so the composed ones are sent), and carries a body exactly
      when it writes something other than a deletion. */
  lemma RouteShape(call: PollsCall)
    ensures var (path, opts) := Route(call);
      && |path| >= 6 && path[..6] == "/polls"
      && (call.GetPoll? || call.DeletePoll? || call.CastVote? || call.GetResults? ==>
            |path| >= 7 + |call.id| && path[..7 + |call.id|] == "/polls/" + call.id)
      && (opts.httpMethod.None? <==> IsRead(call))
      && opts.headers.None?
      && (opts.body.NoBody? <==> IsRead(call) || call.DeletePoll?)
  {
    var (path, opts) := Route(call);
    match call {
      case GetPolls =>
      case GetPoll(id) =>
        assert path[..7 + |id|] == "/polls/" + id;
      case GetPollByShareLink(link) =>
        assert path[..6] == "/polls";
      case CreatePoll(_) =>
      case DeletePoll(id) =>
        assert path[..7 + |id|] == "/polls/" + id;
      case CastVote(id, o) =>
        assert path == "/polls/" + id + ("/vote");
        assert path[..7 + |id|] == "/polls/" + id;
      case GetResults(id) =>
        assert path == "/polls/" + id + ("/results");
        assert path[..7 + |id|] == "/polls/" + id;
    }
  }
}
