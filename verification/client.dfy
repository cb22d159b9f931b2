/** The scope-gated API client (src/lib.rs).

    A `Client` holds the handle of the underlying `json_api_client` and the scopes it was created
    with; no method changes either. Every endpoint but `get_dependency_identity` first checks that
    its scope is among them and fails with `ApiError(ScopeNotEnabled(scope))` before any request
    when it is not. A request is a GET of a path relative to the API's base URL with a bearer
    `Authorization` header.

    The network is a parameter: a `Transport` answers a request with a JSON body or a failure of
    the underlying client. Each endpoint returns its result together with the requests it made.
 */
module Client {
  import opened Wrappers
  import opened Json
  import opened Errors
  import Scopes
  import Responses

  // Construction

  /** How the OAuth2 client credentials are sent to the token endpoint. */
  datatype AuthType = BasicAuth | RequestBody

  /** The OAuth2 settings `Client::new` hands to `json_api_client`. */
  datatype OAuth2Config = OAuth2Config(
    clientId: string,
    clientSecret: string,
    authorizePath: string,
    authType: AuthType,
    tokenPath: string,
    refreshPath: string,
    redirectUrl: string,
    scopes: seq<string>
  )

  /** The underlying client: its base URL and OAuth2 settings. */
  datatype ApiClient = ApiClient(baseUrl: string, auth: OAuth2Config)

  datatype Client = Client(api: ApiClient, scopes: seq<Scopes.Scope>)

  /** `ApiClient::new`, which may refuse its arguments (a malformed base URL, say). */
  type Connect = (string, OAuth2Config) -> Result<ApiClient, ClientFailure>

  /** The OAuth2 scope strings: each scope's `Display`, in the order given. */
  function ScopeStrings(scopes: seq<Scopes.Scope>): (r: seq<string>)
    ensures |r| == |scopes|
  {
    seq(|scopes|, i requires 0 <= i < |scopes| => Scopes.Display(scopes[i]))
  }

  /** The negotiated scope strings name exactly the client's scopes, in order. */
  lemma ScopeStringsNameScopes(scopes: seq<Scopes.Scope>)
    ensures forall i :: 0 <= i < |scopes| ==> Scopes.DecodeScope(ScopeStrings(scopes)[i]) == Some(scopes[i])
    ensures forall i, j :: 0 <= i < |scopes| && 0 <= j < |scopes| ==>
      (ScopeStrings(scopes)[i] == ScopeStrings(scopes)[j] <==> scopes[i] == scopes[j])
  {
    forall i | 0 <= i < |scopes|
      ensures Scopes.DecodeScope(ScopeStrings(scopes)[i]) == Some(scopes[i])
    {
      Scopes.DisplayIsWireName(scopes[i]);
    }
    forall i, j | 0 <= i < |scopes| && 0 <= j < |scopes|
      ensures ScopeStrings(scopes)[i] == ScopeStrings(scopes)[j] <==> scopes[i] == scopes[j]
    {
      Scopes.DisplayInjective(scopes[i], scopes[j]);
    }
  }

  /** The configuration `Client::new` builds: fixed OAuth2 paths, credentials in the request
      body, and the scopes as strings. */
  function OAuthConfig(clientId: string, clientSecret: string, redirectUrl: string,
                       scopes: seq<Scopes.Scope>): (c: OAuth2Config)
    ensures c.authorizePath == "oauth/authorize"
    ensures c.tokenPath == "oauth/token"
    ensures c.refreshPath == "oauth/refresh"
    ensures c.authType == RequestBody
    ensures c.clientId == clientId && c.clientSecret == clientSecret && c.redirectUrl == redirectUrl
    ensures |c.scopes| == |scopes|
    ensures forall i :: 0 <= i < |scopes| ==> c.scopes[i] == Scopes.Display(scopes[i])
  {
    OAuth2Config(clientId, clientSecret, "oauth/authorize", RequestBody, "oauth/token",
                 "oauth/refresh", redirectUrl, ScopeStrings(scopes))
  }

  /** `Client::new`: a client over the connected API with exactly the given scopes, or the
      underlying client's error. */
  function New(apiUrl: string, clientId: string, clientSecret: string, redirectUrl: string,
               scopes: seq<Scopes.Scope>, connect: Connect): (r: Result<Client, Error>)
    ensures r.Success? <==> connect(apiUrl, OAuthConfig(clientId, clientSecret, redirectUrl, scopes)).Success?
    ensures r.Success? ==>
      && r.value.scopes == scopes
      && r.value.api == connect(apiUrl, OAuthConfig(clientId, clientSecret, redirectUrl, scopes)).value
    ensures r.Failure? ==>
      r.error == ClientError(connect(apiUrl, OAuthConfig(clientId, clientSecret, redirectUrl, scopes)).error)
  {
    match connect(apiUrl, OAuthConfig(clientId, clientSecret, redirectUrl, scopes))
    case Success(api) => Success(Client(api, scopes))
    case Failure(e) => Failure(ClientError(e))
  }

  // Requests

  /** An HTTP header. */
  datatype Header = Header(name: string, value: string)

  const BearerPrefix: string := "Bearer "

  /** `oauth_header`: the `Authorization` header with the bearer scheme of section 2.1 of
      RFC 6750. */
  function OAuthHeader(token: string): (h: Header)
    ensures h.name == "authorization"
    ensures |h.value| == |BearerPrefix| + |token|
    ensures h.value[..|BearerPrefix|] == BearerPrefix
  {
    Header("authorization", BearerPrefix + token)
  }

  /** The token a bearer `Authorization` header carries. */
  function BearerToken(h: Header): (t: Option<string>)
    ensures t.Some? ==> OAuthHeader(t.value) == h
  {
    if h.name == "authorization" && |h.value| >= |BearerPrefix| && h.value[..|BearerPrefix|] == BearerPrefix
    then
      assert h.value == BearerPrefix + h.value[|BearerPrefix|..];
      Some(h.value[|BearerPrefix|..])
    else None
  }

  /** The header carries the token unchanged, so different tokens give different headers. */
  lemma HeaderCarriesToken(token: string)
    ensures BearerToken(OAuthHeader(token)) == Some(token)
  {
    assert OAuthHeader(token).value[|BearerPrefix|..] == token;
  }

  /** A GET of a path relative to the base URL. */
  datatype Request = Get(path: string, header: Header)

  /** The network and `json_api_client`: a JSON body, or the underlying client's failure. */
  type Transport = Request -> Result<Json, ClientFailure>

  /** A result together with the requests made to produce it. */
  datatype Outcome<+T> = Outcome(result: Result<T, Error>, sent: seq<Request>)

  /** `Client::get`: one request with the bearer header; the body is deserialized into the
      response type. Every failure is a `ClientError`, and a transport failure is passed on
      unchanged. */
  function Fetch<T>(path: string, token: string, transport: Transport, decode: Json -> Option<T>): (o: Outcome<T>)
    ensures o.sent == [Get(path, OAuthHeader(token))]
    ensures o.result.Success? <==>
      transport(Get(path, OAuthHeader(token))).Success? && decode(transport(Get(path, OAuthHeader(token))).value).Some?
    ensures o.result.Success? ==> decode(transport(Get(path, OAuthHeader(token))).value) == Some(o.result.value)
    ensures o.result.Failure? ==> o.result.error.ClientError?
    ensures transport(Get(path, OAuthHeader(token))).Failure? ==>
      o.result == Failure(ClientError(transport(Get(path, OAuthHeader(token))).error))
  {
    var request := Get(path, OAuthHeader(token));
    var result :=
      match transport(request)
      case Failure(e) => Failure(ClientError(e))
      case Success(body) =>
        match decode(body)
        case None => Failure(ClientError(Undecodable(body)))
        case Some(x) => Success(x);
    Outcome(result, [request])
  }

  // Scope gating

  /** `ensure_scope`: success exactly when the scope was granted at construction. */
  function EnsureScope(c: Client, s: Scopes.Scope): (r: Result<(), Error>)
    ensures r.Success? <==> s in c.scopes
    ensures r.Failure? ==> r.error == ApiError(ScopeNotEnabled(s))
  {
    if s in c.scopes then Success(()) else Failure(ApiError(ScopeNotEnabled(s)))
  }

  /** A scope check followed by a request: a missing scope fails before anything is sent. */
  function Gated<T>(c: Client, s: Scopes.Scope, path: string, token: string, transport: Transport,
                    decode: Json -> Option<T>): (o: Outcome<T>)
    ensures s !in c.scopes ==> o == Outcome(Failure(ApiError(ScopeNotEnabled(s))), [])
    ensures s in c.scopes ==> o == Fetch(path, token, transport, decode)
  {
    match EnsureScope(c, s)
    case Failure(e) => Outcome(Failure(e), [])
    case Success(_) => Fetch(path, token, transport, decode)
  }

  /** `get_profile`: needs `Profile`, requests "me". */
  function GetProfile(c: Client, token: string, transport: Transport): (o: Outcome<Responses.ProfileResponse>)
    ensures Scopes.Profile !in c.scopes ==> o.result == Failure(ApiError(ScopeNotEnabled(Scopes.Profile))) && o.sent == []
    ensures Scopes.Profile in c.scopes ==> o.sent == [Get("me", OAuthHeader(token))]
    ensures o.result.Success? ==>
      transport(Get("me", OAuthHeader(token))).Success? &&
      Responses.DecodeProfileResponse(transport(Get("me", OAuthHeader(token))).value) == Some(o.result.value)
    ensures Scopes.Profile in c.scopes ==>
      (o.result.Success? <==> transport(Get("me", OAuthHeader(token))).Success? && Responses.DecodeProfileResponse(transport(Get("me", OAuthHeader(token))).value).Some?)
    ensures Scopes.Profile in c.scopes && o.result.Failure? ==> o.result.error.ClientError?
    ensures Scopes.Profile in c.scopes && transport(Get("me", OAuthHeader(token))).Failure? ==>
      o.result == Failure(ClientError(transport(Get("me", OAuthHeader(token))).error))
  {
    Gated(c, Scopes.Profile, "me", token, transport, Responses.DecodeProfileResponse)
  }

  /** With the profile scope granted, a server that answers "me" with a profile response gives
      back exactly that response. */
  lemma ProfileFromServedBody(c: Client, token: string, transport: Transport, x: Responses.ProfileResponse)
    requires Scopes.Profile in c.scopes
    requires transport(Get("me", OAuthHeader(token))) == Success(Responses.EncodeProfileResponse(x))
    ensures GetProfile(c, token, transport).result == Success(x)
    ensures GetProfile(c, token, transport).sent == [Get("me", OAuthHeader(token))]
  {
    Responses.ProfileResponseRoundTrip(x);
  }

  /** `get_accreditations`: needs `AccreditationStatus`, requests "accreditations". */
  function GetAccreditations(c: Client, token: string, transport: Transport): (o: Outcome<Responses.AccreditationsResponse>)
    ensures Scopes.AccreditationStatus !in c.scopes ==>
      o.result == Failure(ApiError(ScopeNotEnabled(Scopes.AccreditationStatus))) && o.sent == []
    ensures Scopes.AccreditationStatus in c.scopes ==> o.sent == [Get("accreditations", OAuthHeader(token))]
    ensures o.result.Success? ==>
      transport(Get("accreditations", OAuthHeader(token))).Success? &&
      Responses.DecodeAccreditationsResponse(transport(Get("accreditations", OAuthHeader(token))).value) == Some(o.result.value)
    ensures Scopes.AccreditationStatus in c.scopes ==>
      (o.result.Success? <==> transport(Get("accreditations", OAuthHeader(token))).Success? && Responses.DecodeAccreditationsResponse(transport(Get("accreditations", OAuthHeader(token))).value).Some?)
    ensures Scopes.AccreditationStatus in c.scopes && o.result.Failure? ==> o.result.error.ClientError?
    ensures Scopes.AccreditationStatus in c.scopes && transport(Get("accreditations", OAuthHeader(token))).Failure? ==>
      o.result == Failure(ClientError(transport(Get("accreditations", OAuthHeader(token))).error))
  {
    Gated(c, Scopes.AccreditationStatus, "accreditations", token, transport, Responses.DecodeAccreditationsResponse)
  }

  /** `get_identity`: needs `Identity`, requests "identity". */
  function GetIdentity(c: Client, token: string, transport: Transport): (o: Outcome<Responses.IdentityResponse>)
    ensures Scopes.Identity !in c.scopes ==> o.result == Failure(ApiError(ScopeNotEnabled(Scopes.Identity))) && o.sent == []
    ensures Scopes.Identity in c.scopes ==> o.sent == [Get("identity", OAuthHeader(token))]
    ensures o.result.Success? ==>
      transport(Get("identity", OAuthHeader(token))).Success? &&
      Responses.DecodeIdentityResponse(transport(Get("identity", OAuthHeader(token))).value) == Some(o.result.value)
    ensures Scopes.Identity in c.scopes ==>
      (o.result.Success? <==> transport(Get("identity", OAuthHeader(token))).Success? && Responses.DecodeIdentityResponse(transport(Get("identity", OAuthHeader(token))).value).Some?)
    ensures Scopes.Identity in c.scopes && o.result.Failure? ==> o.result.error.ClientError?
    ensures Scopes.Identity in c.scopes && transport(Get("identity", OAuthHeader(token))).Failure? ==>
      o.result == Failure(ClientError(transport(Get("identity", OAuthHeader(token))).error))
  {
    Gated(c, Scopes.Identity, "identity", token, transport, Responses.DecodeIdentityResponse)
  }

  /** A client created without the identity scope refuses `get_identity` with the message
      "Scope not enabled: 'identity'" and sends nothing. */
  lemma MissingIdentityScopeMessage(c: Client, token: string, transport: Transport)
    requires Scopes.Identity !in c.scopes
    ensures GetIdentity(c, token, transport).result.Failure?
    ensures Message(GetIdentity(c, token, transport).result.error) == Some("Scope not enabled: 'identity'")
    ensures GetIdentity(c, token, transport).sent == []
  {
    IdentityScopeMessage();
  }

  /** The path of a dependency's identity. */
  function DependencyPath(dependencyId: string): (p: string)
    ensures |p| == |"identity/"| + |dependencyId|
    ensures p[..|"identity/"|] == "identity/" && p[|"identity/"|..] == dependencyId
  {
    "identity/" + dependencyId
  }

  /** `get_dependency_identity`: no scope check; requests "identity/" followed by the id. */
  function GetDependencyIdentity(c: Client, dependencyId: string, token: string, transport: Transport):
    (o: Outcome<Responses.DependencyIdentityResponse>)
    ensures o.sent == [Get(DependencyPath(dependencyId), OAuthHeader(token))]
    ensures o.result.Failure? ==> o.result.error.ClientError?
    ensures o.result.Success? ==>
      transport(Get(DependencyPath(dependencyId), OAuthHeader(token))).Success? &&
      Responses.DecodeDependencyIdentityResponse(transport(Get(DependencyPath(dependencyId), OAuthHeader(token))).value)
        == Some(o.result.value)
    ensures o.result.Success? <==>
      transport(Get(DependencyPath(dependencyId), OAuthHeader(token))).Success? &&
      Responses.DecodeDependencyIdentityResponse(transport(Get(DependencyPath(dependencyId), OAuthHeader(token))).value).Some?
    ensures transport(Get(DependencyPath(dependencyId), OAuthHeader(token))).Failure? ==>
      o.result == Failure(ClientError(transport(Get(DependencyPath(dependencyId), OAuthHeader(token))).error))
  {
    Fetch(DependencyPath(dependencyId), token, transport, Responses.DecodeDependencyIdentityResponse)
  }

  /** A dependency path is never one of the gated paths, and names its id. */
  lemma DependencyPathIsDistinct(dependencyId: string, other: string)
    ensures DependencyPath(dependencyId) !in ["me", "accreditations", "identity"]
    ensures DependencyPath(dependencyId) == DependencyPath(other) ==> dependencyId == other
  {
    var p := DependencyPath(dependencyId);
    assert |p| >= 9 && p[0] == 'i' && p[8] == '/';
    if DependencyPath(dependencyId) == DependencyPath(other) {
      assert DependencyPath(dependencyId)[9..] == dependencyId;
      assert DependencyPath(other)[9..] == other;
    }
  }

  // OAuth2 token exchange

  /** An authorization code, a refresh token and the token response of `json_api_client`. */
  datatype AuthorizationCode = AuthorizationCode(code: string)
  datatype RefreshToken = RefreshToken(secret: string)
  datatype StandardToken = StandardToken(accessToken: string, refreshToken: Option<RefreshToken>)

  /** `exchange_code`: delegated with the client's OAuth2 settings; the outcome passes through,
      an error wrapped as `ClientError`. */
  function ExchangeCode(c: Client, code: AuthorizationCode,
                        exchange: (OAuth2Config, AuthorizationCode) -> Result<StandardToken, ClientFailure>):
    (r: Result<StandardToken, Error>)
    ensures r.Success? <==> exchange(c.api.auth, code).Success?
    ensures r.Success? ==> r.value == exchange(c.api.auth, code).value
    ensures r.Failure? ==> r.error == ClientError(exchange(c.api.auth, code).error)
  {
    match exchange(c.api.auth, code)
    case Success(t) => Success(t)
    case Failure(e) => Failure(ClientError(e))
  }

  /** `refresh_token`: the same pass-through for a refresh. */
  function Refresh(c: Client, token: RefreshToken,
                   refresh: (OAuth2Config, RefreshToken) -> Result<StandardToken, ClientFailure>):
    (r: Result<StandardToken, Error>)
    ensures r.Success? <==> refresh(c.api.auth, token).Success?
    ensures r.Success? ==> r.value == refresh(c.api.auth, token).value
    ensures r.Failure? ==> r.error == ClientError(refresh(c.api.auth, token).error)
  {
    match refresh(c.api.auth, token)
    case Success(t) => Success(t)
    case Failure(e) => Failure(ClientError(e))
  }

  // A session of calls

  /** One call of a client's endpoints. */
  datatype Call = ProfileCall | AccreditationsCall | IdentityCall | DependencyCall(dependencyId: string)

  /** What an endpoint returns. */
  datatype Reply =
    | ProfileReply(profile: Responses.ProfileResponse)
    | AccreditationsReply(accreditations: Responses.AccreditationsResponse)
    | IdentityReply(identity: Responses.IdentityResponse)
    | DependencyReply(dependency: Responses.DependencyIdentityResponse)

  /** The scope a call is gated on, if any. */
  function ScopeOf(call: Call): Option<Scopes.Scope> {
    match call
    case ProfileCall => Some(Scopes.Profile)
    case AccreditationsCall => Some(Scopes.AccreditationStatus)
    case IdentityCall => Some(Scopes.Identity)
    case DependencyCall(_) => None
  }

  /** The path a call requests. */
  function PathOf(call: Call): string {
    match call
    case ProfileCall => "me"
    case AccreditationsCall => "accreditations"
    case IdentityCall => "identity"
    case DependencyCall(id) => DependencyPath(id)
  }

  /** Whether the client lets a call through its scope check. */
  predicate Permitted(c: Client, call: Call) {
    ScopeOf(call).None? || ScopeOf(call).value in c.scopes
  }

  function Wrap<T>(o: Outcome<T>, reply: T -> Reply): Outcome<Reply> {
    Outcome(match o.result case Success(x) => Success(reply(x)) case Failure(e) => Failure(e), o.sent)
  }

  /** One call through its endpoint. */
  function Perform(c: Client, call: Call, token: string, transport: Transport): (o: Outcome<Reply>)
    ensures Permitted(c, call) ==> o.sent == [Get(PathOf(call), OAuthHeader(token))]
    ensures !Permitted(c, call) ==> o.sent == [] && o.result == Failure(ApiError(ScopeNotEnabled(ScopeOf(call).value)))
    ensures Permitted(c, call) && o.result.Failure? ==> o.result.error.ClientError?
  {
    match call
    case ProfileCall => Wrap(GetProfile(c, token, transport), r => ProfileReply(r))
    case AccreditationsCall => Wrap(GetAccreditations(c, token, transport), r => AccreditationsReply(r))
    case IdentityCall => Wrap(GetIdentity(c, token, transport), r => IdentityReply(r))
    case DependencyCall(id) => Wrap(GetDependencyIdentity(c, id, token, transport), r => DependencyReply(r))
  }

  /** A sequence of calls on one client: the results in order, and every request sent. */
  function Session(c: Client, calls: seq<Call>, token: string, transport: Transport):
    (r: (seq<Result<Reply, Error>>, seq<Request>))
    ensures |r.0| == |calls|
  {
    if calls == [] then ([], [])
    else
      var first := Perform(c, calls[0], token, transport);
      var rest := Session(c, calls[1..], token, transport);
      ([first.result] + rest.0, first.sent + rest.1)
  }

  /** The requests of the permitted calls, in order. */
  function PermittedRequests(c: Client, calls: seq<Call>, token: string): seq<Request> {
    if calls == [] then []
    else
      (if Permitted(c, calls[0]) then [Get(PathOf(calls[0]), OAuthHeader(token))] else [])
      + PermittedRequests(c, calls[1..], token)
  }

  /** Over a whole session, the client's scopes alone decide which calls are refused: a call
      fails with a scope error exactly when its scope was not granted, and every other failure
      is the underlying client's. The scopes never change, so the same call is decided the same
      way wherever it appears in the session. */
  lemma {:induction false} SessionGating(c: Client, calls: seq<Call>, token: string, transport: Transport)
    ensures forall i :: 0 <= i < |calls| ==>
      ((Session(c, calls, token, transport).0[i].Failure? && Session(c, calls, token, transport).0[i].error.ApiError?)
       <==> !Permitted(c, calls[i]))
    ensures forall i :: 0 <= i < |calls| && !Permitted(c, calls[i]) ==>
      Session(c, calls, token, transport).0[i] == Failure(ApiError(ScopeNotEnabled(ScopeOf(calls[i]).value)))
  {
    if calls != [] {
      SessionGating(c, calls[1..], token, transport);
      var r := Session(c, calls, token, transport);
      var rest := Session(c, calls[1..], token, transport);
      assert r.0 == [Perform(c, calls[0], token, transport).result] + rest.0;
      forall i | 1 <= i < |calls|
        ensures r.0[i] == rest.0[i - 1] && calls[i] == calls[1..][i - 1]
      {
      }
    }
  }

  /** A session sends exactly the requests of its permitted calls, in order: a refused call
      sends nothing, and a permitted one sends one GET of its path with the bearer header. */
  lemma {:induction false} SessionSendsPermittedRequests(c: Client, calls: seq<Call>, token: string, transport: Transport)
    ensures Session(c, calls, token, transport).1 == PermittedRequests(c, calls, token)
  {
    if calls != [] {
      SessionSendsPermittedRequests(c, calls[1..], token, transport);
    }
  }
}
