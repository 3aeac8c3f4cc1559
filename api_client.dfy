/** api-client.ts: the authentication backend client. Every call goes through `Request`, which sends
    one request, reads the body as JSON (or `null`), throws `BackendAuthError` on a non-2xx status
    and unwraps the `{data: ...}` envelope otherwise. */
module ApiClient {
  import opened Wrappers
  import opened Json
  import opened Errors
  import opened Http
  import Text
  import BackendApi

  /** `new BackendAuthError({message, statusCode})`; the status defaults to 500 when not given. */
  function NewBackendAuthError(message: Json, statusCode: Option<Json>): (e: Thrown)
    ensures e.BackendAuthError? && e.authMessage == message
    ensures statusCode.None? ==> e.authStatusCode == JNum(500)
    ensures statusCode.Some? ==> e.authStatusCode == statusCode.value
  {
    BackendAuthError(message, statusCode.GetOr(JNum(500)))
  }

  /** `unwrapSuccessPayload`: the `data` member of an object that has one, else the payload itself. */
  function UnwrapSuccessPayload(payload: Json): (r: Json)
    ensures payload.JObj? && "data" in payload.fields ==> r == payload.fields["data"]
    ensures !(payload.JObj? && "data" in payload.fields) ==> r == payload
  {
    if payload.JObj? && "data" in payload.fields then payload.fields["data"] else payload
  }

  /** `value ?? fallback` for a property read: the value unless it is `undefined` or `null`. */
  function Coalesce(value: Option<Json>, fallback: Json): (r: Json)
    ensures value.Some? && value.value != JNull ==> r == value.value
    ensures value.None? || value.value == JNull ==> r == fallback
  {
    if value.Some? && value.value != JNull then value.value else fallback
  }

  datatype ErrorFields = ErrorFields(message: Json, statusCode: Json)

  /** `extractError`: an object payload's `message` and `statusCode`, each falling back to its
      default when `undefined` or `null`; any other payload gives both defaults. */
  function ExtractError(payload: Json, defaultMessage: string, defaultStatusCode: int): (r: ErrorFields)
    ensures !IsObject(payload) ==> r == ErrorFields(JStr(defaultMessage), JNum(defaultStatusCode))
    ensures r.message == Coalesce(Field(payload, "message"), JStr(defaultMessage))
    ensures r.statusCode == Coalesce(Field(payload, "statusCode"), JNum(defaultStatusCode))
  {
    if IsObject(payload) then
      ErrorFields(Coalesce(Field(payload, "message"), JStr(defaultMessage)),
                  Coalesce(Field(payload, "statusCode"), JNum(defaultStatusCode)))
    else
      ErrorFields(JStr(defaultMessage), JNum(defaultStatusCode))
  }

  /** The headers `request` sends: JSON content, and a bearer token only when the token is truthy. */
  function AuthHeaders(token: Option<string>): (h: map<string, string>)
    ensures "Content-Type" in h && h["Content-Type"] == "application/json"
    ensures "Authorization" in h <==> TruthyString(token)
    ensures "Authorization" in h ==> h["Authorization"] == "Bearer " + token.value
    ensures h.Keys <= {"Content-Type", "Authorization"}
  {
    var base := map["Content-Type" := "application/json"];
    if TruthyString(token) then base["Authorization" := "Bearer " + token.value] else base
  }

  /** The arguments of one `request` call. */
  datatype AuthCall = AuthCall(path: string, httpMethod: string, body: Option<Json>, token: Option<string>)

  /** The request `request` sends for `call`. */
  function RequestOf(configuredBase: Option<string>, call: AuthCall): (req: HttpRequest)
    ensures req.url == BackendApi.BaseUrl(configuredBase) + call.path
    ensures req.httpMethod == call.httpMethod && req.withCredentials
    ensures req.headers == AuthHeaders(call.token)
    ensures req.body == JsonRequestBody(call.body)
    ensures "x-workspace-id" !in req.headers
  {
    HttpRequest(BackendApi.BaseUrl(configuredBase) + call.path, call.httpMethod,
                AuthHeaders(call.token), JsonRequestBody(call.body), true)
  }

  function StatusMessage(status: int): string {
    "Request failed with status " + Text.IntToString(status)
  }

  /** What `request` makes of a reply: a rejected fetch propagates; a non-2xx status throws
      `BackendAuthError` with the payload's message and status code when present, else
      "Request failed with status <n>" and the HTTP status; a 2xx status returns the unwrapped
      payload, an unparseable body counting as `null`. */
  function RequestOutcome(reply: Reply): (r: Result<Json, Thrown>)
    ensures reply.Rejected? ==> r == Failure(reply.reason)
    ensures reply.Answered? && IsOk(reply.response.status) ==>
      r == Success(UnwrapSuccessPayload(ParsedBody(reply.response)))
    ensures reply.Answered? && !IsOk(reply.response.status) ==>
      var payload := ParsedBody(reply.response);
      r.Failure? && r.error.BackendAuthError?
      && r.error.authMessage == Coalesce(Field(payload, "message"), JStr(StatusMessage(reply.response.status)))
      && r.error.authStatusCode == Coalesce(Field(payload, "statusCode"), JNum(reply.response.status))
  {
    match reply
    case Rejected(t) => Failure(t)
    case Answered(response) =>
      var payload := ParsedBody(response);
      if !IsOk(response.status) then
        var fields := ExtractError(payload, StatusMessage(response.status), response.status);
        Failure(NewBackendAuthError(fields.message, Some(fields.statusCode)))
      else
        Success(UnwrapSuccessPayload(payload))
  }

  /** The result of one `request` call and the network log after it. */
  datatype Step = Step(result: Result<Json, Thrown>, log: seq<HttpRequest>)

  /** One `request` call against the oracle `respond`, with `log` sent before it. */
  function RequestSpec(respond: Responder, configuredBase: Option<string>, log: seq<HttpRequest>,
                       call: AuthCall): (s: Step)
    ensures s.log == log + [RequestOf(configuredBase, call)]
    ensures s.result == RequestOutcome(respond(|log|, RequestOf(configuredBase, call)))
  {
    var req := RequestOf(configuredBase, call);
    Step(RequestOutcome(respond(|log|, req)), log + [req])
  }

  /** `request`: sends exactly one request and returns or throws as `RequestSpec` says. */
  method Request(net: Network, configuredBase: Option<string>, call: AuthCall) returns (r: Result<Json, Thrown>)
    modifies net
    ensures Step(r, net.log) == RequestSpec(net.respond, configuredBase, old(net.log), call)
  {
    var url := BackendApi.BaseUrl(configuredBase) + call.path;
    var headers := map["Content-Type" := "application/json"];
    if TruthyString(call.token) {
      headers := headers["Authorization" := "Bearer " + call.token.value];
    }
    var body := if call.body.Some? && Truthy(call.body.value) then JsonBody(call.body.value) else NoBody;
    var reply := net.Fetch(HttpRequest(url, call.httpMethod, headers, body, true));
    if reply.Rejected? {
      return Failure(reply.reason);
    }
    var payload := JNull;
    if reply.response.body.Some? {
      payload := reply.response.body.value;
    }
    if !IsOk(reply.response.status) {
      var fields := ExtractError(payload, StatusMessage(reply.response.status), reply.response.status);
      return Failure(NewBackendAuthError(fields.message, Some(fields.statusCode)));
    }
    r := Success(UnwrapSuccessPayload(payload));
  }

  // The `backendAuthApi` endpoints.

  function GetUserInitCall(): AuthCall {
    AuthCall("/auth/user/init", "GET", None, None)
  }

  function LoginCall(username: string, password: string): (c: AuthCall)
    ensures c.path == "/auth/user/login" && c.httpMethod == "POST" && c.token.None?
    ensures c.body == Some(JObj(map["username" := JStr(username), "password" := JStr(password)]))
  {
    AuthCall("/auth/user/login", "POST",
             Some(JObj(map["username" := JStr(username), "password" := JStr(password)])), None)
  }

  /** `register`: the role defaults to 1; an absent organisation name is left out of the body. */
  function RegisterCall(email: string, firstname: string, lastname: string, password: string,
                        role: Option<int>, organisationName: Option<string>): (c: AuthCall)
    ensures c.path == "/auth/user/register" && c.httpMethod == "POST" && c.token.None?
    ensures c.body.Some? && c.body.value.JObj?
    ensures var f := c.body.value.fields;
      "role" in f && f["role"] == JNum(if role.Some? then role.value else 1)
      && "email" in f && f["email"] == JStr(email)
      && "password" in f && f["password"] == JStr(password)
      && "firstname" in f && f["firstname"] == JStr(firstname)
      && "lastname" in f && f["lastname"] == JStr(lastname)
      && ("organisation_name" in f <==> organisationName.Some?)
  {
    var fields := map["email" := JStr(email), "firstname" := JStr(firstname),
                      "lastname" := JStr(lastname), "password" := JStr(password),
                      "role" := JNum(role.GetOr(1))];
    var withOrganisation :=
      if organisationName.Some? then fields["organisation_name" := JStr(organisationName.value)] else fields;
    AuthCall("/auth/user/register", "POST", Some(JObj(withOrganisation)), None)
  }

  /** `refresh` is a GET of /auth/refresh carrying no token: it relies on the refresh cookie. */
  function RefreshCall(): AuthCall {
    AuthCall("/auth/refresh", "GET", None, None)
  }

  function LogoutCall(): AuthCall {
    AuthCall("/auth/user/logout", "POST", None, None)
  }

  function GetOrganisationCall(token: string): AuthCall {
    AuthCall("/auth/user/organisation", "GET", None, Some(token))
  }

  function GetWorkspacesCall(token: string): AuthCall {
    AuthCall("/auth/user/workspaces", "GET", None, Some(token))
  }

  /** The requests of the endpoints that take no body: each goes to its own path under the
      base URL with no body and no workspace header. Init, refresh and logout carry no
      `Authorization` header and rely on the cookies alone; the organisation and workspace
      listings carry `Bearer <token>` exactly when the token is not empty. */
  lemma AuthEndpointRequests(configuredBase: Option<string>, token: string)
    ensures var b := BackendApi.BaseUrl(configuredBase);
      var init := RequestOf(configuredBase, GetUserInitCall());
      var refresh := RequestOf(configuredBase, RefreshCall());
      var logout := RequestOf(configuredBase, LogoutCall());
      init.url == b + "/auth/user/init" && init.httpMethod == "GET" &&
      refresh.url == b + "/auth/refresh" && refresh.httpMethod == "GET" &&
      logout.url == b + "/auth/user/logout" && logout.httpMethod == "POST" &&
      forall req :: req in [init, refresh, logout] ==>
        req.headers == map["Content-Type" := "application/json"] && req.body == NoBody && req.withCredentials
    ensures var b := BackendApi.BaseUrl(configuredBase);
      var organisation := RequestOf(configuredBase, GetOrganisationCall(token));
      var workspaces := RequestOf(configuredBase, GetWorkspacesCall(token));
      organisation.url == b + "/auth/user/organisation" && organisation.httpMethod == "GET" &&
      workspaces.url == b + "/auth/user/workspaces" && workspaces.httpMethod == "GET" &&
      forall req :: req in [organisation, workspaces] ==>
        req.body == NoBody && req.withCredentials && "x-workspace-id" !in req.headers &&
        req.headers["Content-Type"] == "application/json" &&
        ("Authorization" in req.headers <==> token != "") &&
        (token != "" ==> req.headers["Authorization"] == "Bearer " + token)
  {
  }

  /** The `{token, user}` of a login, register or refresh response. */
  datatype AuthSuccess = AuthSuccess(token: string, user: Json)

  /** Reading `response.token` and `response.user`: reading them off `null` throws a `TypeError`. */
  function AuthSuccessOf(payload: Json): (r: Result<AuthSuccess, Thrown>)
    ensures payload == JNull ==> r.Failure? && r.error.TypeError?
    ensures r.Success? <==> StringField(payload, "token").Some? && Field(payload, "user").Some? && Field(payload, "user").value.JObj?
    ensures r.Success? ==> Field(payload, "token") == Some(JStr(r.value.token)) && Field(payload, "user") == Some(r.value.user)
  {
    if StringField(payload, "token").Some? && Field(payload, "user").Some? && Field(payload, "user").value.JObj? then
      Success(AuthSuccess(StringField(payload, "token").value, Field(payload, "user").value))
    else
      Failure(TypeError("Cannot read properties of the authentication response"))
  }

  /** Reading `refreshed.token` alone, as the editor pipeline does. */
  function TokenOf(payload: Json): (r: Result<string, Thrown>)
    ensures payload == JNull ==> r.Failure? && r.error.TypeError?
    ensures r.Success? <==> StringField(payload, "token").Some?
    ensures r.Success? ==> Field(payload, "token") == Some(JStr(r.value))
  {
    if StringField(payload, "token").Some? then Success(StringField(payload, "token").value)
    else Failure(TypeError("Cannot read properties of the refresh response"))
  }

  /** A wrapped refresh response unwraps to its inner payload. */
  lemma UnwrapWrapped(inner: Json)
    ensures UnwrapSuccessPayload(JObj(map["status" := JStr("success"), "data" := inner])) == inner
  {
  }

  /** A 2xx body that reports an error is still a success: only the HTTP status decides. */
  lemma OkBodyWithErrorIsSuccess(status: int, payload: Json)
    requires IsOk(status) && !(payload.JObj? && "data" in payload.fields)
    ensures RequestOutcome(Answered(HttpResponse(status, Some(payload)))) == Success(payload)
  {
  }
}
