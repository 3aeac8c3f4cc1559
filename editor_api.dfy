/** editor-api.ts: the editor's cloud API. Every call goes through `requestWithAuthRetry`, which
    resolves the workspace, sends the request with bearer and workspace headers, refreshes the
    token and retries once on a 401, and classifies the final response. */
module EditorApi {
  import opened Wrappers
  import opened Json
  import opened Errors
  import opened Http
  import Text
  import UrlSearch
  import BackendApi
  import ApiClient
  import Session
  import EditorQueries

  /** What stays fixed during a call: the backend oracle, the configured base URL, whether a
      window (and so `localStorage`) exists. */
  datatype Env = Env(respond: Responder, configuredBase: Option<string>, hasWindow: bool)

  /** What a call can change: the network log, `localStorage`, the session's token slot. */
  datatype World = World(log: seq<HttpRequest>, storage: map<string, string>, session: Option<string>)

  datatype Outcome<T> = Outcome(result: Result<T, Thrown>, world: World)

  /** The arguments of one `requestWithAuthRetry` call besides the token. */
  datatype EditorCall = EditorCall(path: string, httpMethod: string, body: Option<Json>)

  const NoWorkspaceMessage: string := "No workspace available for this account."
  const SessionExpired: Thrown := EditorSyncError("Session expired", 401)
  const ConflictDefaultMessage: string := "Project has a newer version on server"

  function NoWorkspace(): Thrown {
    EditorSyncError(NoWorkspaceMessage, 400)
  }

  /** `workspaces[0]`, the `!firstWorkspace` test and `firstWorkspace.id` on the listed workspaces. */
  function FirstWorkspaceId(payload: Json): (r: Result<string, Thrown>)
    ensures payload == JNull ==> r.Failure? && r.error.TypeError?
    ensures payload == JArr([]) ==> r == Failure(NoWorkspace())
    ensures payload.JArr? && |payload.items| > 0 && StringField(payload.items[0], "id").Some? ==>
      r == Success(StringField(payload.items[0], "id").value)
    ensures r.Success? ==> payload.JArr? && |payload.items| > 0 && StringField(payload.items[0], "id") == Some(r.value)
  {
    match payload
    case JNull => Failure(TypeError("Cannot read properties of null (reading '0')"))
    case JArr(items) =>
      if |items| > 0 && StringField(items[0], "id").Some? then Success(StringField(items[0], "id").value)
      else Failure(NoWorkspace())
    case _ => Failure(NoWorkspace())
  }

  /** `resolveWorkspaceId`: the cached selection without any request; otherwise one workspace
      listing, whose first entry's id is persisted (under a window) and returned. */
  function ResolveWorkspaceSpec(env: Env, world: World, token: string): (out: Outcome<string>)
    ensures out.world.session == world.session
    ensures BackendApi.SelectedWorkspaceId(env.hasWindow, world.storage).Some? ==>
      out == Outcome(Success(BackendApi.SelectedWorkspaceId(env.hasWindow, world.storage).value), world)
    ensures BackendApi.SelectedWorkspaceId(env.hasWindow, world.storage).None? ==>
      out.world.log == world.log + [WorkspacesRequest(env, token)]
    ensures out.result.Success? && BackendApi.SelectedWorkspaceId(env.hasWindow, world.storage).None? ==>
      out.world.storage == (if env.hasWindow then world.storage[BackendApi.WorkspaceStorageKey := out.result.value] else world.storage)
    ensures out.result.Failure? ==> out.world.storage == world.storage
    ensures out.world.log == world.log || out.world.log == world.log + [WorkspacesRequest(env, token)]
    ensures BackendApi.SelectedWorkspaceId(env.hasWindow, world.storage).None? ==>
      var listed := ApiClient.RequestSpec(env.respond, env.configuredBase, world.log, ApiClient.GetWorkspacesCall(token));
      (listed.result.Failure? ==> out.result == Failure(listed.result.error)) &&
      (listed.result.Success? ==> out.result == FirstWorkspaceId(listed.result.value))
  {
    var selected := BackendApi.SelectedWorkspaceId(env.hasWindow, world.storage);
    if selected.Some? then Outcome(Success(selected.value), world)
    else
      var listed := ApiClient.RequestSpec(env.respond, env.configuredBase, world.log, ApiClient.GetWorkspacesCall(token));
      var afterList := world.(log := listed.log);
      if listed.result.Failure? then Outcome(Failure(listed.result.error), afterList)
      else
        var first := FirstWorkspaceId(listed.result.value);
        if first.Failure? then Outcome(Failure(first.error), afterList)
        else
          var stored := if env.hasWindow then afterList.storage[BackendApi.WorkspaceStorageKey := first.value] else afterList.storage;
          Outcome(Success(first.value), afterList.(storage := stored))
  }

  function WorkspacesRequest(env: Env, token: string): HttpRequest {
    ApiClient.RequestOf(env.configuredBase, ApiClient.GetWorkspacesCall(token))
  }

  function RefreshRequest(env: Env): HttpRequest {
    ApiClient.RequestOf(env.configuredBase, ApiClient.RefreshCall())
  }

  /** The headers of every editor request. */
  function EditorHeaders(token: string, workspaceId: string): (h: map<string, string>)
    ensures h.Keys == {"Content-Type", "Authorization", "x-workspace-id"}
    ensures h["Authorization"] == "Bearer " + token && h["x-workspace-id"] == workspaceId
    ensures h["Content-Type"] == "application/json"
  {
    map["Content-Type" := "application/json", "Authorization" := "Bearer " + token, "x-workspace-id" := workspaceId]
  }

  function EditorRequestOf(env: Env, call: EditorCall, token: string, workspaceId: string): (req: HttpRequest)
    ensures req.url == BackendApi.BaseUrl(env.configuredBase) + call.path
    ensures req.httpMethod == call.httpMethod && req.withCredentials
    ensures req.headers == EditorHeaders(token, workspaceId)
    ensures req.body == JsonRequestBody(call.body)
  {
    HttpRequest(BackendApi.BaseUrl(env.configuredBase) + call.path, call.httpMethod,
                EditorHeaders(token, workspaceId), JsonRequestBody(call.body), true)
  }

  /** `runRequest`: resolve the workspace, then send the editor request once. */
  function RunRequestSpec(env: Env, world: World, call: EditorCall, token: string): (out: Outcome<HttpResponse>)
    ensures out.world.session == world.session
    ensures world.log <= out.world.log
  {
    var resolved := ResolveWorkspaceSpec(env, world, token);
    if resolved.result.Failure? then Outcome(Failure(resolved.result.error), resolved.world)
    else
      var req := EditorRequestOf(env, call, token, resolved.result.value);
      var reply := env.respond(|resolved.world.log|, req);
      var sent := resolved.world.(log := resolved.world.log + [req]);
      match reply
      case Rejected(t) => Outcome(Failure(t), sent)
      case Answered(response) => Outcome(Success(response), sent)
  }

  function FailedMessage(status: int): string {
    "Editor API request failed (" + Text.IntToString(status) + ")"
  }

  /** The classification of the final response: a 409 whose body has `error: "VERSION_CONFLICT"`
      is a conflict, with defaults for missing or mistyped fields; any other non-2xx is an
      `EditorSyncError` with the HTTP status and the body's message or a default; a 2xx returns
      the body, `null` when it does not parse. */
  function ClassifyResponse(response: HttpResponse): (r: Result<Json, Thrown>)
    ensures IsOk(response.status) <==> r.Success?
    ensures r.Success? ==> r.value == ParsedBody(response)
    ensures var body := ParsedBody(response);
      response.status == 409 && Field(body, "error") == Some(JStr("VERSION_CONFLICT")) ==>
      r == Failure(EditorVersionConflictError(
        StringField(body, "message").GetOr(ConflictDefaultMessage),
        NumberField(body, "serverVersion").GetOr(0),
        StringField(body, "serverUpdatedAt").GetOr("")))
    ensures var body := ParsedBody(response);
      !IsOk(response.status) && !(response.status == 409 && Field(body, "error") == Some(JStr("VERSION_CONFLICT"))) ==>
      r == Failure(EditorSyncError(StringField(body, "message").GetOr(FailedMessage(response.status)), response.status))
  {
    var body := ParsedBody(response);
    if !IsOk(response.status) then
      if response.status == 409 && Field(body, "error") == Some(JStr("VERSION_CONFLICT")) then
        Failure(EditorVersionConflictError(
          if StringField(body, "message").Some? then StringField(body, "message").value else ConflictDefaultMessage,
          if NumberField(body, "serverVersion").Some? then NumberField(body, "serverVersion").value else 0,
          if StringField(body, "serverUpdatedAt").Some? then StringField(body, "serverUpdatedAt").value else ""))
      else
        Failure(EditorSyncError(
          if StringField(body, "message").Some? then StringField(body, "message").value else FailedMessage(response.status),
          response.status))
    else
      Success(body)
  }

  /** The token a refresh call yields, or what it threw. */
  function RefreshedToken(refreshed: ApiClient.Step): Result<string, Thrown> {
    if refreshed.result.Failure? then Failure(refreshed.result.error) else ApiClient.TokenOf(refreshed.result.value)
  }

  /** The first `runRequest` of a pipeline call. */
  function FirstAttempt(env: Env, world: World, call: EditorCall, token: string): Outcome<HttpResponse> {
    RunRequestSpec(env, world, call, token)
  }

  predicate FirstUnauthorized(env: Env, world: World, call: EditorCall, token: string) {
    var first := FirstAttempt(env, world, call, token);
    first.result.Success? && first.result.value.status == 401
  }

  /** The token refresh that follows a first 401. */
  function RefreshAttempt(env: Env, world: World, call: EditorCall, token: string): ApiClient.Step {
    ApiClient.RequestSpec(env.respond, env.configuredBase, FirstAttempt(env, world, call, token).world.log, ApiClient.RefreshCall())
  }

  /** The world the retry starts from: the refresh sent, the new token in the session. */
  function RetryWorld(env: Env, world: World, call: EditorCall, token: string): World
    requires RefreshedToken(RefreshAttempt(env, world, call, token)).Success?
  {
    FirstAttempt(env, world, call, token).world.(log := RefreshAttempt(env, world, call, token).log,
                                                 session := Some(RefreshedToken(RefreshAttempt(env, world, call, token)).value))
  }

  /** `requestWithAuthRetry`. */
  function PipelineSpec(env: Env, world: World, call: EditorCall, token: string): (out: Outcome<Json>)
    ensures world.log <= out.world.log
  {
    var first := FirstAttempt(env, world, call, token);
    if first.result.Failure? then Outcome(Failure(first.result.error), first.world)
    else if first.result.value.status == 401 then
      var refreshed := RefreshAttempt(env, world, call, token);
      var newToken := RefreshedToken(refreshed);
      var afterRefresh := first.world.(log := refreshed.log);
      if newToken.Failure? then Outcome(Failure(SessionExpired), afterRefresh)
      else
        var second := RunRequestSpec(env, RetryWorld(env, world, call, token), call, newToken.value);
        if second.result.Failure? then Outcome(Failure(SessionExpired), second.world)
        else Outcome(ClassifyResponse(second.result.value), second.world)
    else
      Outcome(ClassifyResponse(first.result.value), first.world)
  }

  // The endpoints of `editorCloudApi`: each is `requestWithAuthRetry` with one of these calls.

  function ListProjectsCall(offset: Option<int>, limit: Option<int>, search: Option<string>): EditorCall {
    EditorCall(EditorQueries.ListProjectsPath(offset, limit, search), "GET", None)
  }

  /** The three project endpoints share the path `/editor/projects/<id>`, with the id
      interpolated as it is; only `putProject` sends a body. */
  function GetProjectCall(projectId: string): EditorCall {
    EditorCall("/editor/projects/" + projectId, "GET", None)
  }

  function PutProjectCall(projectId: string, payload: Json): EditorCall {
    EditorCall("/editor/projects/" + projectId, "PUT", Some(payload))
  }

  function DeleteProjectCall(projectId: string): EditorCall {
    EditorCall("/editor/projects/" + projectId, "DELETE", None)
  }

  function CreateFileUploadCall(payload: Json): EditorCall {
    EditorCall("/files/upload", "POST", Some(payload))
  }

  function ListFilesCall(limit: Option<int>, search: Option<string>): EditorCall {
    EditorCall(EditorQueries.ListFilesPath(limit, search), "GET", None)
  }

  function SignFileByKeyCall(key: string, redirect: Option<bool>): EditorCall {
    EditorCall(EditorQueries.SignFileByKeyPath(key, redirect), "GET", None)
  }

  /** What each endpoint sends: the project list, the file list and the signed URL are GETs of
      their path with a query; one project is read, replaced or deleted at
      `/editor/projects/<id>`; only `putProject` and `createFileUpload` carry a body, which is the
      given payload. */
  lemma EditorEndpointCalls(offset: Option<int>, limit: Option<int>, search: Option<string>,
                            projectId: string, payload: Json, key: string, redirect: Option<bool>)
    ensures var c := ListProjectsCall(offset, limit, search);
      c.httpMethod == "GET" && c.body.None? && c.path[..17] == "/editor/projects?"
    ensures var c := ListFilesCall(limit, search);
      c.httpMethod == "GET" && c.body.None? && c.path[..7] == "/files?"
    ensures var c := SignFileByKeyCall(key, redirect);
      c.httpMethod == "GET" && c.body.None? && c.path[..12] == "/files/sign?"
    ensures GetProjectCall(projectId).path == PutProjectCall(projectId, payload).path ==
      DeleteProjectCall(projectId).path == "/editor/projects/" + projectId
    ensures GetProjectCall(projectId).httpMethod == "GET" && GetProjectCall(projectId).body.None?
    ensures PutProjectCall(projectId, payload).httpMethod == "PUT" && PutProjectCall(projectId, payload).body == Some(payload)
    ensures DeleteProjectCall(projectId).httpMethod == "DELETE" && DeleteProjectCall(projectId).body.None?
    ensures CreateFileUploadCall(payload) == EditorCall("/files/upload", "POST", Some(payload))
  {
  }

  /** `uploadFileToPresignedUrl`: a PUT of the file to the given URL with its content type and
      no backend headers. */
  function PresignedUploadRequest(uploadUrl: string, file: BlobFile, contentType: string): (req: HttpRequest)
    ensures "x-workspace-id" !in req.headers && "Authorization" !in req.headers
    ensures req.headers.Keys == {"Content-Type"} && req.headers["Content-Type"] == contentType
    ensures req.url == uploadUrl && req.httpMethod == "PUT" && req.body == FileBody(file)
  {
    HttpRequest(uploadUrl, "PUT", map["Content-Type" := contentType], FileBody(file), false)
  }

  /** Nothing thrown on a 2xx; a rejection passes through; any other status throws
      "File upload failed (<status>)" with that status. */
  function PresignedUploadOutcome(reply: Reply): (error: Option<Thrown>)
    ensures reply.Rejected? ==> error == Some(reply.reason)
    ensures reply.Answered? ==> (error.None? <==> IsOk(reply.response.status))
    ensures reply.Answered? && !IsOk(reply.response.status) ==>
      error == Some(EditorSyncError("File upload failed (" + Text.IntToString(reply.response.status) + ")", reply.response.status))
  {
    match reply
    case Rejected(t) => Some(t)
    case Answered(response) =>
      if IsOk(response.status) then None
      else Some(EditorSyncError("File upload failed (" + Text.IntToString(response.status) + ")", response.status))
  }

  method UploadFileToPresignedUrl(net: Network, uploadUrl: string, file: BlobFile, contentType: string)
    returns (error: Option<Thrown>)
    modifies net
    ensures net.log == old(net.log) + [PresignedUploadRequest(uploadUrl, file, contentType)]
    ensures error == PresignedUploadOutcome(net.respond(|old(net.log)|, PresignedUploadRequest(uploadUrl, file, contentType)))
  {
    var reply := net.Fetch(HttpRequest(uploadUrl, "PUT", map["Content-Type" := contentType], FileBody(file), false));
    match reply
    case Rejected(t) => error := Some(t);
    case Answered(response) =>
      if !IsOk(response.status) {
        error := Some(EditorSyncError("File upload failed (" + Text.IntToString(response.status) + ")", response.status));
      } else {
        error := None;
      }
  }

  // The imperative pipeline over the network, `localStorage` and the session slot.

  method ResolveWorkspaceId(net: Network, storage: BackendApi.WorkspaceStorage, session: Session.AuthSession,
                            configuredBase: Option<string>, currentToken: string) returns (r: Result<string, Thrown>)
    modifies net, storage
    ensures Outcome(r, World(net.log, storage.items, session.accessToken)) ==
      ResolveWorkspaceSpec(Env(net.respond, configuredBase, storage.hasWindow),
                           World(old(net.log), old(storage.items), session.accessToken), currentToken)
  {
    var selected := storage.GetSelectedWorkspaceId();
    if selected.Some? {
      return Success(selected.value);
    }
    var workspaces := ApiClient.Request(net, configuredBase, ApiClient.GetWorkspacesCall(currentToken));
    if workspaces.Failure? {
      return Failure(workspaces.error);
    }
    var first := FirstWorkspaceId(workspaces.value);
    if first.Failure? {
      return Failure(first.error);
    }
    storage.SetSelectedWorkspaceId(first.value);
    r := Success(first.value);
  }

  method RunRequest(net: Network, storage: BackendApi.WorkspaceStorage, session: Session.AuthSession,
                    configuredBase: Option<string>, call: EditorCall, currentToken: string)
    returns (r: Result<HttpResponse, Thrown>)
    modifies net, storage
    ensures Outcome(r, World(net.log, storage.items, session.accessToken)) ==
      RunRequestSpec(Env(net.respond, configuredBase, storage.hasWindow),
                     World(old(net.log), old(storage.items), session.accessToken), call, currentToken)
  {
    var workspaceId := ResolveWorkspaceId(net, storage, session, configuredBase, currentToken);
    if workspaceId.Failure? {
      return Failure(workspaceId.error);
    }
    var body := if call.body.Some? && Truthy(call.body.value) then JsonBody(call.body.value) else NoBody;
    var headers := map["Content-Type" := "application/json",
                       "Authorization" := "Bearer " + currentToken,
                       "x-workspace-id" := workspaceId.value];
    var reply := net.Fetch(HttpRequest(BackendApi.BaseUrl(configuredBase) + call.path, call.httpMethod, headers, body, true));
    match reply
    case Rejected(t) => r := Failure(t);
    case Answered(response) => r := Success(response);
  }

  /** `requestWithAuthRetry`, as `PipelineSpec` describes it. */
  method RequestWithAuthRetry(net: Network, storage: BackendApi.WorkspaceStorage, session: Session.AuthSession,
                              configuredBase: Option<string>, call: EditorCall, token: string)
    returns (r: Result<Json, Thrown>)
    modifies net, storage, session
    ensures Outcome(r, World(net.log, storage.items, session.accessToken)) ==
      PipelineSpec(Env(net.respond, configuredBase, storage.hasWindow),
                   World(old(net.log), old(storage.items), old(session.accessToken)), call, token)
  {
    var response := RunRequest(net, storage, session, configuredBase, call, token);
    if response.Failure? {
      return Failure(response.error);
    }
    if response.value.status == 401 {
      var refreshed := ApiClient.Request(net, configuredBase, ApiClient.RefreshCall());
      if refreshed.Failure? {
        return Failure(SessionExpired);
      }
      var newToken := ApiClient.TokenOf(refreshed.value);
      if newToken.Failure? {
        return Failure(SessionExpired);
      }
      session.SetToken(newToken.value);
      response := RunRequest(net, storage, session, configuredBase, call, newToken.value);
      if response.Failure? {
        return Failure(SessionExpired);
      }
    }
    r := ClassifyResponse(response.value);
  }

  // Properties of the pipeline, stated over the editor requests and token refreshes in the
  // network log before and after one call.

  /** The editor requests of a log: the ones carrying a workspace header. */
  function EditorRequests(log: seq<HttpRequest>): (r: seq<HttpRequest>)
    ensures |r| <= |log|
  {
    if log == [] then []
    else EditorRequests(log[..|log| - 1]) + (if "x-workspace-id" in log[|log| - 1].headers then [log[|log| - 1]] else [])
  }

  /** Every editor request of a log was sent, and carries a workspace header. */
  lemma {:induction false} EditorRequestsAreSent(log: seq<HttpRequest>)
    ensures forall q :: q in EditorRequests(log) ==> q in log && "x-workspace-id" in q.headers
    decreases |log|
  {
    if log != [] {
      EditorRequestsAreSent(log[..|log| - 1]);
    }
  }

  /** How many token refreshes a log holds. */
  function RefreshCount(env: Env, log: seq<HttpRequest>): (n: nat)
    ensures n <= |log|
  {
    if log == [] then 0
    else RefreshCount(env, log[..|log| - 1]) + (if log[|log| - 1] == RefreshRequest(env) then 1 else 0)
  }

  /** `req` is the editor request of `call` sent with bearer `token`, for some workspace. */
  predicate IsCallRequest(req: HttpRequest, env: Env, call: EditorCall, token: string) {
    "x-workspace-id" in req.headers && req == EditorRequestOf(env, call, token, req.headers["x-workspace-id"])
  }

  predicate CarriesWorkspace(req: HttpRequest, workspaceId: string) {
    "x-workspace-id" in req.headers && req.headers["x-workspace-id"] == workspaceId
  }

  /** Sending an auth-client request other than the refresh adds to neither count. */
  lemma AuthRequestCountsNothing(env: Env, log: seq<HttpRequest>, req: HttpRequest)
    requires "x-workspace-id" !in req.headers && req != RefreshRequest(env)
    ensures EditorRequests(log + [req]) == EditorRequests(log)
    ensures RefreshCount(env, log + [req]) == RefreshCount(env, log)
  {
    assert (log + [req])[..|log|] == log;
  }

  /** Sending an editor request adds it to the editor requests and is not a refresh. */
  lemma EditorRequestCounts(env: Env, log: seq<HttpRequest>, req: HttpRequest)
    requires "x-workspace-id" in req.headers
    ensures EditorRequests(log + [req]) == EditorRequests(log) + [req]
    ensures RefreshCount(env, log + [req]) == RefreshCount(env, log)
  {
    assert (log + [req])[..|log|] == log;
  }

  /** Sending the refresh adds one refresh and no editor request. */
  lemma RefreshCounts(env: Env, log: seq<HttpRequest>)
    ensures EditorRequests(log + [RefreshRequest(env)]) == EditorRequests(log)
    ensures RefreshCount(env, log + [RefreshRequest(env)]) == RefreshCount(env, log) + 1
  {
    assert (log + [RefreshRequest(env)])[..|log|] == log;
  }

  /** The workspace listing and the token refresh are different requests. */
  lemma WorkspacesIsNotRefresh(env: Env, token: string)
    ensures WorkspacesRequest(env, token) != RefreshRequest(env)
  {
    var b := BackendApi.BaseUrl(env.configuredBase);
    assert WorkspacesRequest(env, token).url[|b| + 6] == 'u';
    assert RefreshRequest(env).url[|b| + 6] == 'r';
  }

  /** Resolving the workspace sends no editor request and no refresh. */
  lemma {:induction false} ResolveCounts(env: Env, world: World, token: string)
    ensures var out := ResolveWorkspaceSpec(env, world, token);
      EditorRequests(out.world.log) == EditorRequests(world.log) &&
      RefreshCount(env, out.world.log) == RefreshCount(env, world.log)
  {
    if BackendApi.SelectedWorkspaceId(env.hasWindow, world.storage).None? {
      WorkspacesIsNotRefresh(env, token);
      AuthRequestCountsNothing(env, world.log, WorkspacesRequest(env, token));
    }
  }

  /** One `runRequest` sends no refresh and exactly one editor request when the workspace
      resolves: the one built from the resolved id and the given token. */
  lemma {:induction false} RunRequestCounts(env: Env, world: World, call: EditorCall, token: string)
    ensures var out := RunRequestSpec(env, world, call, token);
      var resolved := ResolveWorkspaceSpec(env, world, token);
      RefreshCount(env, out.world.log) == RefreshCount(env, world.log) &&
      EditorRequests(out.world.log) == EditorRequests(world.log) +
        (if resolved.result.Success? then [EditorRequestOf(env, call, token, resolved.result.value)] else []) &&
      out.world.storage == resolved.world.storage &&
      (out.result.Success? ==> resolved.result.Success?)
  {
    var resolved := ResolveWorkspaceSpec(env, world, token);
    ResolveCounts(env, world, token);
    if resolved.result.Success? {
      EditorRequestCounts(env, resolved.world.log, EditorRequestOf(env, call, token, resolved.result.value));
    }
  }

  /** Without a first 401 the call's world is the first attempt's. */
  lemma WorldWithoutRefresh(env: Env, world: World, call: EditorCall, token: string)
    requires !FirstUnauthorized(env, world, call, token)
    ensures PipelineSpec(env, world, call, token).world == FirstAttempt(env, world, call, token).world
  {
  }

  /** A failed refresh adds the refresh request and nothing else. */
  lemma WorldAfterFailedRefresh(env: Env, world: World, call: EditorCall, token: string)
    requires FirstUnauthorized(env, world, call, token)
    requires RefreshedToken(RefreshAttempt(env, world, call, token)).Failure?
    ensures PipelineSpec(env, world, call, token).world ==
      FirstAttempt(env, world, call, token).world.(log := FirstAttempt(env, world, call, token).world.log + [RefreshRequest(env)])
  {
  }

  /** A successful refresh is followed by the retry from `RetryWorld`. */
  lemma WorldAfterRetry(env: Env, world: World, call: EditorCall, token: string)
    requires FirstUnauthorized(env, world, call, token)
    requires RefreshedToken(RefreshAttempt(env, world, call, token)).Success?
    ensures RetryWorld(env, world, call, token).log == FirstAttempt(env, world, call, token).world.log + [RefreshRequest(env)]
    ensures PipelineSpec(env, world, call, token).world ==
      RunRequestSpec(env, RetryWorld(env, world, call, token), call, RefreshedToken(RefreshAttempt(env, world, call, token)).value).world
  {
  }

  /** A call that succeeds after a 401 had both a usable refreshed token and a retry that
      produced a response. */
  lemma RetryReachedWhenSucceeded(env: Env, world: World, call: EditorCall, token: string)
    requires FirstUnauthorized(env, world, call, token)
    requires PipelineSpec(env, world, call, token).result.Success?
    ensures RefreshedToken(RefreshAttempt(env, world, call, token)).Success?
    ensures RunRequestSpec(env, RetryWorld(env, world, call, token), call,
                           RefreshedToken(RefreshAttempt(env, world, call, token)).value).result.Success?
  {
  }

  /** A retry that itself throws (a rejected fetch, a failed workspace listing) is caught and
      becomes "Session expired" (401), after exactly one refresh. */
  lemma {:induction false} RetryThrowExpires(env: Env, world: World, call: EditorCall, token: string)
    requires FirstUnauthorized(env, world, call, token)
    requires RefreshedToken(RefreshAttempt(env, world, call, token)).Success?
    requires RunRequestSpec(env, RetryWorld(env, world, call, token), call,
                            RefreshedToken(RefreshAttempt(env, world, call, token)).value).result.Failure?
    ensures var out := PipelineSpec(env, world, call, token);
      out.result == Failure(SessionExpired) &&
      RefreshCount(env, out.world.log) == RefreshCount(env, world.log) + 1
  {
    PipelineBounds(env, world, call, token);
  }

  /** With no cached workspace and an empty workspace list, the call fails with the
      "No workspace available" error (400) and sends no editor request at all. */
  lemma {:induction false} EmptyWorkspaceListFails(env: Env, world: World, call: EditorCall, token: string)
    requires BackendApi.SelectedWorkspaceId(env.hasWindow, world.storage).None?
    requires ApiClient.RequestSpec(env.respond, env.configuredBase, world.log, ApiClient.GetWorkspacesCall(token)).result ==
      Success(JArr([]))
    ensures var out := PipelineSpec(env, world, call, token);
      out.result == Failure(NoWorkspace()) && out.world.storage == world.storage &&
      EditorRequests(out.world.log) == EditorRequests(world.log) &&
      out.world.log == world.log + [WorkspacesRequest(env, token)]
  {
    var resolved := ResolveWorkspaceSpec(env, world, token);
    assert resolved.result == Failure(NoWorkspace());
    WorldWithoutRefresh(env, world, call, token);
    RunRequestCounts(env, world, call, token);
  }

  /** One refresh exactly when the first editor request was answered with 401, none otherwise:
      the retry never refreshes again. At most two editor requests per call. */
  lemma {:induction false} PipelineBounds(env: Env, world: World, call: EditorCall, token: string)
    ensures var out := PipelineSpec(env, world, call, token);
      RefreshCount(env, out.world.log) ==
        RefreshCount(env, world.log) + (if FirstUnauthorized(env, world, call, token) then 1 else 0) &&
      |EditorRequests(world.log)| <= |EditorRequests(out.world.log)| <= |EditorRequests(world.log)| + 2
  {
    var first := FirstAttempt(env, world, call, token);
    RunRequestCounts(env, world, call, token);
    if !FirstUnauthorized(env, world, call, token) {
      WorldWithoutRefresh(env, world, call, token);
    } else {
      RefreshCounts(env, first.world.log);
      if RefreshedToken(RefreshAttempt(env, world, call, token)).Failure? {
        WorldAfterFailedRefresh(env, world, call, token);
      } else {
        WorldAfterRetry(env, world, call, token);
        RunRequestCounts(env, RetryWorld(env, world, call, token), call, RefreshedToken(RefreshAttempt(env, world, call, token)).value);
      }
    }
  }

  /** A 401 followed by a successful retry: exactly one refresh and exactly two editor requests,
      both the call's own request, the first with the caller's token and the second with the
      refreshed token, which the session now holds. */
  lemma {:induction false} RetryAfterRefresh(env: Env, world: World, call: EditorCall, token: string)
    requires FirstUnauthorized(env, world, call, token)
    requires PipelineSpec(env, world, call, token).result.Success?
    ensures var out := PipelineSpec(env, world, call, token);
      var n := |EditorRequests(world.log)|;
      var sent := EditorRequests(out.world.log);
      RefreshCount(env, out.world.log) == RefreshCount(env, world.log) + 1 &&
      |sent| == n + 2 && out.world.session.Some? &&
      IsCallRequest(sent[n], env, call, token) && IsCallRequest(sent[n + 1], env, call, out.world.session.value)
  {
    RetryReachedWhenSucceeded(env, world, call, token);
    PipelineBounds(env, world, call, token);
    WorldAfterRetry(env, world, call, token);
    var first := FirstAttempt(env, world, call, token);
    var newToken := RefreshedToken(RefreshAttempt(env, world, call, token)).value;
    var retry := RetryWorld(env, world, call, token);
    RunRequestCounts(env, world, call, token);
    RefreshCounts(env, first.world.log);
    RunRequestCounts(env, retry, call, newToken);
    var q1 := EditorRequestOf(env, call, token, ResolveWorkspaceSpec(env, world, token).result.value);
    var q2 := EditorRequestOf(env, call, newToken, ResolveWorkspaceSpec(env, retry, newToken).result.value);
    assert EditorRequests(PipelineSpec(env, world, call, token).world.log) == EditorRequests(world.log) + [q1] + [q2];
  }

  /** A 401 whose refresh fails (rejected, non-2xx, or a reply the model reads no string
      token from) ends the call with "Session expired" (401) after exactly one editor request
      and the refresh, without a retry and without touching the session. */
  lemma {:induction false} RefreshFailureExpiresSession(env: Env, world: World, call: EditorCall, token: string)
    requires FirstUnauthorized(env, world, call, token)
    requires RefreshedToken(RefreshAttempt(env, world, call, token)).Failure?
    ensures var out := PipelineSpec(env, world, call, token);
      out.result == Failure(SessionExpired) && out.world.session == world.session &&
      |EditorRequests(out.world.log)| == |EditorRequests(world.log)| + 1 &&
      out.world.log[|out.world.log| - 1] == RefreshRequest(env)
  {
    WorldAfterFailedRefresh(env, world, call, token);
    RunRequestCounts(env, world, call, token);
    RefreshCounts(env, FirstAttempt(env, world, call, token).world.log);
  }

  /** A retry answered with 401 again is final: an `EditorSyncError` with status 401, and no
      second refresh. */
  lemma {:induction false} SecondUnauthorizedIsFinal(env: Env, world: World, call: EditorCall, token: string)
    requires FirstUnauthorized(env, world, call, token)
    requires RefreshedToken(RefreshAttempt(env, world, call, token)).Success?
    requires var second := RunRequestSpec(env, RetryWorld(env, world, call, token), call,
                                          RefreshedToken(RefreshAttempt(env, world, call, token)).value);
      second.result.Success? && second.result.value.status == 401
    ensures var out := PipelineSpec(env, world, call, token);
      out.result.Failure? && out.result.error.EditorSyncError? && out.result.error.statusCode == 401 &&
      RefreshCount(env, out.world.log) == RefreshCount(env, world.log) + 1
  {
    PipelineBounds(env, world, call, token);
  }

  /** A first answer other than 401 is classified as it is, with no refresh and the session
      left alone. */
  lemma {:induction false} NoRefreshWithoutUnauthorized(env: Env, world: World, call: EditorCall, token: string)
    requires FirstAttempt(env, world, call, token).result.Success?
    requires FirstAttempt(env, world, call, token).result.value.status != 401
    ensures var out := PipelineSpec(env, world, call, token);
      out.result == ClassifyResponse(FirstAttempt(env, world, call, token).result.value) &&
      out.world.session == world.session &&
      RefreshCount(env, out.world.log) == RefreshCount(env, world.log)
  {
    PipelineBounds(env, world, call, token);
  }

  /** With a workspace already selected, `localStorage` is left alone and every editor request
      the call sends carries the selected id. */
  lemma {:induction false} CachedWorkspaceIsUsed(env: Env, world: World, call: EditorCall, token: string, workspaceId: string)
    requires BackendApi.SelectedWorkspaceId(env.hasWindow, world.storage) == Some(workspaceId)
    ensures var out := PipelineSpec(env, world, call, token);
      var n := |EditorRequests(world.log)|;
      var sent := EditorRequests(out.world.log);
      out.world.storage == world.storage && n <= |sent| &&
      forall i :: n <= i < |sent| ==> CarriesWorkspace(sent[i], workspaceId)
  {
    var first := FirstAttempt(env, world, call, token);
    RunRequestCounts(env, world, call, token);
    var q1 := EditorRequestOf(env, call, token, workspaceId);
    assert EditorRequests(first.world.log) == EditorRequests(world.log) + [q1];
    if !FirstUnauthorized(env, world, call, token) {
      WorldWithoutRefresh(env, world, call, token);
    } else {
      RefreshCounts(env, first.world.log);
      if RefreshedToken(RefreshAttempt(env, world, call, token)).Failure? {
        WorldAfterFailedRefresh(env, world, call, token);
      } else {
        WorldAfterRetry(env, world, call, token);
        var newToken := RefreshedToken(RefreshAttempt(env, world, call, token)).value;
        var retry := RetryWorld(env, world, call, token);
        assert retry.storage == world.storage;
        RunRequestCounts(env, retry, call, newToken);
        var q2 := EditorRequestOf(env, call, newToken, workspaceId);
        assert EditorRequests(PipelineSpec(env, world, call, token).world.log) == EditorRequests(world.log) + [q1] + [q2];
      }
    }
  }

  /** A longer log holds every editor request of a shorter one it extends, in the same places. */
  lemma {:induction false} EditorRequestsPrefix(log: seq<HttpRequest>, longer: seq<HttpRequest>)
    requires log <= longer
    ensures EditorRequests(log) <= EditorRequests(longer)
    decreases |longer|
  {
    if log != longer {
      var shorter := longer[..|longer| - 1];
      assert log <= shorter;
      EditorRequestsPrefix(log, shorter);
    }
  }

  /** A call that succeeds sent its own request first: the first editor request it adds is the
      call's, with the caller's token. */
  lemma {:induction false} FirstRequestIsTheCall(env: Env, world: World, call: EditorCall, token: string)
    requires PipelineSpec(env, world, call, token).result.Success?
    ensures var n := |EditorRequests(world.log)|;
      var sent := EditorRequests(PipelineSpec(env, world, call, token).world.log);
      n < |sent| && IsCallRequest(sent[n], env, call, token)
  {
    if FirstUnauthorized(env, world, call, token) {
      RetryAfterRefresh(env, world, call, token);
    } else {
      RunRequestCounts(env, world, call, token);
      WorldWithoutRefresh(env, world, call, token);
      var q1 := EditorRequestOf(env, call, token, ResolveWorkspaceSpec(env, world, token).result.value);
      assert EditorRequests(PipelineSpec(env, world, call, token).world.log) == EditorRequests(world.log) + [q1];
    }
  }

  /** The version conflict of a 409 carrying `serverVersion: 5`. */
  lemma ConflictCarriesServerVersion()
    ensures var body := JObj(map["error" := JStr("VERSION_CONFLICT"), "serverVersion" := JNum(5),
                                 "serverUpdatedAt" := JStr("2025-01-01T00:00:00.000Z")]);
      ClassifyResponse(HttpResponse(409, Some(body))) ==
        Failure(EditorVersionConflictError(ConflictDefaultMessage, 5, "2025-01-01T00:00:00.000Z"))
  {
  }
}
