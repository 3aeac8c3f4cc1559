# Cloud sync and session core of the vibecut web editor

This project is a Dafny model of the part of the vibecut web editor that talks to the backend.
That part is made of:

- **the authentication client** (`backendAuthApi`): every call goes to the backend base URL, carries the JSON
  headers and an optional bearer token, sends a body only when it is truthy, unwraps a `{ data }` envelope, and
  turns a non-2xx reply into a `BackendAuthError`;
- **the session slot** (`authSession`), which holds the in-memory access token;
- **the auth store** (`useAuthStore`): `initialize` happens once; `login` and `register` either authenticate or
  clear the state and record the error message; `logout` always clears;
- **the editor cloud API** (`editorCloudApi`): every editor request resolves a workspace id (the cached
  selection, else the first workspace of the account, which is then cached) and sends it as
  `x-workspace-id`. A first 401 triggers one token refresh and one retry; a refresh failure is "Session
  expired"; a 409 `VERSION_CONFLICT` carries the server version;
- **the presigned upload** of a file to storage;
- **the media manager**: local assets, object-URL revocation, removal of timeline elements that reference a
  deleted asset, and the one-shot cloud sync of an asset. The sync asks for an upload slot, PUTs the file,
  recovers the cloud file id by key when the backend did not send one, and stores the merged asset;
- **the editor mapper**, which converts between the local project and the cloud snapshot (audio buffers are
  stripped, dates are rendered and parsed, the version is clamped) and collects the media ids the timeline uses;
- **the storage migration runner**: migrations are ordered stably by `from` and chained per record; the
  first failure is final;
- **the route gate** (`middleware`), which sends visitors without the refresh cookie to the login page.

The network is an oracle `Responder = (n, request) -> reply` that answers the n-th request. The class
`Http.Network` records every request it sends, so the contracts can speak about exactly which requests a
call sends and in which order. Browser storage is `BackendApi.WorkspaceStorage`, a class over a
`map<string, string>`. The media store, the editor and the object-URL registry are small classes whose
fields record what was saved, deleted, revoked or marked dirty.

Each stateful operation is a method over those classes. Its `ensures` ties the new state to a pure
specification function of the old state: `AuthStore.SignInSpec`, `EditorApi.PipelineSpec`, `Media.SyncSpec`,
`MigrationRunner.RunPrefix`. The lemmas prove the promised properties about those functions: retry and
refresh counting, session expiry, workspace caching, the sent request order, idempotence of the sync, the
round trip of the mapper, and the stability of the migration order.

## Model

| member | source | states |
|---|---|---|
| ApiClient.NewBackendAuthError | apps/web/src/lib/auth/api-client.ts:37-45 | a backend auth error carries the message, and the status code, which defaults to 500 |
| ApiClient.UnwrapSuccessPayload | apps/web/src/lib/auth/api-client.ts:47-52 | an object with a `data` key yields that value; anything else is returned as it is |
| ApiClient.Coalesce | apps/web/src/lib/auth/api-client.ts:66-67 | `??`: a present non-null value wins, otherwise the fallback |
| ApiClient.ExtractError | apps/web/src/lib/auth/api-client.ts:54-72 | a non-object payload gives both defaults; otherwise the message and the status code each fall back separately |
| ApiClient.AuthHeaders | apps/web/src/lib/auth/api-client.ts:89-92 | Content-Type is always JSON; Authorization is present iff the token is non-empty, and is then `Bearer <token>`; no other header |
| ApiClient.RequestOf | apps/web/src/lib/auth/api-client.ts:85-94 | the URL is the base URL plus the path; method, credentials, headers and a body only when truthy; never an `x-workspace-id` |
| ApiClient.RequestOutcome | apps/web/src/lib/auth/api-client.ts:96-112 | a rejection propagates; a 2xx returns the unwrapped payload; a non-2xx throws with the payload's message and status, else "Request failed with status n" and the HTTP status |
| ApiClient.RequestSpec | apps/web/src/lib/auth/api-client.ts:74-113 | exactly one request is appended to the log, and the result is the outcome of the reply to it |
| ApiClient.Request | apps/web/src/lib/auth/api-client.ts:74-113 | the method's new log and result are those of RequestSpec |
| ApiClient.GetUserInitCall | apps/web/src/lib/auth/api-client.ts:116 | the call value of `getUserInit`; its request is stated by ApiClient.AuthEndpointRequests |
| ApiClient.LoginCall | apps/web/src/lib/auth/api-client.ts:117-128 | POST /auth/user/login with exactly the username and password |
| ApiClient.RegisterCall | apps/web/src/lib/auth/api-client.ts:129-148 | POST /auth/user/register with the email, first name, last name and password; role defaults to 1; the organisation name is present iff it is given |
| ApiClient.RefreshCall | apps/web/src/lib/auth/api-client.ts:149-153 | the call value of `refresh`; its request is stated by ApiClient.AuthEndpointRequests |
| ApiClient.LogoutCall | apps/web/src/lib/auth/api-client.ts:154-158 | the call value of `logout`; its request is stated by ApiClient.AuthEndpointRequests |
| ApiClient.GetOrganisationCall | apps/web/src/lib/auth/api-client.ts:159-164 | the call value of `getOrganisation`; its request is stated by ApiClient.AuthEndpointRequests |
| ApiClient.GetWorkspacesCall | apps/web/src/lib/auth/api-client.ts:165-170 | the call value of `getWorkspaces`; its request is stated by ApiClient.AuthEndpointRequests |
| ApiClient.AuthEndpointRequests | apps/web/src/lib/auth/api-client.ts:116-170 | init, refresh and logout go to their paths (GET, GET, POST) with only the JSON header and no body, relying on cookies; the organisation and workspace listings are GETs with no body that carry `Bearer <token>` exactly when the token is non-empty; none carries a workspace header |
| ApiClient.StatusMessage | apps/web/src/lib/auth/api-client.ts:103-110 | the fallback text "Request failed with status n"; stated by ApiClient.RequestOutcome |
| ApiClient.AuthSuccessOf | apps/web/src/stores/auth-store.ts:79-80 | a null payload is a TypeError; success iff there is a string token and an object user, which are returned |
| ApiClient.TokenOf | apps/web/src/lib/cloud-sync/editor-api.ts:183-184 | a null payload is a TypeError; success iff there is a string token, which is returned |
| ApiClient.UnwrapWrapped | apps/web/src/lib/auth/api-client.ts:47-52 | a `{status, data}` envelope unwraps to its data |
| ApiClient.OkBodyWithErrorIsSuccess | apps/web/src/lib/auth/api-client.ts:103-112 | a 2xx reply without `data` is returned as it is, even when it holds error fields |
| BackendApi.ChosenBase | apps/web/src/lib/backend-api.ts:1-7 | an empty or missing environment value gives `/api`; otherwise the value is used |
| BackendApi.BaseUrl | apps/web/src/lib/backend-api.ts:1-7 | exactly one trailing slash is removed, and only when there is one |
| BackendApi.BaseUrlKeepsInnerSlash | apps/web/src/lib/backend-api.ts:6 | with two trailing slashes, one slash remains |
| BackendApi.SelectedWorkspaceId | apps/web/src/lib/backend-api.ts:11-16 | a value is present iff there is a window and a non-empty stored value, which is then returned |
| BackendApi.WorkspaceStorage.constructor | apps/web/src/lib/backend-api.ts:9 | storage starts with the given window flag and items |
| BackendApi.WorkspaceStorage.GetSelectedWorkspaceId | apps/web/src/lib/backend-api.ts:11-16 | returns SelectedWorkspaceId of the current items |
| BackendApi.WorkspaceStorage.SetSelectedWorkspaceId | apps/web/src/lib/backend-api.ts:18-21 | writes the key when there is a window; otherwise nothing changes |
| BackendApi.SetThenGet | apps/web/src/lib/backend-api.ts:11-21 | reading after writing a non-empty id gives that id |
| Session.AuthSession.constructor | apps/web/src/lib/auth/session.ts:1 | the slot starts empty |
| Session.AuthSession.GetToken | apps/web/src/lib/auth/session.ts:4 | returns the held token |
| Session.AuthSession.SetToken | apps/web/src/lib/auth/session.ts:5-7 | the slot holds the token |
| Session.AuthSession.Clear | apps/web/src/lib/auth/session.ts:8-10 | the slot is empty |
| AuthStore.AuthenticatedState | apps/web/src/stores/auth-store.ts:39-55 | authenticated, with the user, initialised, no error; a consistent state |
| AuthStore.SignInResponse | apps/web/src/stores/auth-store.ts:79-80 | a failed call propagates its error; otherwise the token and user are read from the payload |
| AuthStore.InitializeSpec | apps/web/src/stores/auth-store.ts:72-84 | when already initialised or loading, nothing happens; otherwise one refresh is sent and the store is authenticated with the new token, or cleared; nothing is thrown |
| AuthStore.FailureMessage | apps/web/src/stores/auth-store.ts:91 | an Error's message, otherwise the fallback text |
| AuthStore.SignInSpec | apps/web/src/stores/auth-store.ts:85-120 | one request; on success the user is authenticated with the token; on failure the store is cleared, the error message is recorded and the error is rethrown |
| AuthStore.LoginSpec | apps/web/src/stores/auth-store.ts:85-96 | sends the login call; resolves iff the store ends authenticated; a failure clears the user and the token, and a non-Error failure records "Login failed" |
| AuthStore.RegisterSpec | apps/web/src/stores/auth-store.ts:97-120 | sends the register call without a role; resolves iff the store ends authenticated; a non-Error failure records "Registration failed" |
| AuthStore.LogoutSpec | apps/web/src/stores/auth-store.ts:121-130 | whatever the reply, one logout request is sent and the store and the slot are cleared |
| AuthStore.AuthStore.constructor | apps/web/src/stores/auth-store.ts:68-71 | the initial state: no user, idle, not initialised, no error |
| AuthStore.AuthStore.SetAuthenticatedState | apps/web/src/stores/auth-store.ts:39-55 | the token is stored and the state becomes AuthenticatedState |
| AuthStore.AuthStore.ClearAuthState | apps/web/src/stores/auth-store.ts:57-65 | the slot is cleared; unauthenticated and initialised |
| AuthStore.AuthStore.Initialize | apps/web/src/stores/auth-store.ts:72-84 | the new state, token and log equal InitializeSpec |
| AuthStore.AuthStore.SignIn | apps/web/src/stores/auth-store.ts:85-120 | the effect equals SignInSpec |
| AuthStore.AuthStore.Login | apps/web/src/stores/auth-store.ts:85-96 | the effect equals LoginSpec |
| AuthStore.AuthStore.Register | apps/web/src/stores/auth-store.ts:97-120 | the effect equals RegisterSpec |
| AuthStore.AuthStore.Logout | apps/web/src/stores/auth-store.ts:121-130 | the effect equals LogoutSpec |
| AuthStore.AuthStore.ClearError | apps/web/src/stores/auth-store.ts:131 | only the error field changes |
| AuthStore.TransitionsKeepConsistency | apps/web/src/stores/auth-store.ts:39-131 | no action leads to an authenticated state without a user or without initialisation |
| AuthStore.SessionFollowsStatus | apps/web/src/stores/auth-store.ts:72-130 | after initialize or a sign-in, the slot holds a token iff the store is authenticated; a sign-in resolves iff authenticated; logout ends unauthenticated with no token |
| AuthStore.FailedLoginKeepsBackendMessage | apps/web/src/stores/auth-store.ts:85-96 | a login answered with a non-2xx status rethrows the BackendAuthError built from the reply; the store's error is the payload's message, else "Request failed with status n"; unauthenticated, no user, no token |
| AuthStore.InitializeOnce | apps/web/src/stores/auth-store.ts:73-75 | a second initialize changes nothing and sends nothing |
| EditorApi.FirstWorkspaceId | apps/web/src/lib/cloud-sync/editor-api.ts:150-159 | a null list throws a TypeError; an empty list gives "No workspace available" with status 400; otherwise the first workspace's id |
| EditorApi.ResolveWorkspaceSpec | apps/web/src/lib/cloud-sync/editor-api.ts:140-160 | a cached id is used with no request; otherwise exactly one workspaces request, whose failure propagates and whose payload decides the result as FirstWorkspaceId says; the chosen id is cached on success only |
| EditorApi.EditorHeaders | apps/web/src/lib/cloud-sync/editor-api.ts:171-175 | exactly Content-Type, Authorization `Bearer <token>` and `x-workspace-id` |
| EditorApi.EditorRequestOf | apps/web/src/lib/cloud-sync/editor-api.ts:168-177 | base URL plus path, method, credentials, editor headers, and a body only when truthy |
| EditorApi.RunRequestSpec | apps/web/src/lib/cloud-sync/editor-api.ts:162-178 | leaves the session alone and only extends the log |
| EditorApi.ClassifyResponse | apps/web/src/lib/cloud-sync/editor-api.ts:194-225 | success iff 2xx, with the parsed body; a 409 VERSION_CONFLICT gives a conflict with typed defaults; any other failure gives an EditorSyncError with the body's message or "Editor API request failed (n)" |
| EditorApi.PipelineSpec | apps/web/src/lib/cloud-sync/editor-api.ts:129-226 | only extends the log |
| EditorApi.PresignedUploadRequest | apps/web/src/lib/cloud-sync/editor-api.ts:314-320 | a PUT of the file to the upload URL with only the Content-Type header; no backend credentials |
| EditorApi.PresignedUploadOutcome | apps/web/src/lib/cloud-sync/editor-api.ts:322-327 | a rejection propagates; it fails iff the status is not 2xx, with "File upload failed (n)" and that status |
| EditorApi.UploadFileToPresignedUrl | apps/web/src/lib/cloud-sync/editor-api.ts:305-328 | sends exactly that one request, and its result is PresignedUploadOutcome of the reply |
| EditorApi.ResolveWorkspaceId | apps/web/src/lib/cloud-sync/editor-api.ts:140-160 | the new log, storage and result equal ResolveWorkspaceSpec |
| EditorApi.RunRequest | apps/web/src/lib/cloud-sync/editor-api.ts:162-178 | the new log, storage and result equal RunRequestSpec |
| EditorApi.RequestWithAuthRetry | apps/web/src/lib/cloud-sync/editor-api.ts:129-226 | the new log, storage, session and result equal PipelineSpec |
| EditorApi.EditorRequests | apps/web/src/lib/cloud-sync/editor-api.ts:174 | the requests carrying a workspace header, never more than were sent |
| EditorApi.EditorRequestsAreSent | apps/web/src/lib/cloud-sync/editor-api.ts:174 | every editor request of a log is in the log and carries a workspace header |
| EditorApi.FailedMessage | apps/web/src/lib/cloud-sync/editor-api.ts:216-222 | the fallback text "Editor API request failed (n)"; stated by EditorApi.ClassifyResponse |
| EditorApi.ListProjectsCall | apps/web/src/lib/cloud-sync/editor-api.ts:229-252 | stated by EditorApi.EditorEndpointCalls and EditorQueries.ListProjectsParams |
| EditorApi.GetProjectCall | apps/web/src/lib/cloud-sync/editor-api.ts:253-264 | stated by EditorApi.EditorEndpointCalls |
| EditorApi.PutProjectCall | apps/web/src/lib/cloud-sync/editor-api.ts:265-279 | stated by EditorApi.EditorEndpointCalls |
| EditorApi.DeleteProjectCall | apps/web/src/lib/cloud-sync/editor-api.ts:280-291 | stated by EditorApi.EditorEndpointCalls |
| EditorApi.CreateFileUploadCall | apps/web/src/lib/cloud-sync/editor-api.ts:292-304 | stated by EditorApi.EditorEndpointCalls |
| EditorApi.ListFilesCall | apps/web/src/lib/cloud-sync/editor-api.ts:329-349 | stated by EditorApi.EditorEndpointCalls and EditorQueries.ListFilesParams |
| EditorApi.SignFileByKeyCall | apps/web/src/lib/cloud-sync/editor-api.ts:350-368 | stated by EditorApi.EditorEndpointCalls and EditorQueries.SignFileByKeyParams |
| EditorApi.EditorEndpointCalls | apps/web/src/lib/cloud-sync/editor-api.ts:229-368 | the list, file and sign endpoints are GETs of their query paths; one project is read, replaced or deleted at `/editor/projects/<id>`; only the PUT and the upload request carry a body, the given payload |
| EditorApi.RefreshCount | apps/web/src/lib/cloud-sync/editor-api.ts:183 | the number of refresh requests, never more than were sent |
| EditorApi.AuthRequestCountsNothing | apps/web/src/lib/cloud-sync/editor-api.ts:150 | an auth-client request other than the refresh changes neither count |
| EditorApi.EditorRequestCounts | apps/web/src/lib/cloud-sync/editor-api.ts:168-177 | an editor request adds itself to the editor requests and nothing to the refreshes |
| EditorApi.RefreshCounts | apps/web/src/lib/cloud-sync/editor-api.ts:183 | a refresh adds one refresh and no editor request |
| EditorApi.WorkspacesIsNotRefresh | apps/web/src/lib/cloud-sync/editor-api.ts:150 | the workspaces request is never taken for a refresh |
| EditorApi.ResolveCounts | apps/web/src/lib/cloud-sync/editor-api.ts:140-160 | resolving a workspace sends no editor request and no refresh |
| EditorApi.RunRequestCounts | apps/web/src/lib/cloud-sync/editor-api.ts:162-178 | one attempt sends exactly one editor request with the resolved workspace when resolution succeeds, otherwise none, and no refresh |
| EditorApi.WorldWithoutRefresh | apps/web/src/lib/cloud-sync/editor-api.ts:180-181 | without a first 401 the pipeline ends in the first attempt's world |
| EditorApi.WorldAfterFailedRefresh | apps/web/src/lib/cloud-sync/editor-api.ts:182-191 | a failed refresh adds only the refresh request to the first attempt's world |
| EditorApi.WorldAfterRetry | apps/web/src/lib/cloud-sync/editor-api.ts:182-185 | after a successful refresh, the retry starts from the log with the refresh added and ends in the retry's world |
| EditorApi.RetryThrowExpires | apps/web/src/lib/cloud-sync/editor-api.ts:180-191 | a retry that throws after a successful refresh is caught and becomes "Session expired" (401), with exactly one refresh |
| EditorApi.EmptyWorkspaceListFails | apps/web/src/lib/cloud-sync/editor-api.ts:150-157 | with no cached workspace and an empty list, the call fails with "No workspace available" (400), leaves storage alone and sends no editor request |
| EditorApi.RetryReachedWhenSucceeded | apps/web/src/lib/cloud-sync/editor-api.ts:180-192 | a success after a first 401 means that the refresh and the retry both succeeded |
| EditorApi.PipelineBounds | apps/web/src/lib/cloud-sync/editor-api.ts:180-192 | at most one refresh, and there is one iff the first attempt got a 401; at most two editor requests |
| EditorApi.RetryAfterRefresh | apps/web/src/lib/cloud-sync/editor-api.ts:180-192 | a successful call after a 401 sent the request twice, first with the old token and then with the refreshed one, which the session now holds |
| EditorApi.RefreshFailureExpiresSession | apps/web/src/lib/cloud-sync/editor-api.ts:186-191 | a failed refresh gives "Session expired" (401), the session is unchanged and the refresh is the last request |
| EditorApi.SecondUnauthorizedIsFinal | apps/web/src/lib/cloud-sync/editor-api.ts:180-222 | a 401 on the retry is an EditorSyncError with status 401, with no second refresh |
| EditorApi.NoRefreshWithoutUnauthorized | apps/web/src/lib/cloud-sync/editor-api.ts:180-225 | without a 401 the result is the classification of the first response, with no refresh and the session unchanged |
| EditorApi.CachedWorkspaceIsUsed | apps/web/src/lib/cloud-sync/editor-api.ts:145-148 | with a cached workspace, every editor request carries it and the storage is unchanged |
| EditorApi.EditorRequestsPrefix | apps/web/src/lib/cloud-sync/editor-api.ts:162-178 | extending the log only extends the editor requests |
| EditorApi.FirstRequestIsTheCall | apps/web/src/lib/cloud-sync/editor-api.ts:167-180 | a successful call's first new editor request is that call, with the caller's token |
| EditorApi.ConflictCarriesServerVersion | apps/web/src/lib/cloud-sync/editor-api.ts:199-213 | a conflict body without a message gives the default message, the server version and the timestamp |
| EditorQueries.ListProjectsPath | apps/web/src/lib/cloud-sync/editor-api.ts:240-248 | `/editor/projects?` and the query; stated by EditorQueries.ListProjectsParams |
| EditorQueries.ListFilesPath | apps/web/src/lib/cloud-sync/editor-api.ts:338-345 | `/files?` and the query; stated by EditorQueries.ListFilesParams |
| EditorQueries.SignFileByKeyPath | apps/web/src/lib/cloud-sync/editor-api.ts:359-364 | `/files/sign?` and the query; stated by EditorQueries.SignFileByKeyParams |
| EditorQueries.ListProjectsParams | apps/web/src/lib/cloud-sync/editor-api.ts:229-248 | offset (default 0), then limit (default 50), then search when non-empty |
| EditorQueries.ListFilesParams | apps/web/src/lib/cloud-sync/editor-api.ts:329-345 | limit (default 100), then search when non-empty |
| EditorQueries.SignFileByKeyParams | apps/web/src/lib/cloud-sync/editor-api.ts:350-364 | the key, then redirect as "true" or "false" (default false) |
| EditorQueries.ListProjectsDefaults | apps/web/src/lib/cloud-sync/editor-api.ts:231-232 | the defaults give `offset=0&limit=50` |
| EditorQueries.ListFilesDefaults | apps/web/src/lib/cloud-sync/editor-api.ts:331 | the default gives `limit=100` |
| UrlSearch.Set | apps/web/src/lib/cloud-sync/editor-api.ts:244-246 | `params.set`: the pair is present afterwards and is the only pair with that name; every pair with another name is kept and none is added; a new name is appended |
| UrlSearch.SetReplacesFirst | apps/web/src/lib/cloud-sync/editor-api.ts:244-246 | the new pair takes the place of the first pair with that name, and the pairs before it are unchanged |
| UrlSearch.RemoveAll | apps/web/src/lib/cloud-sync/editor-api.ts:244-246 | keeps exactly the pairs with another name |
| UrlSearch.Serialize | apps/web/src/lib/cloud-sync/editor-api.ts:248 | `toString`: the pairs joined by `&`; its encoding is stated by UrlSearch.EncodedHasNoSeparators and UrlSearch.EncodeUnreserved |
| UrlSearch.EncodedHasNoSeparators | apps/web/src/lib/cloud-sync/editor-api.ts:248 | an encoded name or value holds no `&` or `=` |
| UrlSearch.EncodeUnreserved | apps/web/src/lib/cloud-sync/editor-api.ts:248 | text made of unreserved characters is serialised as it is |
| Text.ParseIntToString | apps/web/src/lib/cloud-sync/editor-api.ts:241 | `String(n)` reads back as n |
| Text.IntToStringInjective | apps/web/src/lib/cloud-sync/editor-api.ts:241 | different numbers render differently |
| Http.ParsedBody | apps/web/src/lib/cloud-sync/editor-api.ts:194-196 | a body that does not parse reads as `null` |
| Http.JsonRequestBody | apps/web/src/lib/cloud-sync/editor-api.ts:176 | a JSON body is sent iff the value is truthy, and it is that value |
| Http.Network.Fetch | apps/web/src/lib/cloud-sync/editor-api.ts:168 | the request is logged, and the reply is the oracle's answer to it |
| Errors.ErrorMessage | apps/web/src/stores/auth-store.ts:91 | only an Error has a message |
| EditorMapper.ParseDate | apps/web/src/lib/cloud-sync/editor-mapper.ts:101-102 | a date is invalid iff its text does not parse |
| EditorMapper.ParseIsoText | apps/web/src/lib/cloud-sync/editor-mapper.ts:46-102 | a rendered date parses back to the same instant |
| EditorMapper.DateToJson | apps/web/src/lib/cloud-sync/editor-mapper.ts:19-27 | an invalid date serialises as null |
| EditorMapper.StripAudioBuffers | apps/web/src/lib/cloud-sync/editor-mapper.ts:7-17 | non-audio tracks are unchanged; audio tracks keep everything but lose each element's buffer, in order |
| EditorMapper.StripLeavesNoAudioBuffer | apps/web/src/lib/cloud-sync/editor-mapper.ts:7-17 | no audio element keeps a buffer, and stripping twice is stripping once |
| EditorMapper.BuildEditorProjectState | apps/web/src/lib/cloud-sync/editor-mapper.ts:29-51 | fails with a RangeError iff `updatedAt` is invalid; otherwise the version, metadata, settings and scenes in order, without audio buffers |
| EditorMapper.BuildLocalProjectFromCloudState | apps/web/src/lib/cloud-sync/editor-mapper.ts:69-109 | the id and the dates come from the arguments; a non-array of bookmarks becomes `[]`; the version is at least 1 |
| EditorMapper.RoundTrip | apps/web/src/lib/cloud-sync/editor-mapper.ts:29-109 | restoring a built snapshot gives back the scenes, settings, name, duration, `updatedAt` and version, with only the audio buffers and invalid scene dates lost |
| EditorMapper.Distinct | apps/web/src/lib/cloud-sync/editor-mapper.ts:53-67 | first-occurrence deduplication; stated by EditorMapper.DistinctMembers, DistinctHasNoRepeats and DistinctOfPrefix |
| EditorMapper.StripTrack | apps/web/src/lib/cloud-sync/editor-mapper.ts:7-17 | stated by EditorMapper.StripAudioBuffers |
| EditorMapper.WireSceneOf | apps/web/src/lib/cloud-sync/editor-mapper.ts:29-51 | stated by EditorMapper.RoundTrip |
| EditorMapper.RestoreDate | apps/web/src/lib/cloud-sync/editor-mapper.ts:82-92 | a scene date is parsed from its text, or is the restore time when absent; stated by EditorMapper.RoundTrip |
| EditorMapper.SceneOf | apps/web/src/lib/cloud-sync/editor-mapper.ts:83-93 | stated by EditorMapper.RoundTrip |
| EditorMapper.DistinctMembers | apps/web/src/lib/cloud-sync/editor-mapper.ts:53-67 | deduplication keeps exactly the same values |
| EditorMapper.DistinctHasNoRepeats | apps/web/src/lib/cloud-sync/editor-mapper.ts:53-67 | deduplication leaves no repeats |
| EditorMapper.DistinctOfPrefix | apps/web/src/lib/cloud-sync/editor-mapper.ts:53-67 | the order of first occurrence is kept |
| EditorMapper.ElementMediaIdsMembers | apps/web/src/lib/cloud-sync/editor-mapper.ts:58-62 | an id is collected iff some element references it |
| EditorMapper.TrackMediaIdsMembers | apps/web/src/lib/cloud-sync/editor-mapper.ts:57-63 | the same, over tracks |
| EditorMapper.SceneMediaIdsMembers | apps/web/src/lib/cloud-sync/editor-mapper.ts:56-64 | the same, over scenes |
| EditorMapper.AssetFileIdsAreTheTimelinesMedia | apps/web/src/lib/cloud-sync/editor-mapper.ts:53-67 | the extracted ids are exactly the media ids the timeline references, without repeats |
| EditorMapper.AddElementIds | apps/web/src/lib/cloud-sync/editor-mapper.ts:58-62 | the loop continues the first-occurrence deduplication over one track's elements |
| EditorMapper.AddTrackIds | apps/web/src/lib/cloud-sync/editor-mapper.ts:57-63 | the same over one scene's tracks |
| EditorMapper.ExtractAssetFileIds | apps/web/src/lib/cloud-sync/editor-mapper.ts:53-67 | the method returns the distinct media ids in order of first occurrence |
| MigrationRunner.GetProjectVersion | apps/web/src/services/storage/migrations/runner.ts:78-94 | a numeric version is used; otherwise 1 iff there is a non-empty scenes array, else 0 |
| MigrationRunner.Insert | apps/web/src/services/storage/migrations/runner.ts:37 | insertion adds exactly that migration |
| MigrationRunner.SortByFrom | apps/web/src/services/storage/migrations/runner.ts:37 | the ordering is a permutation |
| MigrationRunner.InsertSorted | apps/web/src/services/storage/migrations/runner.ts:37 | insertion keeps the order by `from` |
| MigrationRunner.InsertStable | apps/web/src/services/storage/migrations/runner.ts:37 | insertion keeps migrations with equal `from` in list order |
| MigrationRunner.SortByFromIsStableSort | apps/web/src/services/storage/migrations/runner.ts:37 | the ordering is sorted by `from`, a permutation and stable |
| MigrationRunner.Walk | apps/web/src/services/storage/migrations/runner.ts:45-72 | the inner loop over one record; stated by MigrationRunner.WalkBounds, WalkChain and WalkWritesCarryIds |
| MigrationRunner.RunPrefix | apps/web/src/services/storage/migrations/runner.ts:40-73 | the outer loop over the records; stated by MigrationRunner.ThrownIsFinal, RunBound, NonObjectsAreSkipped and RunWritesCarryIds |
| MigrationRunner.WalkBounds | apps/web/src/services/storage/migrations/runner.ts:49-72 | each migration is applied at most once per record, in increasing position |
| MigrationRunner.WalkChain | apps/web/src/services/storage/migrations/runner.ts:49-72 | the first applied migration starts at the record's version, and each next one starts where the previous ended, working on its output |
| MigrationRunner.WalkWritesCarryIds | apps/web/src/services/storage/migrations/runner.ts:61-67 | every write is stored under the record's own non-empty id |
| MigrationRunner.ThrownIsFinal | apps/web/src/services/storage/migrations/runner.ts:40-73 | after the first failure, later records add nothing |
| MigrationRunner.RunBound | apps/web/src/services/storage/migrations/runner.ts:40-71 | at most one write per migration per record |
| MigrationRunner.NonObjectsAreSkipped | apps/web/src/services/storage/migrations/runner.ts:41-43 | records that are not objects are skipped with no write |
| MigrationRunner.RunWritesCarryIds | apps/web/src/services/storage/migrations/runner.ts:61-67 | every write of the run is under the record's own id |
| MigrationRunner.ProjectsAdapter.constructor | apps/web/src/services/storage/migrations/runner.ts:30-35 | the adapter starts with the given entries and no writes |
| MigrationRunner.ProjectsAdapter.Set | apps/web/src/services/storage/migrations/runner.ts:66 | stores the record under its id and logs the write |
| MigrationRunner.MigrationRunner.constructor | apps/web/src/services/storage/migrations/runner.ts:13 | the cleanup flag starts unset |
| MigrationRunner.MigrationRunner.CleanUpMetaDb | apps/web/src/services/storage/migrations/runner.ts:20-28 | the legacy database is deleted at most once, whether or not the delete throws |
| MigrationRunner.MigrationRunner.RunStorageMigrations | apps/web/src/services/storage/migrations/runner.ts:15-76 | cleans up once, then writes exactly the writes of the run over the stably sorted migrations; returns their count, or the first error |
| MigrationRunner.MigrateRecord | apps/web/src/services/storage/migrations/runner.ts:45-72 | the loop over one record performs exactly the walk's writes |
| MigrationRunner.MigrateAll | apps/web/src/services/storage/migrations/runner.ts:40-75 | the loop over all records performs exactly the run's writes and returns its count or error |
| MigrationRunner.ApplyWritesConcat | apps/web/src/services/storage/migrations/runner.ts:66 | applying writes in two batches is applying them at once |
| MigrationRunner.TwoStepUpgrade | apps/web/src/services/storage/migrations/runner.ts:37-73 | a version-0 record given the migrations in reverse order goes through 0 to 1 to 2 |
| Middleware.Gate | apps/web/src/middleware.ts:6-26 | passes public paths and requests with the refresh cookie; any other request is redirected to /auth/login with `next` set to the path and query |
| Middleware.IsPublicPath | apps/web/src/middleware.ts:3-10 | stated by Middleware.PublicPathCases and PrefixLookalikesArePublic |
| Middleware.PublicPathCases | apps/web/src/middleware.ts:3-4 | the public paths are the three exact paths and the three prefixes |
| Middleware.RedirectTargetIsPublic | apps/web/src/middleware.ts:18-23 | the login page is public, so following the redirect does not redirect again |
| Middleware.PrefixLookalikesArePublic | apps/web/src/middleware.ts:8-10 | the prefix test is a plain `startsWith`: `/authorize` is public, `/projects` is not |
| Media.FindAsset | apps/web/src/core/managers/media-manager.ts:49 | found iff some asset has the id; the found asset is the first one with the id |
| Media.WithoutId | apps/web/src/core/managers/media-manager.ts:60-62 | keeps exactly the assets with another id |
| Media.ReplaceById | apps/web/src/core/managers/media-manager.ts:223-225 | same length; only the entries with the id are replaced |
| Media.AssetIds | apps/web/src/core/managers/media-manager.ts:114 | the ids of the assets, in order |
| Media.WithoutIdAppend | apps/web/src/core/managers/media-manager.ts:37 | filtering distributes over concatenation |
| Media.WithoutAbsentId | apps/web/src/core/managers/media-manager.ts:37 | filtering an absent id changes nothing |
| Media.RollbackRestores | apps/web/src/core/managers/media-manager.ts:29-37 | rolling back a failed save restores the list from before the add |
| Media.FindAfterReplace | apps/web/src/core/managers/media-manager.ts:213-225 | after the merge, finding the id gives the synced asset |
| Media.TrackRefs | apps/web/src/core/managers/media-manager.ts:68-71 | one reference per referencing element at most |
| Media.TrackRefsMembership | apps/web/src/core/managers/media-manager.ts:68-71 | a track contributes exactly its elements that reference the id |
| Media.ElementsReferencing | apps/web/src/core/managers/media-manager.ts:64-73 | stated by Media.ElementsReferencingMembership and NothingToDelete |
| Media.ElementsReferencingMembership | apps/web/src/core/managers/media-manager.ts:64-73 | the collected references are exactly the elements of any track that reference the id |
| Media.NothingToDelete | apps/web/src/core/managers/media-manager.ts:64-77 | nothing is deleted iff no element references the id |
| Media.RevokedOnRemove | apps/web/src/core/managers/media-manager.ts:53-58 | nothing is revoked unless the asset has a URL; then its URL and thumbnail are revoked |
| Media.RevokedOf | apps/web/src/core/managers/media-manager.ts:53-58 | exactly the non-empty URL and thumbnail URL |
| Media.RevokedOnClear | apps/web/src/core/managers/media-manager.ts:105-112 | stated by Media.RevokedOnClearMembership |
| Media.RevokedOnClearMembership | apps/web/src/core/managers/media-manager.ts:105-112 | clearing revokes exactly the URLs some asset holds |
| Media.DeleteRequests | apps/web/src/core/managers/media-manager.ts:118-123 | one delete per asset id, in order |
| Media.UploadFileName | apps/web/src/core/managers/media-manager.ts:182 | `<projectId>__<mediaId>__<name>`, piece by piece |
| Media.ContentType | apps/web/src/core/managers/media-manager.ts:189 | the file's type, or `application/octet-stream` when it is empty |
| Media.UploadPayload | apps/web/src/core/managers/media-manager.ts:187-191 | file name, content type and size |
| Media.UploadSlotOf | apps/web/src/core/managers/media-manager.ts:195-209 | a null response is a TypeError; usable iff the upload URL is a string; the id and key are read as given |
| Media.ListedItems | apps/web/src/core/managers/media-manager.ts:207 | the listed items when `items` is an array |
| Media.MatchedFileId | apps/web/src/core/managers/media-manager.ts:207-210 | it can only fail with a TypeError |
| Media.MatchedFirst | apps/web/src/core/managers/media-manager.ts:207-210 | the first item with the key gives its id, or "" |
| Media.MatchedNone | apps/web/src/core/managers/media-manager.ts:207-210 | with no item matching, the id is "" |
| Media.MatchedHitsNull | apps/web/src/core/managers/media-manager.ts:207-208 | a null item before any match throws |
| Media.CloudIdSpec | apps/web/src/core/managers/media-manager.ts:200-211 | an id from the upload is used with no request; the recovery only extends the log |
| Media.PutAndRecoverSpec | apps/web/src/core/managers/media-manager.ts:194-211 | the file PUT is the first request after the upload slot |
| Media.TransferSpec | apps/web/src/core/managers/media-manager.ts:185-211 | only extends the log |
| Media.SyncedAsset | apps/web/src/core/managers/media-manager.ts:216-221 | keeps the asset's own fields; the id is set iff truthy; the key and the sync time are set |
| Media.SyncSpec | apps/web/src/core/managers/media-manager.ts:167-236 | no token, no asset or an asset already synced does nothing; otherwise the log only grows and a synced asset keeps the asset's fields with the sync time |
| Media.SyncedCloudFields | apps/web/src/core/managers/media-manager.ts:185-221 | a synced asset's key is the upload slot's key; its id is the slot's id when present, else the one recovered by listing after a successful PUT, stored only when truthy |
| Media.SyncRanTransfer | apps/web/src/core/managers/media-manager.ts:174-211 | a sync happened only with a token and a found asset, after a successful transfer |
| Media.TransferRanUpload | apps/web/src/core/managers/media-manager.ts:185-198 | a successful transfer got an upload slot and then sent the file PUT |
| Media.UploadRequestFirst | apps/web/src/core/managers/media-manager.ts:185-192 | the first editor request of a sync is the upload-slot request with the session token |
| Media.PresignedPutFollows | apps/web/src/core/managers/media-manager.ts:194-198 | the request right after the upload pipeline is the file PUT to the slot's URL |
| Media.IdRecoveredByKey | apps/web/src/core/managers/media-manager.ts:200-211 | without an id, the first listed file with the key gives the cloud id |
| Media.SecondSyncIsNoop | apps/web/src/core/managers/media-manager.ts:177-180 | once synced with an id or key, a second sync does nothing and sends nothing |
| Media.EditorCore.constructor | apps/web/src/core/managers/media-manager.ts:15 | the editor starts with the given tracks |
| Media.EditorCore.MarkDirty | apps/web/src/core/managers/media-manager.ts:227 | one more dirty mark; nothing else changes |
| Media.EditorCore.DeleteElements | apps/web/src/core/managers/media-manager.ts:75-77 | the deletion batch is recorded |
| Media.MediaStorage.constructor | apps/web/src/core/managers/media-manager.ts:3 | the store starts with no saves and no deletes |
| Media.MediaStorage.SaveMediaAsset | apps/web/src/core/managers/media-manager.ts:33 | the save is logged, and it succeeds as the oracle says |
| Media.MediaStorage.DeleteMediaAsset | apps/web/src/core/managers/media-manager.ts:80 | the delete is logged, and it succeeds as the oracle says |
| Media.MediaStorage.LoadAllMediaAssets | apps/web/src/core/managers/media-manager.ts:91 | returns what the store holds for the project |
| Media.ObjectUrls.constructor | apps/web/src/core/managers/media-manager.ts:54 | nothing is revoked yet |
| Media.ObjectUrls.Revoke | apps/web/src/core/managers/media-manager.ts:54-56 | the URL is recorded as revoked |
| Media.CollectTrackRefs | apps/web/src/core/managers/media-manager.ts:68-71 | the inner loop appends the track's references |
| Media.CollectRefs | apps/web/src/core/managers/media-manager.ts:64-73 | the loops collect ElementsReferencing |
| Media.RevokeRemoved | apps/web/src/core/managers/media-manager.ts:53-58 | revokes RevokedOnRemove |
| Media.DeleteReferencingElements | apps/web/src/core/managers/media-manager.ts:64-77 | one deletion batch, unless no element references the id |
| Media.RevokeAll | apps/web/src/core/managers/media-manager.ts:105-112 | revokes RevokedOnClear |
| Media.DeleteAll | apps/web/src/core/managers/media-manager.ts:118-123 | deletes every id in order |
| Media.Transfer | apps/web/src/core/managers/media-manager.ts:185-211 | the effect equals TransferSpec |
| Media.PutAndRecover | apps/web/src/core/managers/media-manager.ts:194-211 | the effect equals PutAndRecoverSpec |
| Media.RecoverCloudFileId | apps/web/src/core/managers/media-manager.ts:200-211 | the effect equals CloudIdSpec |
| Media.SyncTransfer | apps/web/src/core/managers/media-manager.ts:174-221 | the effect equals SyncSpec, and a result is returned iff the sync produced an asset, which is SyncedAsset |
| Media.MediaManager.constructor | apps/web/src/core/managers/media-manager.ts:10-15 | no assets, not loading, no listeners |
| Media.MediaManager.Notify | apps/web/src/core/managers/media-manager.ts:163-165 | one more notification; nothing else changes |
| Media.MediaManager.AddMediaAsset | apps/web/src/core/managers/media-manager.ts:17-40 | the asset with the fresh id is appended and saved; a failed save rolls it back; one or two notifications |
| Media.MediaManager.RemoveMediaAsset | apps/web/src/core/managers/media-manager.ts:42-84 | revokes the URLs, drops the asset, deletes the referencing elements, marks dirty, deletes from storage and notifies once |
| Media.MediaManager.LoadProjectMedia | apps/web/src/core/managers/media-manager.ts:86-102 | the loaded list replaces the assets, or a failure keeps them; loading ends false |
| Media.MediaManager.ClearProjectMedia | apps/web/src/core/managers/media-manager.ts:104-127 | revokes every URL, deletes every asset from storage and empties the list |
| Media.MediaManager.ClearAllAssets | apps/web/src/core/managers/media-manager.ts:129-143 | revokes every URL and empties the list, with no storage change |
| Media.MediaManager.GetAssets | apps/web/src/core/managers/media-manager.ts:145-147 | returns the assets |
| Media.MediaManager.SetAssets | apps/web/src/core/managers/media-manager.ts:149-152 | replaces the assets and notifies |
| Media.MediaManager.IsLoadingMedia | apps/web/src/core/managers/media-manager.ts:154-156 | returns the loading flag |
| Media.MediaManager.Subscribe | apps/web/src/core/managers/media-manager.ts:158-161 | adds the listener; the returned unsubscribe is Unsubscribe |
| Media.MediaManager.Unsubscribe | apps/web/src/core/managers/media-manager.ts:160 | removes the listener |
| Media.MediaManager.SyncMediaAssetToCloud | apps/web/src/core/managers/media-manager.ts:167-236 | the network and storage effect equals SyncSpec; a synced asset replaces the entry, is saved once, marks dirty once and notifies once; otherwise nothing changes |

## Left out

- The network, the clock and randomness are parameters. Replies come from the `Responder` oracle; `new Date()` is `now` or `nowIso`; `generateUUID()` is the `freshId` argument.
- Concurrency is not modelled. Every `async` call runs to completion in order, so the re-read of the asset list after the uploads in the sync (`latestAsset`) always finds the asset that was found at the start.
- The fire-and-forget sync started by `addMediaAsset` is not chained into AddMediaAsset: it never affects that method's result, and the sync is modelled as its own operation.
- Listener callbacks are only counted (`notifications`) and kept as a set of handles. What a listener does is outside this model.
- Media.MediaManager.SyncMediaAssetToCloud: a failure of the final `saveMediaAsset` is caught, and the merged list, the notification and the dirty mark stay in place. This follows the code rather than the reading that any failure leaves the asset list unchanged.
- Media.SecondSyncIsNoop: requires that the first sync stored an id or a key. A backend response with neither leaves the asset un-synced, so a later sync uploads again.
- Media.UploadSlotOf: an `uploadUrl` that is not a string is modelled as a TypeError before the PUT. The browser would instead try to fetch whatever the value stringifies to.
- ApiClient.AuthSuccessOf: a payload without a string token or an object user is a TypeError. The source would store `undefined` in the session and the store.
- EditorApi.FirstWorkspaceId: a non-array payload, and a first workspace without a string id, are modelled as failures. The source would index or read them as JavaScript does.
- Media.MatchedFileId: JavaScript strict equality on the `key` fields is modelled as value equality of JSON values. This differs only for objects and arrays, which keys never are.
- Media.MediaStorage.LoadAllMediaAssets: storage loads are an oracle, `loadAll`, which is not tied to earlier saves and deletes. IndexedDB and OPFS are outside this model. Saves and deletes fail as the `saveFails` and `deleteFails` oracles say.
- `videoCache.clearVideo` in `removeMediaAsset` is left out: it is a cache with no effect on the manager's state.
- `editor.timeline.deleteElements` and `editor.save.markDirty` are recorded, not executed: the batch of element references and the count of dirty marks. The editor's own timeline logic is outside this model.
- `URL.revokeObjectURL` is the `ObjectUrls.revoked` log.
- `hasMediaId` (timeline element utilities) is an uninterpreted guard, `MediaGuard`. An element is identified by its `mediaId` only when the guard holds.
- The individual endpoint wrappers of `editorCloudApi` (`listProjects`, `getProject`, `putProject`, `deleteProject`, `createFileUpload`, `listFiles`, `signFileByKey`) are modelled as the pipeline `EditorApi.RequestWithAuthRetry` applied to a call value (`ListProjectsCall` and the others) that fixes the path, method and body. Their paths and queries are stated in EditorQueries. Response typing (`as T`) is not checked, as in the source.
- `backendAuthApi.getUserInit`, `getOrganisation` and `getWorkspaces` are modelled as their call values, which are then sent through `ApiClient.Request`.
- ApiClient.TokenOf: a 2xx refresh reply without a string `token` (but not `null`) is modelled as a failed refresh, so the call ends in "Session expired". The source instead stores that value (`undefined`) in the session and retries with `Bearer undefined` (editor-api.ts:183-185).
- ApiClient.NewBackendAuthError: the message is kept as the JSON value the payload held. The source passes it to `Error`, which turns a non-string message into its text.
- MigrationRunner.ProjectsAdapter.Set: the IndexedDB reads and writes cannot fail in this model. In the source, a rejected `getAll` or `set` rejects `runStorageMigrations` (runner.ts:35, 66).
- Dates in the mapper are integer milliseconds, rendered as decimal text. ISO-8601 formatting and time zones are left out; only valid versus invalid matters to the mapper.
- JSON numbers are integers: no fractions, NaN or infinities.
- `JSON.parse(JSON.stringify(...))`, the deep clone in `toPlainJson`, is the identity on the JSON values modelled here.
- The URL query encoding follows `application/x-www-form-urlencoded` on UTF-8 bytes. It is stated only as far as the lemmas use it: no separator leaks, and unreserved text is kept.
- The migrations' own transforms and the project id reader are parameters (`Transform`, `IdOf`). The individual migrations are not part of this model.
- The zustand store wiring (`create`, `get`, `set`) is the `AuthStore.AuthStore` class with plain fields.
- Middleware: only the decision is modelled. Next.js request and response objects and the route matcher configuration are left out.
- The test files were not turned into lemmas one by one. `api-client.test.ts` describes an API that the current client no longer has.
