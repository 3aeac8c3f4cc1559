/** auth-store.ts: the authentication state machine. The store moves between idle, loading,
    authenticated and unauthenticated, and keeps the session's token slot in step with it. */
module AuthStore {
  import opened Wrappers
  import opened Json
  import opened Errors
  import opened Http
  import ApiClient
  import Session

  datatype AuthStatus = Idle | Loading | Authenticated | Unauthenticated

  /** The store's data fields; `None` is `null`. */
  datatype AuthState = AuthState(user: Option<Json>, status: AuthStatus, isInitialized: bool, error: Option<Json>)

  /** What the store holds before any action. */
  const InitialState := AuthState(None, Idle, false, None)

  /** The invariant the store keeps: an authenticated store has a user and is initialized. */
  predicate Consistent(s: AuthState) {
    s.status == Authenticated ==> s.user.Some? && s.isInitialized
  }

  /** An action's effect: what it throws (`None` when it resolves), the store's fields, the
      session's token slot and the network log afterwards. */
  datatype AuthStep = AuthStep(thrown: Option<Thrown>, state: AuthState, token: Option<string>, log: seq<HttpRequest>)

  /** The fields `setAuthenticatedState` writes. */
  function AuthenticatedState(user: Json): (s: AuthState)
    ensures s.status == Authenticated && s.user == Some(user) && s.isInitialized && s.error.None?
    ensures Consistent(s)
  {
    AuthState(Some(user), Authenticated, true, None)
  }

  /** The fields `clearAuthState` writes. */
  const ClearedState := AuthState(None, Unauthenticated, true, None)

  /** The outcome of one backend call whose response carries `{token, user}`. */
  function SignInResponse(respond: Responder, configuredBase: Option<string>, log: seq<HttpRequest>,
                          call: ApiClient.AuthCall): (r: Result<ApiClient.AuthSuccess, Thrown>)
    ensures ApiClient.RequestSpec(respond, configuredBase, log, call).result.Failure? ==>
      r == Failure(ApiClient.RequestSpec(respond, configuredBase, log, call).result.error)
    ensures ApiClient.RequestSpec(respond, configuredBase, log, call).result.Success? ==>
      r == ApiClient.AuthSuccessOf(ApiClient.RequestSpec(respond, configuredBase, log, call).result.value)
  {
    var step := ApiClient.RequestSpec(respond, configuredBase, log, call);
    if step.result.Failure? then Failure(step.result.error) else ApiClient.AuthSuccessOf(step.result.value)
  }

  /** `initialize`: a no-op while initialized or loading; otherwise one refresh call, after which
      the store is authenticated with the new token stored, or unauthenticated with the slot
      cleared. It never throws. */
  function InitializeSpec(respond: Responder, configuredBase: Option<string>, log: seq<HttpRequest>,
                          s: AuthState, token: Option<string>): (o: AuthStep)
    ensures s.isInitialized || s.status == Loading ==> o == AuthStep(None, s, token, log)
    ensures !(s.isInitialized || s.status == Loading) ==>
      var r := SignInResponse(respond, configuredBase, log, ApiClient.RefreshCall());
      && o.thrown.None?
      && o.log == log + [ApiClient.RequestOf(configuredBase, ApiClient.RefreshCall())]
      && o.state.isInitialized
      && (r.Success? ==> o.state == AuthenticatedState(r.value.user) && o.token == Some(r.value.token))
      && (r.Failure? ==> o.state == ClearedState && o.token.None?)
  {
    if s.isInitialized || s.status == Loading then AuthStep(None, s, token, log)
    else
      var call := ApiClient.RefreshCall();
      var r := SignInResponse(respond, configuredBase, log, call);
      var sent := log + [ApiClient.RequestOf(configuredBase, call)];
      if r.Success? then AuthStep(None, AuthenticatedState(r.value.user), Some(r.value.token), sent)
      else AuthStep(None, ClearedState, None, sent)
  }

  /** The message a failed login or register records: the error's own message, or the
      fallback when what was thrown is not an `Error`. */
  function FailureMessage(t: Thrown, fallback: string): (m: Json)
    ensures ErrorMessage(t).Some? ==> m == ErrorMessage(t).value
    ensures t.NotAnError? ==> m == JStr(fallback)
  {
    ErrorMessage(t).GetOr(JStr(fallback))
  }

  /** The shared body of `login` and `register`: one call; success authenticates and stores the
      token; failure clears the store and the slot, records the message and rethrows. */
  function SignInSpec(respond: Responder, configuredBase: Option<string>, log: seq<HttpRequest>,
                      call: ApiClient.AuthCall, fallback: string): (o: AuthStep)
    ensures o.log == log + [ApiClient.RequestOf(configuredBase, call)]
    ensures var r := SignInResponse(respond, configuredBase, log, call);
      && (r.Success? ==> o == AuthStep(None, AuthenticatedState(r.value.user), Some(r.value.token), o.log))
      && (r.Failure? ==>
            && o.thrown == Some(r.error)
            && o.state == ClearedState.(error := Some(FailureMessage(r.error, fallback)))
            && o.token.None?)
  {
    var r := SignInResponse(respond, configuredBase, log, call);
    var sent := log + [ApiClient.RequestOf(configuredBase, call)];
    if r.Success? then AuthStep(None, AuthenticatedState(r.value.user), Some(r.value.token), sent)
    else AuthStep(Some(r.error), ClearedState.(error := Some(FailureMessage(r.error, fallback))), None, sent)
  }

  function LoginSpec(respond: Responder, configuredBase: Option<string>, log: seq<HttpRequest>,
                     username: string, password: string): (o: AuthStep)
    ensures o.log == log + [ApiClient.RequestOf(configuredBase, ApiClient.LoginCall(username, password))]
    ensures o.thrown.None? <==> o.state.status == Authenticated
    ensures o.thrown.None? ==> o.token.Some? && o.state.error.None?
    ensures o.thrown.Some? ==> o.token.None? && o.state.user.None? && o.state.isInitialized
    ensures o.thrown.Some? && o.thrown.value.NotAnError? ==> o.state.error == Some(JStr("Login failed"))
  {
    SignInSpec(respond, configuredBase, log, ApiClient.LoginCall(username, password), "Login failed")
  }

  /** `register` passes no role, so the backend call carries the default role. */
  function RegisterSpec(respond: Responder, configuredBase: Option<string>, log: seq<HttpRequest>,
                        email: string, firstname: string, lastname: string, password: string,
                        organisationName: Option<string>): (o: AuthStep)
    ensures o.log == log + [ApiClient.RequestOf(configuredBase,
      ApiClient.RegisterCall(email, firstname, lastname, password, None, organisationName))]
    ensures o.thrown.None? <==> o.state.status == Authenticated
    ensures o.thrown.None? ==> o.token.Some? && o.state.error.None?
    ensures o.thrown.Some? ==> o.token.None? && o.state.user.None? && o.state.isInitialized
    ensures o.thrown.Some? && o.thrown.value.NotAnError? ==> o.state.error == Some(JStr("Registration failed"))
  {
    SignInSpec(respond, configuredBase, log,
      ApiClient.RegisterCall(email, firstname, lastname, password, None, organisationName), "Registration failed")
  }

  /** `logout`: one call whose failure is swallowed; the store and the slot are cleared either way. */
  function LogoutSpec(configuredBase: Option<string>, log: seq<HttpRequest>): (o: AuthStep)
    ensures o == AuthStep(None, ClearedState, None, log + [ApiClient.RequestOf(configuredBase, ApiClient.LogoutCall())])
  {
    AuthStep(None, ClearedState, None, log + [ApiClient.RequestOf(configuredBase, ApiClient.LogoutCall())])
  }

  /** The store, with the zustand plumbing reduced to fields its actions assign. */
  class AuthStore {
    var user: Option<Json>
    var status: AuthStatus
    var isInitialized: bool
    var error: Option<Json>

    function State(): AuthState
      reads this
    {
      AuthState(user, status, isInitialized, error)
    }

    predicate Valid()
      reads this
    {
      Consistent(State())
    }

    constructor ()
      ensures State() == InitialState && Valid()
    {
      user := None;
      status := Idle;
      isInitialized := false;
      error := None;
    }

    /** `setAuthenticatedState`. */
    method SetAuthenticatedState(session: Session.AuthSession, token: string, user: Json)
      modifies this, session
      ensures State() == AuthenticatedState(user) && session.accessToken == Some(token)
      ensures Valid()
    {
      session.SetToken(token);
      this.user := Some(user);
      status := Authenticated;
      isInitialized := true;
      error := None;
    }

    /** `clearAuthState`. */
    method ClearAuthState(session: Session.AuthSession)
      modifies this, session
      ensures State() == ClearedState && session.accessToken.None?
      ensures Valid()
    {
      session.Clear();
      user := None;
      status := Unauthenticated;
      isInitialized := true;
      error := None;
    }

    method Initialize(net: Network, configuredBase: Option<string>, session: Session.AuthSession)
      modifies this, net, session
      ensures AuthStep(None, State(), session.accessToken, net.log) ==
        InitializeSpec(net.respond, configuredBase, old(net.log), old(State()), old(session.accessToken))
      ensures old(Valid()) ==> Valid()
    {
      if isInitialized || status == Loading {
        return;
      }
      status := Loading;
      error := None;
      var r := ApiClient.Request(net, configuredBase, ApiClient.RefreshCall());
      var auth := if r.Failure? then Failure(r.error) else ApiClient.AuthSuccessOf(r.value);
      if auth.Success? {
        SetAuthenticatedState(session, auth.value.token, auth.value.user);
      } else {
        ClearAuthState(session);
      }
    }

    method SignIn(net: Network, configuredBase: Option<string>, session: Session.AuthSession,
                  call: ApiClient.AuthCall, fallback: string) returns (thrown: Option<Thrown>)
      modifies this, net, session
      ensures AuthStep(thrown, State(), session.accessToken, net.log) ==
        SignInSpec(net.respond, configuredBase, old(net.log), call, fallback)
      ensures Valid()
    {
      status := Loading;
      error := None;
      var r := ApiClient.Request(net, configuredBase, call);
      var auth := if r.Failure? then Failure(r.error) else ApiClient.AuthSuccessOf(r.value);
      if auth.Success? {
        SetAuthenticatedState(session, auth.value.token, auth.value.user);
        thrown := None;
      } else {
        var message := FailureMessage(auth.error, fallback);
        ClearAuthState(session);
        error := Some(message);
        thrown := Some(auth.error);
      }
    }

    /** `login`: resolves, or rethrows what the backend call threw. */
    method Login(net: Network, configuredBase: Option<string>, session: Session.AuthSession,
                 username: string, password: string) returns (thrown: Option<Thrown>)
      modifies this, net, session
      ensures AuthStep(thrown, State(), session.accessToken, net.log) ==
        LoginSpec(net.respond, configuredBase, old(net.log), username, password)
      ensures Valid()
    {
      thrown := SignIn(net, configuredBase, session, ApiClient.LoginCall(username, password), "Login failed");
    }

    method Register(net: Network, configuredBase: Option<string>, session: Session.AuthSession,
                    email: string, firstname: string, lastname: string, password: string,
                    organisationName: Option<string>) returns (thrown: Option<Thrown>)
      modifies this, net, session
      ensures AuthStep(thrown, State(), session.accessToken, net.log) ==
        RegisterSpec(net.respond, configuredBase, old(net.log), email, firstname, lastname, password, organisationName)
      ensures Valid()
    {
      thrown := SignIn(net, configuredBase, session,
        ApiClient.RegisterCall(email, firstname, lastname, password, None, organisationName), "Registration failed");
    }

    method Logout(net: Network, configuredBase: Option<string>, session: Session.AuthSession)
      modifies this, net, session
      ensures AuthStep(None, State(), session.accessToken, net.log) == LogoutSpec(configuredBase, old(net.log))
      ensures Valid()
    {
      status := Loading;
      error := None;
      var _ := ApiClient.Request(net, configuredBase, ApiClient.LogoutCall());
      ClearAuthState(session);
    }

    /** `clearError`: only the error field changes. */
    method ClearError()
      modifies this
      ensures State() == old(State()).(error := None)
      ensures old(Valid()) ==> Valid()
    {
      error := None;
    }
  }

  // Properties of the transitions.

  /** Every action keeps the store consistent. */
  lemma TransitionsKeepConsistency(respond: Responder, configuredBase: Option<string>, log: seq<HttpRequest>,
                                   s: AuthState, token: Option<string>, call: ApiClient.AuthCall, fallback: string)
    requires Consistent(s)
    ensures Consistent(InitializeSpec(respond, configuredBase, log, s, token).state)
    ensures Consistent(SignInSpec(respond, configuredBase, log, call, fallback).state)
    ensures Consistent(LogoutSpec(configuredBase, log).state)
    ensures Consistent(s.(error := None))
  {
  }

  /** After every action that reaches the backend, the store is authenticated exactly when the
      session holds a token, and the store is initialized. */
  lemma SessionFollowsStatus(respond: Responder, configuredBase: Option<string>, log: seq<HttpRequest>,
                             s: AuthState, token: Option<string>, call: ApiClient.AuthCall, fallback: string)
    requires !s.isInitialized && s.status != Loading
    ensures var o := InitializeSpec(respond, configuredBase, log, s, token);
      o.state.isInitialized && (o.state.status == Authenticated <==> o.token.Some?) &&
      (o.state.status == Authenticated || o.state.status == Unauthenticated)
    ensures var o := SignInSpec(respond, configuredBase, log, call, fallback);
      o.state.isInitialized && (o.state.status == Authenticated <==> o.token.Some?) &&
      (o.state.status == Authenticated <==> o.thrown.None?)
    ensures var o := LogoutSpec(configuredBase, log);
      o.state.status == Unauthenticated && o.token.None?
  {
  }

  /** A login answered with a non-2xx status rethrows the `BackendAuthError` built from the
      reply and records its message: the payload's `message` when present, otherwise
      "Request failed with status <n>". */
  lemma {:induction false} FailedLoginKeepsBackendMessage(respond: Responder, configuredBase: Option<string>,
                                                          log: seq<HttpRequest>, username: string, password: string,
                                                          status: int, body: Option<Json>)
    requires respond(|log|, ApiClient.RequestOf(configuredBase, ApiClient.LoginCall(username, password))) ==
      Answered(HttpResponse(status, body))
    requires !IsOk(status)
    ensures var o := LoginSpec(respond, configuredBase, log, username, password);
      var payload := ParsedBody(HttpResponse(status, body));
      var message := ApiClient.Coalesce(Field(payload, "message"), JStr(ApiClient.StatusMessage(status)));
      o.thrown.Some? && o.thrown.value.BackendAuthError? && o.thrown.value.authMessage == message &&
      o.thrown.value.authStatusCode == ApiClient.Coalesce(Field(payload, "statusCode"), JNum(status)) &&
      o.state.error == Some(message) &&
      o.state.status == Unauthenticated && o.state.user.None? && o.token.None?
  {
    var call := ApiClient.LoginCall(username, password);
    var step := ApiClient.RequestSpec(respond, configuredBase, log, call);
    assert step.result.Failure? && step.result.error.BackendAuthError?;
  }

  /** A second `initialize` after one that returned sends nothing and changes nothing. */
  lemma InitializeOnce(respond: Responder, configuredBase: Option<string>, log: seq<HttpRequest>,
                       s: AuthState, token: Option<string>)
    ensures var o := InitializeSpec(respond, configuredBase, log, s, token);
      InitializeSpec(respond, configuredBase, o.log, o.state, o.token) == o
  {
  }
}
