/** The auth provider: one state record `{user, isAuthenticated, isLoading}`
    overwritten by `checkAuth` (on mount and after a login), `login` and
    `logout`. Each network answer is a parameter; router calls are appended
    to `navigations` and sent requests to `requests`. */
module AuthContext {
  import opened Js
  import opened Http
  import opened Session

  /** `user` is JavaScript `null` when it is JNull. */
  datatype AuthState = AuthState(user: Json, isAuthenticated: bool, isLoading: bool)

  /** The state before the mount-time `checkAuth` has answered. */
  const Initial := AuthState(JNull, false, true)

  /** Never half-populated: an unauthenticated state carries no user. */
  predicate Coherent(s: AuthState) {
    !s.isAuthenticated ==> s.user == JNull
  }

  /** The state `checkAuth` writes once its profile request has settled. It overwrites all three
      fields, so nothing of the previous state survives. */
  function AfterCheckAuth(outcome: FetchOutcome): (next: AuthState)
    ensures !next.isLoading
    ensures next.isAuthenticated <==> Resolve(outcome).Some?
    ensures next.isAuthenticated ==> next.user == Resolve(outcome).value
    ensures !next.isAuthenticated ==> next.user == JNull
  {
    match Resolve(outcome)
    case Some(user) => AuthState(user, true, false)
    case None => AuthState(JNull, false, false)
  }

  const LoginFailed := "Login failed"

  /** What `login` rethrows for the answer to its POST, or None when that answer was ok. A non-ok
      answer reads the body: an undecodable body rethrows the decoding error, a `null` body the
      `TypeError` of `null.message`, any other body `message || 'Login failed'`. */
  function LoginError(outcome: FetchOutcome): (thrown: Option<Error>)
    ensures outcome.Rejected? ==> thrown == Some(outcome.error)
    ensures outcome.Resolved? ==> (thrown.None? <==> Ok(outcome.response))
    ensures outcome.Resolved? && !Ok(outcome.response) && outcome.response.body.Malformed? ==>
              thrown == Some(Error(outcome.response.body.reason))
    ensures outcome.Resolved? && !Ok(outcome.response) && outcome.response.body.Parsed? ==>
              var body := outcome.response.body.json;
              thrown == Some(if body.JNull? then NullAccess("message")
                             else ErrorFrom(GetOpt(body, "message"), LoginFailed))
  {
    match outcome
    case Rejected(e) => Some(e)
    case Resolved(res) =>
      if Ok(res) then None
      else match JsonOf(res)
        case Failure(e) => Some(e)
        case Success(body) =>
          match Get(body, "message")
          case Threw(e) => Some(e)
          case Got(m) => Some(ErrorFrom(m, LoginFailed))
  }

  function LoginRequest(env: Option<string>, email: string, password: string): (req: Request)
    ensures req.verb == POST && req.withCredentials
    ensures req.url == EnvText(env) + "/login"
    ensures req.body == JsonBody(JObj(map["email" := JStr(email), "password" := JStr(password)]))
  {
    Request(POST, EnvText(env) + "/login",
            JsonBody(JObj(map["email" := JStr(email), "password" := JStr(password)])), true)
  }

  function LogoutRequest(env: Option<string>): (req: Request)
    ensures req.verb == POST && req.withCredentials && req.body == NoBody
    ensures req.url == EnvText(env) + "/logout"
  {
    Request(POST, EnvText(env) + "/logout", NoBody, true)
  }

  class AuthProvider {
    const env: Option<string>
    var state: AuthState
    var navigations: seq<Nav>
    var requests: seq<Request>
    /** Every state the provider has published, oldest first. */
    ghost var history: seq<AuthState>

    ghost predicate Valid()
      reads this
    {
      && history != [] && history[|history| - 1] == state
      && forall i :: 0 <= i < |history| ==> Coherent(history[i])
    }

    constructor (env: Option<string>)
      ensures Valid() && this.env == env
      ensures state == Initial && history == [Initial]
      ensures navigations == [] && requests == []
    {
      this.env := env;
      state := Initial;
      navigations := [];
      requests := [];
      history := [Initial];
    }

    /** `checkAuth`: never throws; its own catch turns every failure into "unauthenticated". */
    method CheckAuth(outcome: FetchOutcome)
      requires Valid()
      modifies this
      ensures Valid()
      ensures state == AfterCheckAuth(outcome)
      ensures history == old(history) + [state]
      ensures requests == old(requests) + [ProfileRequest(env)]
      ensures navigations == old(navigations)
    {
      requests := requests + [ProfileRequest(env)];
      state := AfterCheckAuth(outcome);
      history := history + [state];
    }

    /** `login(email, password)`: publishes a loading state, posts the credentials, and on an ok
        answer runs `checkAuth` and then replaces the route with '/dashboard' whatever
        `checkAuth` concluded. On any failure it clears `isLoading` only and rethrows. */
    method Login(email: string, password: string, loginOutcome: FetchOutcome, profileOutcome: FetchOutcome)
      returns (thrown: Option<Error>)
      requires Valid()
      modifies this
      ensures Valid()
      ensures thrown == LoginError(loginOutcome)
      ensures thrown.Some? ==>
                && state == old(state).(isLoading := false)
                && history == old(history) + [old(state).(isLoading := true), state]
                && requests == old(requests) + [LoginRequest(env, email, password)]
                && navigations == old(navigations)
      ensures thrown.None? ==>
                && state == AfterCheckAuth(profileOutcome)
                && history == old(history) + [old(state).(isLoading := true), state]
                && requests == old(requests) + [LoginRequest(env, email, password), ProfileRequest(env)]
                && navigations == old(navigations) + [Replace("/dashboard")]
    {
      state := state.(isLoading := true);
      history := history + [state];
      requests := requests + [LoginRequest(env, email, password)];
      thrown := LoginError(loginOutcome);
      if thrown.Some? {
        state := state.(isLoading := false);
        history := history + [state];
      } else {
        CheckAuth(profileOutcome);
        navigations := navigations + [Replace("/dashboard")];
      }
    }

    /** `logout()`: once the POST resolves, whatever its status, the state is reset and the route
        replaced with '/login'; a rejected POST is only logged and changes nothing. */
    method Logout(outcome: FetchOutcome)
      requires Valid()
      modifies this
      ensures Valid()
      ensures requests == old(requests) + [LogoutRequest(env)]
      ensures outcome.Resolved? ==>
                && state == AuthState(JNull, false, false)
                && history == old(history) + [state]
                && navigations == old(navigations) + [Replace("/login")]
      ensures outcome.Rejected? ==>
                state == old(state) && history == old(history) && navigations == old(navigations)
    {
      requests := requests + [LogoutRequest(env)];
      if outcome.Resolved? {
        state := AuthState(JNull, false, false);
        history := history + [state];
        navigations := navigations + [Replace("/login")];
      }
    }
  }

  const OutsideProvider := "useAuth must be used within an AuthProvider"

  /** `useAuth()`: the provider in scope, or the error thrown when there is none. */
  function UseAuth(context: Option<AuthProvider>): (r: Result<AuthProvider, Error>)
    ensures context.None? <==> r == Failure(Error(OutsideProvider))
    ensures context.Some? ==> r == Success(context.value)
  {
    match context
    case None => Failure(Error(OutsideProvider))
    case Some(p) => Success(p)
  }

  /** An ok login answer ends in navigation to '/dashboard' even when the profile lookup that
      follows fails and leaves the state unauthenticated. */
  lemma LoginNavigatesEvenWhenProfileFails(loginAnswer: Response, profileOutcome: FetchOutcome)
    requires Ok(loginAnswer)
    requires Resolve(profileOutcome).None?
    ensures LoginError(Resolved(loginAnswer)).None?
    ensures !AfterCheckAuth(profileOutcome).isAuthenticated
    ensures AfterCheckAuth(profileOutcome) == AuthState(JNull, false, false)
  {
  }

  /** A resolved identity may itself be JSON `null`: the state is then authenticated with a null
      user, so "authenticated" means "answered ok", not "has a user object". */
  lemma AuthenticatedWithNullUser()
    ensures var s := AfterCheckAuth(Resolved(Response(200, Parsed(JNull))));
            s.isAuthenticated && s.user == JNull
  {
  }

  /** A non-ok login answer whose body is `{"message": "Invalid credentials"}` rethrows that text;
      one whose body has no message rethrows 'Login failed'. */
  lemma LoginErrorMessages()
    ensures LoginError(Resolved(Response(401, Parsed(JObj(map["message" := JStr("Invalid credentials")])))))
              == Some(Error("Invalid credentials"))
    ensures LoginError(Resolved(Response(500, Parsed(JObj(map[]))))) == Some(Error(LoginFailed))
  {
  }
}
