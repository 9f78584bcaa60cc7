/**
 * The persisted session store (`useAuthStore`): the current user and token,
 * whether the session is authenticated, and whether a login or
 * registration is in flight. Each asynchronous action is one step from the
 * state before it to the state after the awaited call settled.
 */
module AuthStore {
  import opened Wrappers
  import opened Types
  import AuthService

  datatype AuthState = AuthState(user: Option<User>, token: Option<string>, isLoading: bool, isAuthenticated: bool)

  const Initial := AuthState(None, None, false, false)

  /**
   * The session invariant: an authenticated state holds both a token and a
   * user, and an unauthenticated one holds neither.
   */
  predicate Consistent(s: AuthState) {
    if s.isAuthenticated then s.token.Some? && s.user.Some? else s.token.None? && s.user.None?
  }

  /** The state a transition ends in, and the error it re-raises, if any. */
  datatype Step = Step(state: AuthState, raised: Option<Failure>)

  /** What the store holds while the awaited call runs. */
  function Busy(s: AuthState): AuthState {
    s.(isLoading := true)
  }

  /** `login(email, password)` given what `authService.login` settled with. */
  function Login(s: AuthState, response: Result<AuthResponse, Failure>): (r: Step)
    ensures response.Ok? ==>
              && r.raised.None?
              && r.state.user == Some(response.value.user)
              && r.state.token == Some(response.value.token)
              && r.state.isAuthenticated
    ensures response.Err? ==>
              && r.raised == Some(response.error)
              && r.state.user == s.user
              && r.state.token == s.token
              && r.state.isAuthenticated == s.isAuthenticated
    ensures !r.state.isLoading
    ensures Consistent(s) ==> Consistent(r.state)
  {
    var busy := Busy(s);
    match response
    case Ok(resp) => Step(AuthState(Some(resp.user), Some(resp.token), false, true), None)
    case Err(e) => Step(busy.(isLoading := false), Some(e))
  }

  /** `register(name, email, password)` given what `authService.register` settled with. */
  function Register(s: AuthState, response: Result<AuthResponse, Failure>): (r: Step)
    ensures !r.state.isLoading
    ensures Consistent(s) ==> Consistent(r.state)
  {
    var busy := Busy(s);
    match response
    case Ok(resp) => Step(AuthState(Some(resp.user), Some(resp.token), false, true), None)
    case Err(e) => Step(busy.(isLoading := false), Some(e))
  }

  /** Registration has exactly the effects of a login with the same outcome. */
  lemma RegisterIsLogin(s: AuthState, response: Result<AuthResponse, Failure>)
    ensures Register(s, response) == Login(s, response)
  {
  }

  function Logout(s: AuthState): (r: AuthState)
    ensures r.user.None? && r.token.None? && !r.isAuthenticated
    ensures r.isLoading == s.isLoading
    ensures Consistent(r)
  {
    s.(user := None, token := None, isAuthenticated := false)
  }

  /**
   * `checkAuth()` given the stored entry, the answer of `/auth/me` and the
   * clock. It never raises: every failure clears the session.
   */
  function CheckAuth(s: AuthState, storage: AuthService.StoredSession, me: Result<User, Failure>, now: string)
    : (r: AuthState)
    ensures storage.NoEntry? || (storage.Entry? && !AuthService.HasToken(storage)) ==> r == s
    ensures storage.Unreadable? ==> r == Logout(s)
    ensures AuthService.HasToken(storage) ==>
              match AuthService.GetCurrentUser(me, storage, now)
              case Ok(u) => r == s.(user := Some(u), token := storage.token, isAuthenticated := true)
              case Err(_) => r == Logout(s)
    ensures r.isLoading == s.isLoading
    ensures Consistent(s) ==> Consistent(r)
  {
    match storage
    case NoEntry => s
    case Unreadable => s.(user := None, token := None, isAuthenticated := false)
    case Entry(token) =>
      if !AuthService.HasToken(storage) then s
      else
        match AuthService.GetCurrentUser(me, storage, now)
        case Ok(u) => s.(user := Some(u), token := token, isAuthenticated := true)
        case Err(_) => s.(user := None, token := None, isAuthenticated := false)
  }

  /** The actions a session goes through. */
  datatype Action =
    | DoLogin(loginResponse: Result<AuthResponse, Failure>)
    | DoRegister(registerResponse: Result<AuthResponse, Failure>)
    | DoLogout
    | DoCheckAuth(storage: AuthService.StoredSession, me: Result<User, Failure>, now: string)

  function Apply(s: AuthState, a: Action): AuthState {
    match a
    case DoLogin(resp) => Login(s, resp).state
    case DoRegister(resp) => Register(s, resp).state
    case DoLogout => Logout(s)
    case DoCheckAuth(storage, me, now) => CheckAuth(s, storage, me, now)
  }

  function Run(s: AuthState, actions: seq<Action>): AuthState
    decreases |actions|
  {
    if |actions| == 0 then s else Run(Apply(s, actions[0]), actions[1..])
  }

  /** Every sequence of actions from the initial state keeps the session invariant. */
  lemma {:induction false} RunKeepsConsistent(s: AuthState, actions: seq<Action>)
    requires Consistent(s)
    ensures Consistent(Run(s, actions))
    decreases |actions|
  {
    if |actions| > 0 {
      var t := Apply(s, actions[0]);
      assert Consistent(t);
      RunKeepsConsistent(t, actions[1..]);
    }
  }

  lemma InitialConsistent()
    ensures Consistent(Initial) && !Initial.isLoading && !Initial.isAuthenticated
  {
  }

  /**
   * Logging out and then restoring with no stored entry leaves the session
   * unauthenticated.
   */
  lemma LogoutThenRestoreWithoutEntry(s: AuthState, me: Result<User, Failure>, now: string)
    ensures !CheckAuth(Logout(s), AuthService.NoEntry, me, now).isAuthenticated
  {
  }

  /**
   * Round trip across a reload: after a fallback login, restoring from the
   * persisted token while `/auth/me` fails rebuilds the same user (up to its
   * creation time) and keeps the same token.
   */
  lemma FallbackLoginSurvivesReload(email: string, password: string, e: Failure, me: Failure,
                                    s: AuthState, reloaded: AuthState, now: string, later: string)
    requires AuthService.FallsBack(e)
    requires AuthService.Login(email, password, Err(e), now).Ok?
    ensures var after := Login(s, AuthService.Login(email, password, Err(e), now)).state;
            var restored := CheckAuth(reloaded, AuthService.Entry(after.token), Err(me), later);
            && restored.isAuthenticated
            && restored.token == after.token
            && restored.user == Some(after.user.value.(createdAt := later))
  {
    var resp := AuthService.Login(email, password, Err(e), now).value;
    AuthService.FallbackLoginRestores(email, password, e, me, now, later);
    var after := Login(s, Ok(resp)).state;
    assert AuthService.HasToken(AuthService.Entry(after.token));
  }
}
