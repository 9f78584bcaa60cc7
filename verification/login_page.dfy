/**
 * The login page's submit handler: it rejects an empty field without
 * calling the store, otherwise logs in through the session store and
 * redirects by the role the persisted session then holds.
 */
module LoginPage {
  import opened Wrappers
  import opened JsValues
  import opened Types
  import AuthStore
  import AuthService
  import Credentials

  const FillAllFieldsMessage := "Please fill in all fields"

  datatype Outcome = Outcome(
    session: AuthStore.AuthState,
    loginCalled: bool,
    navigateTo: Option<string>,
    error: Option<string>,
    loading: bool)

  /** Where a persisted session sends the user: admins to `/admin`, everyone else to `/`. */
  function RedirectFor(stored: AuthStore.AuthState): (path: string)
    ensures path == "/admin" <==> stored.user.Some? && stored.user.value.role == AdminRole
    ensures path == "/admin" || path == "/"
  {
    if stored.user.Some? && stored.user.value.role == AdminRole then "/admin" else "/"
  }

  const DefaultLoginError := "Login failed. Please try again."

  /**
   * `error.message || default`: the transport's own messages for network and
   * status errors, the thrown text otherwise, the default only for an empty text.
   */
  function ErrorText(e: Failure): (t: string)
    ensures |t| > 0
    ensures e.Thrown? && |e.message| > 0 ==> t == e.message
    ensures e.Thrown? && |e.message| == 0 ==> t == DefaultLoginError
    ensures e.ParseError? ==> t == DefaultLoginError
  {
    match e
    case NetworkError => "Network Error"
    case HttpError(status) => "Request failed with status code " + IntToString(status)
    case Thrown(m) => if |m| > 0 then m else DefaultLoginError
    case ParseError => DefaultLoginError
  }

  /**
   * `handleSubmit` given the session before it and what the service's
   * login settled with. The store persists its state on every change, so
   * the entry read back after a successful login is the store's new state.
   */
  function Submit(s: AuthStore.AuthState, email: string, password: string,
                  response: Result<AuthResponse, Failure>): (r: Outcome)
    ensures email == "" || password == "" ==>
              r == Outcome(s, false, None, Some(FillAllFieldsMessage), false)
    ensures email != "" && password != "" ==>
              && r.loginCalled
              && r.session == AuthStore.Login(s, response).state
              && (response.Ok? ==> r.navigateTo == Some(RedirectFor(r.session)) && r.error.None?)
              && (response.Err? ==> r.navigateTo.None? && r.error == Some(ErrorText(response.error)))
    ensures !r.loading
  {
    if email == "" || password == "" then Outcome(s, false, None, Some(FillAllFieldsMessage), false)
    else
      var step := AuthStore.Login(s, response);
      match step.raised
      case None => Outcome(step.state, true, Some(RedirectFor(step.state)), None, false)
      case Some(e) => Outcome(step.state, true, None, Some(ErrorText(e)), false)
  }

  /** After a successful login an admin lands on `/admin` and any other user on `/`. */
  lemma RedirectByRole(s: AuthStore.AuthState, email: string, password: string, resp: AuthResponse)
    requires email != "" && password != ""
    ensures Submit(s, email, password, Ok(resp)).navigateTo ==
              Some(if resp.user.role == AdminRole then "/admin" else "/")
  {
  }

  /**
   * When the server is unreachable and the demo table has no match, the
   * fallback's "Invalid email or password" text is what the page shows.
   */
  lemma FallbackRejectionShown(s: AuthStore.AuthState, email: string, password: string, now: string)
    requires email != "" && password != ""
    requires !Credentials.AnyMatch(AuthService.MockUsers(), email, password)
    ensures var r := Submit(s, email, password, AuthService.Login(email, password, Err(NetworkError), now));
            r.navigateTo.None? && r.error == Some(AuthService.InvalidCredentialsMessage)
  {
  }
}
