/**
 * The client's authentication service: `login`, `register` and
 * `getCurrentUser`, each of which first asks the server and, when the
 * server cannot be used, falls back to local mock behaviour.
 * The server's answer, the clock (`createdAt`), the `Date.now()` id of a
 * new account and the persisted `auth-storage` entry are parameters.
 */
module AuthService {
  import opened Wrappers
  import opened Types
  import opened Token
  import opened Credentials

  /** The two demo accounts of the login fallback. */
  function MockUsers(): seq<Credential> {
    [ Credential("1", "admin@example.com", "admin123", "Admin User", AdminRole),
      Credential("2", "user@example.com", "user123", "John Doe", UserRole) ]
  }

  const InvalidCredentialsMessage := "Invalid email or password. Please check your credentials and try again."
  const InvalidTokenMessage := "Invalid token"
  const NotAuthenticatedMessage := "Not authenticated"

  /** Login and register fall back for a network error or a server error status (500 and up). */
  predicate FallsBack(e: Failure) {
    e.NetworkError? || (e.HttpError? && e.status >= 500)
  }

  /** `generateToken`: the client's token also carries an expiry stamp. */
  function GenerateToken(userId: string, role: Role): (t: string)
    ensures Decode(t) == Some(Claims(userId, role, true))
  {
    DecodeEncode(Claims(userId, role, true));
    Encode(Claims(userId, role, true))
  }

  /** `login(email, password)` given the server's answer `api`. */
  function Login(email: string, password: string, api: Result<AuthResponse, Failure>, now: string)
    : (r: Result<AuthResponse, Failure>)
    ensures api.Ok? || !FallsBack(api.error) ==> r == api
    ensures api.Err? && FallsBack(api.error) ==>
              (r.Ok? <==> AnyMatch(MockUsers(), email, password))
    ensures api.Err? && FallsBack(api.error) && r.Err? ==> r.error == Thrown(InvalidCredentialsMessage)
    ensures api.Err? && FallsBack(api.error) && r.Ok? ==>
              exists c :: c in MockUsers() && Matches(c, email, password)
                          && r.value.user == WithoutPassword(c, now)
                          && Decode(r.value.token) == Some(Claims(c.id, c.role, true))
  {
    match api
    case Ok(_) => api
    case Err(e) =>
      if !FallsBack(e) then api
      else
        match Find(MockUsers(), email, password)
        case None => Err(Thrown(InvalidCredentialsMessage))
        case Some(c) => Ok(AuthResponse(GenerateToken(c.id, c.role), WithoutPassword(c, now)))
  }

  /** `register(name, email, password)`; `freshId` is the `Date.now()` text the fallback uses as id. */
  function Register(name: string, email: string, password: string, api: Result<AuthResponse, Failure>,
                    freshId: string, now: string): (r: Result<AuthResponse, Failure>)
    ensures api.Ok? || !FallsBack(api.error) ==> r == api
    ensures api.Err? && FallsBack(api.error) ==>
              && r.Ok?
              && r.value.user == User(freshId, email, name, UserRole, now)
              && Decode(r.value.token) == Some(Claims(freshId, UserRole, true))
  {
    match api
    case Ok(_) => api
    case Err(e) =>
      if !FallsBack(e) then api
      else
        var u := User(freshId, email, name, UserRole, now);
        Ok(AuthResponse(GenerateToken(u.id, u.role), u))
  }

  /**
   * The persisted `auth-storage` entry as `getCurrentUser` and `checkAuth`
   * read it: absent (or empty), not parseable as JSON, or parsed with the
   * `state.token` it may hold.
   */
  datatype StoredSession = NoEntry | Unreadable | Entry(token: Option<string>)

  /** `state?.token` is truthy. */
  predicate HasToken(s: StoredSession) {
    s.Entry? && s.token.Some? && |s.token.value| > 0
  }

  /**
   * The minimal user the token fallback rebuilds: the id and role come from
   * the claims, and only id `1` gets the admin's email and name.
   */
  function UserFromClaims(c: Claims, now: string): (u: User)
    ensures u.id == c.userId && u.role == c.role && u.createdAt == now
    ensures u.email == (if c.userId == "1" then "admin@example.com" else "user@example.com")
    ensures u.name == (if c.userId == "1" then "Admin User" else "John Doe")
  {
    User(c.userId,
         if c.userId == "1" then "admin@example.com" else "user@example.com",
         if c.userId == "1" then "Admin User" else "John Doe",
         c.role,
         now)
  }

  /** `getCurrentUser()`: on any failure of `/auth/me` it decodes the stored token instead. */
  function GetCurrentUser(api: Result<User, Failure>, storage: StoredSession, now: string): (r: Result<User, Failure>)
    ensures api.Ok? ==> r == api
    ensures api.Err? && (storage.NoEntry? || (storage.Entry? && !HasToken(storage))) ==>
              r == Err(Thrown(NotAuthenticatedMessage))
    ensures api.Err? && storage.Unreadable? ==> r == Err(ParseError)
    ensures api.Err? && HasToken(storage) ==>
              match Decode(storage.token.value)
              case None => r == Err(Thrown(InvalidTokenMessage))
              case Some(c) =>
                && r.Ok?
                && r.value.id == c.userId
                && r.value.role == c.role
                && r.value.email == (if c.userId == "1" then "admin@example.com" else "user@example.com")
                && r.value.name == (if c.userId == "1" then "Admin User" else "John Doe")
                && r.value.createdAt == now
  {
    match api
    case Ok(_) => api
    case Err(_) =>
      match storage
      case NoEntry => Err(Thrown(NotAuthenticatedMessage))
      case Unreadable => Err(ParseError)
      case Entry(token) =>
        if !HasToken(storage) then Err(Thrown(NotAuthenticatedMessage))
        else
          match Decode(token.value)
          case None => Err(Thrown(InvalidTokenMessage))
          case Some(c) => Ok(UserFromClaims(c, now))
  }

  /**
   * Which errors fall back: a network error and any status of 500 and up;
   * a client error such as 401, a thrown error or a parse error is re-raised
   * unchanged by both login and register.
   */
  lemma FallbackConditions(status: int, email: string, password: string, name: string,
                           freshId: string, now: string)
    ensures FallsBack(NetworkError)
    ensures FallsBack(HttpError(status)) <==> status >= 500
    ensures status < 500 ==>
              && Login(email, password, Err(HttpError(status)), now) == Err(HttpError(status))
              && Register(name, email, password, Err(HttpError(status)), freshId, now) == Err(HttpError(status))
    ensures !FallsBack(ParseError) && forall m :: !FallsBack(Thrown(m))
  {
  }

  /** The two demo logins under fallback conditions. */
  lemma DemoAccounts(e: Failure, now: string)
    requires FallsBack(e)
    ensures var r := Login("admin@example.com", "admin123", Err(e), now);
            r.Ok? && r.value.user.id == "1" && r.value.user.role == AdminRole
            && r.value.user.name == "Admin User"
    ensures var r := Login("user@example.com", "user123", Err(e), now);
            r.Ok? && r.value.user.id == "2" && r.value.user.role == UserRole
            && r.value.user.name == "John Doe"
  {
  }

  /** Round trip through the token fallback: a fallback login is rebuilt exactly, up to `createdAt`. */
  lemma FallbackLoginRestores(email: string, password: string, e: Failure, me: Failure, now: string, later: string)
    requires FallsBack(e)
    requires Login(email, password, Err(e), now).Ok?
    ensures var resp := Login(email, password, Err(e), now).value;
            GetCurrentUser(Err(me), Entry(Some(resp.token)), later) == Ok(resp.user.(createdAt := later))
  {
    var resp := Login(email, password, Err(e), now).value;
    var c :| c in MockUsers() && Matches(c, email, password)
             && resp.user == WithoutPassword(c, now)
             && Decode(resp.token) == Some(Claims(c.id, c.role, true));
  }

  /**
   * A fallback registration survives the token fallback only in its id and
   * role: the rebuilt name and email are the demo ones, not the registered ones.
   */
  lemma FallbackRegisterRestores(name: string, email: string, password: string, e: Failure, me: Failure,
                                 freshId: string, now: string, later: string)
    requires FallsBack(e)
    ensures var resp := Register(name, email, password, Err(e), freshId, now).value;
            var u := GetCurrentUser(Err(me), Entry(Some(resp.token)), later);
            && u.Ok? && u.value.id == freshId && u.value.role == UserRole
            && u.value.name == (if freshId == "1" then "Admin User" else "John Doe")
  {
  }
}
