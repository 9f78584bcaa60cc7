/**
 * The pure logic of the mock authentication server's three handlers:
 * `POST /auth/login`, `POST /auth/register` and `GET /auth/me`. Its token is
 * the same reversible encoding, but written without an expiry stamp.
 */
module AuthServer {
  import opened Wrappers
  import opened Types
  import opened Token
  import opened Credentials
  import AuthService

  /** A handler's reply: 200 with a JSON body, or 401 with an error text. */
  datatype Reply<+T> = Ok200(body: T) | Status401(error: string)

  /** The server's own copy of the demo accounts. */
  function MockUsers(): seq<Credential> {
    [ Credential("1", "admin@example.com", "admin123", "Admin User", AdminRole),
      Credential("2", "user@example.com", "user123", "John Doe", UserRole) ]
  }

  function ServerToken(userId: string, role: Role): (t: string)
    ensures Decode(t) == Some(Claims(userId, role, false))
  {
    DecodeEncode(Claims(userId, role, false));
    Encode(Claims(userId, role, false))
  }

  function Login(email: string, password: string, now: string): (r: Reply<AuthResponse>)
    ensures r.Status401? <==> !AnyMatch(MockUsers(), email, password)
    ensures r.Status401? ==> r.error == "Invalid email or password"
    ensures r.Ok200? ==>
              exists c :: c in MockUsers() && Matches(c, email, password)
                          && r.body.user == WithoutPassword(c, now)
                          && Decode(r.body.token) == Some(Claims(c.id, c.role, false))
  {
    match Find(MockUsers(), email, password)
    case None => Status401("Invalid email or password")
    case Some(c) => Ok200(AuthResponse(ServerToken(c.id, c.role), WithoutPassword(c, now)))
  }

  /** Registration always succeeds, with role `user`; no uniqueness check is made. */
  function Register(name: string, email: string, password: string, freshId: string, now: string)
    : (r: Reply<AuthResponse>)
    ensures r.Ok200?
    ensures r.body.user == User(freshId, email, name, UserRole, now)
    ensures Decode(r.body.token) == Some(Claims(freshId, UserRole, false))
  {
    var u := User(freshId, email, name, UserRole, now);
    Ok200(AuthResponse(ServerToken(u.id, u.role), u))
  }

  /** `pattern` occurs in `s` starting at index `i`. */
  predicate OccursAt(s: string, pattern: string, i: int) {
    0 <= i && i + |pattern| <= |s| && s[i..i + |pattern|] == pattern
  }

  /** `s.replace(pattern, "")` with a string pattern; see `RemoveFirstCutsFirst` and `RemoveFirstAbsent`. */
  function RemoveFirst(s: string, pattern: string): string
    requires |pattern| > 0
    decreases |s|
  {
    if |s| < |pattern| then s
    else if s[..|pattern|] == pattern then s[|pattern|..]
    else [s[0]] + RemoveFirst(s[1..], pattern)
  }

  /** An occurrence in `s` past index 0 is an occurrence in `s[1..]` one place earlier, and back. */
  lemma ShiftOccurrence(s: string, pattern: string, i: int)
    requires |s| > 0 && 0 < i
    ensures OccursAt(s, pattern, i) <==> OccursAt(s[1..], pattern, i - 1)
  {
    if i + |pattern| <= |s| {
      var a, b := s[i..i + |pattern|], s[1..][i - 1..i - 1 + |pattern|];
      assert forall k :: 0 <= k < |a| ==> a[k] == b[k];
      assert a == b;
    }
  }

  /** A first occurrence past index 0 is a first occurrence of `s[1..]`, one place earlier. */
  lemma FirstOccurrenceShifts(s: string, pattern: string, i: int)
    requires |s| > 0 && 0 < i
    requires OccursAt(s, pattern, i)
    requires forall j :: 0 <= j < i ==> !OccursAt(s, pattern, j)
    ensures OccursAt(s[1..], pattern, i - 1)
    ensures forall j :: 0 <= j < i - 1 ==> !OccursAt(s[1..], pattern, j)
  {
    ShiftOccurrence(s, pattern, i);
    forall j | 0 <= j < i - 1
      ensures !OccursAt(s[1..], pattern, j)
    {
      ShiftOccurrence(s, pattern, j + 1);
    }
  }

  /** Only the first occurrence of the pattern is cut out; the rest of the text is kept. */
  lemma {:induction false} RemoveFirstCutsFirst(s: string, pattern: string, i: int)
    requires |pattern| > 0
    requires OccursAt(s, pattern, i)
    requires forall j :: 0 <= j < i ==> !OccursAt(s, pattern, j)
    ensures RemoveFirst(s, pattern) == s[..i] + s[i + |pattern|..]
    decreases |s|
  {
    if i == 0 {
      assert s[..|pattern|] == pattern;
    } else {
      assert !OccursAt(s, pattern, 0);
      FirstOccurrenceShifts(s, pattern, i);
      RemoveFirstCutsFirst(s[1..], pattern, i - 1);
      RemoveFirstStep(s, pattern, i);
    }
  }

  /** Past a non-matching first position, the cut happens in the tail, one place earlier. */
  lemma RemoveFirstStep(s: string, pattern: string, i: int)
    requires |pattern| > 0 && 0 < i && i + |pattern| <= |s|
    requires !OccursAt(s, pattern, 0)
    requires RemoveFirst(s[1..], pattern) == s[1..][..i - 1] + s[1..][i - 1 + |pattern|..]
    ensures RemoveFirst(s, pattern) == s[..i] + s[i + |pattern|..]
  {
    var t := s[1..];
    assert s[..|pattern|] != pattern;
    assert t[..i - 1] == s[1..i];
    assert t[i - 1 + |pattern|..] == s[i + |pattern|..];
    assert [s[0]] + s[1..i] == s[..i];
  }

  /** A text in which the pattern does not occur is returned unchanged. */
  lemma {:induction false} RemoveFirstAbsent(s: string, pattern: string)
    requires |pattern| > 0
    requires forall i :: !OccursAt(s, pattern, i)
    ensures RemoveFirst(s, pattern) == s
    decreases |s|
  {
    if |s| >= |pattern| {
      assert !OccursAt(s, pattern, 0);
      assert s[..|pattern|] != pattern;
      forall j
        ensures !OccursAt(s[1..], pattern, j)
      {
        if 0 <= j {
          ShiftOccurrence(s, pattern, j + 1);
        }
      }
      RemoveFirstAbsent(s[1..], pattern);
      assert [s[0]] + s[1..] == s;
    }
  }

  const BearerPrefix := "Bearer "

  /**
   * The token of an `Authorization` header, `None` when the header is
   * absent; see `BearerTokenStripsPrefix` and `BearerTokenWithoutPrefix`.
   */
  function BearerToken(authorization: Option<string>): (r: Option<string>)
    ensures r.None? <==> authorization.None?
  {
    match authorization
    case None => None
    case Some(h) => Some(RemoveFirst(h, BearerPrefix))
  }

  /** The same rebuild rule as the client's token fallback, in the server's copy. */
  function UserFromClaims(c: Claims, now: string): (u: User)
    ensures u.id == c.userId && u.role == c.role && u.createdAt == now
    ensures u.email == (if c.userId == "1" then "admin@example.com" else "user@example.com")
    ensures u.name == (if c.userId == "1" then "Admin User" else "John Doe")
  {
    User(c.userId,
         if c.userId == "1" then "admin@example.com" else "user@example.com",
         if c.userId == "1" then "Admin User" else "John Doe",
         c.role,
         now)
  }

  function Me(authorization: Option<string>, now: string): (r: Reply<User>)
    ensures var t := BearerToken(authorization);
            (t.None? || t.value == "") <==> r == Status401("No token provided")
    ensures var t := BearerToken(authorization);
            t.Some? && t.value != "" ==>
              match Decode(t.value)
              case None => r == Status401("Invalid token")
              case Some(c) => r == Ok200(UserFromClaims(c, now))
  {
    match BearerToken(authorization)
    case None => Status401("No token provided")
    case Some(t) =>
      if t == "" then Status401("No token provided")
      else
        match Decode(t)
        case None => Status401("Invalid token")
        case Some(c) => Ok200(UserFromClaims(c, now))
  }

  /** How the client sees a reply: a 401 becomes an HTTP error with that status. */
  function ToClient<T>(reply: Reply<T>): (r: Result<T, Failure>)
    ensures r.Ok? <==> reply.Ok200?
    ensures r.Ok? ==> r.value == reply.body
    ensures r.Err? ==> r.error == HttpError(401)
  {
    match reply
    case Ok200(b) => Ok(b)
    case Status401(_) => Err(HttpError(401))
  }

  /** A `Bearer <token>` header yields exactly `<token>`. */
  lemma BearerTokenStripsPrefix(t: string)
    ensures BearerToken(Some(BearerPrefix + t)) == Some(t)
  {
    var s := BearerPrefix + t;
    assert s[0..|BearerPrefix|] == BearerPrefix;
    RemoveFirstCutsFirst(s, BearerPrefix, 0);
    assert s[..0] + s[|BearerPrefix|..] == t;
  }

  /** A header that never contains `Bearer ` is taken as the token itself. */
  lemma BearerTokenWithoutPrefix(h: string)
    requires forall i :: !OccursAt(h, BearerPrefix, i)
    ensures BearerToken(Some(h)) == Some(h)
  {
    RemoveFirstAbsent(h, BearerPrefix);
  }

  /** The server's demo accounts are the client fallback's, entry for entry. */
  lemma SameDemoAccounts()
    ensures MockUsers() == AuthService.MockUsers()
  {
  }

  lemma SameUserFromClaims(c: Claims, now: string)
    ensures UserFromClaims(c, now) == AuthService.UserFromClaims(c, now)
  {
  }

  /** Round trip: a token issued by `/auth/login` is resolved by `/auth/me` to the same id and role. */
  lemma LoginThenMe(email: string, password: string, now: string, later: string)
    requires Login(email, password, now).Ok200?
    ensures var resp := Login(email, password, now).body;
            var me := Me(Some(BearerPrefix + resp.token), later);
            me.Ok200? && me.body == resp.user.(createdAt := later)
  {
    var resp := Login(email, password, now).body;
    var c :| c in MockUsers() && Matches(c, email, password)
             && resp.user == WithoutPassword(c, now)
             && Decode(resp.token) == Some(Claims(c.id, c.role, false));
    BearerTokenStripsPrefix(resp.token);
  }

  /** Round trip for accounts made by `/auth/register`: id and role survive. */
  lemma RegisterThenMe(name: string, email: string, password: string, freshId: string, now: string, later: string)
    ensures var resp := Register(name, email, password, freshId, now).body;
            var me := Me(Some(BearerPrefix + resp.token), later);
            me.Ok200? && me.body.id == freshId && me.body.role == UserRole
  {
    var resp := Register(name, email, password, freshId, now).body;
    BearerTokenStripsPrefix(resp.token);
  }

  /**
   * The client's login through the live server succeeds for exactly the
   * credentials its own fallback accepts, and yields the same user.
   */
  lemma LiveLoginAgreesWithFallback(email: string, password: string, now: string)
    ensures var live := AuthService.Login(email, password, ToClient(Login(email, password, now)), now);
            var local := AuthService.Login(email, password, Err(NetworkError), now);
            (live.Ok? <==> local.Ok?)
            && (live.Ok? ==> live.value.user == local.value.user)
            && (live.Err? ==> live.error == HttpError(401))
  {
    var live := AuthService.Login(email, password, ToClient(Login(email, password, now)), now);
    var local := AuthService.Login(email, password, Err(NetworkError), now);
    SameDemoAccounts();
    if live.Ok? {
      var c :| c in MockUsers() && Matches(c, email, password) && live.value.user == WithoutPassword(c, now);
      var d :| d in AuthService.MockUsers() && Matches(d, email, password) && local.value.user == WithoutPassword(d, now);
      assert c == d;
    }
  }
}
