/**
 * The mock session token. The storefront writes it as base64 of the JSON
 * object `{userId, role}` (the client adds an `exp` stamp); it is reversible
 * and unsigned. The model replaces base64/JSON by a stand-in encoding with
 * the same two properties the code relies on: decoding an issued token
 * gives back its claims, and only issued tokens decode.
 */
module Token {
  import opened Wrappers
  import opened Types

  /** The claims a token carries; `hasExp` records whether an expiry stamp was written. */
  datatype Claims = Claims(userId: string, role: Role, hasExp: bool)

  function RoleTag(r: Role): char {
    match r
    case UserRole => 'u'
    case AdminRole => 'a'
  }

  function Encode(c: Claims): (t: string)
    ensures |t| >= 2
  {
    [RoleTag(c.role), if c.hasExp then 'e' else 'n'] + c.userId
  }

  /** Parses a token; `None` models the exception a malformed token raises. */
  function Decode(t: string): (r: Option<Claims>)
    ensures r.Some? ==> Encode(r.value) == t
  {
    if |t| < 2 || (t[0] != 'u' && t[0] != 'a') || (t[1] != 'e' && t[1] != 'n') then None
    else Some(Claims(t[2..], if t[0] == 'a' then AdminRole else UserRole, t[1] == 'e'))
  }

  /** Round trip: a token decodes to exactly the claims it was made from. */
  lemma DecodeEncode(c: Claims)
    ensures Decode(Encode(c)) == Some(c)
  {
    var t := Encode(c);
    assert t[2..] == c.userId;
  }

  lemma EncodeInjective(a: Claims, b: Claims)
    ensures Encode(a) == Encode(b) ==> a == b
  {
    DecodeEncode(a);
    DecodeEncode(b);
  }
}
