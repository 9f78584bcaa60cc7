/**
 * A demo credential entry and the `find` over a table of them, as used by
 * both the client-side login fallback and the mock authentication server.
 */
module Credentials {
  import opened Wrappers
  import opened Types

  datatype Credential = Credential(id: string, email: string, password: string, name: string, role: Role)

  predicate Matches(c: Credential, email: string, password: string) {
    c.email == email && c.password == password
  }

  /** Some entry of the table matches both the email and the password. */
  predicate AnyMatch(table: seq<Credential>, email: string, password: string) {
    exists i :: 0 <= i < |table| && Matches(table[i], email, password)
  }

  /** `table.find(u => u.email === email && u.password === password)`: the first matching entry. */
  function Find(table: seq<Credential>, email: string, password: string): (r: Option<Credential>)
    ensures r.Some? <==> AnyMatch(table, email, password)
    ensures r.Some? ==> exists i :: 0 <= i < |table| && table[i] == r.value && Matches(table[i], email, password)
                          && forall j :: 0 <= j < i ==> !Matches(table[j], email, password)
  {
    if |table| == 0 then None
    else if Matches(table[0], email, password) then Some(table[0])
    else
      var r := Find(table[1..], email, password);
      assert forall i :: 0 < i < |table| ==> table[1..][i - 1] == table[i];
      r
  }

  /** The user record made from an entry: every field except the password, plus a creation time. */
  function WithoutPassword(c: Credential, createdAt: string): User {
    User(c.id, c.email, c.name, c.role, createdAt)
  }
}
