/**
 * The site header: the cart badge, the admin link, the signed-in user's
 * name and the logout button. The badge's count is the cart store's
 * `getTotalItems()`, taken as an input.
 */
module Header {
  import opened Wrappers
  import opened JsValues
  import opened Types
  import AuthStore

  /**
   * The badge text: hidden at 0 (or below), `99+` above 99, else the count's
   * own decimal digits: digits only, no leading zero, reading back as the count.
   */
  function CartBadge(count: int): (r: Option<string>)
    ensures r.None? <==> count <= 0
    ensures count > 99 ==> r == Some("99+")
    ensures 0 < count <= 99 ==>
              && r.Some?
              && 0 < |r.value| <= 2
              && AllDigits(r.value) && r.value[0] != '0'
              && NumberOf(r.value) == Num(count)
  {
    if count <= 0 then None
    else if count > 99 then Some("99+")
    else
      NumberOfIntToString(count);
      NatToStringLeading(count);
      Some(IntToString(count))
  }

  /** The admin link shows only for an authenticated admin. */
  predicate ShowsAdminLink(s: AuthStore.AuthState) {
    s.isAuthenticated && s.user.Some? && s.user.value.role == AdminRole
  }

  /** The name shown beside the user icon; only an authenticated session shows one. */
  function ShownName(s: AuthStore.AuthState): (r: Option<string>)
    ensures r.Some? ==> s.isAuthenticated && s.user.Some? && r.value == s.user.value.name
    ensures s.isAuthenticated && s.user.Some? ==> r.Some?
  {
    if s.isAuthenticated && s.user.Some? then Some(s.user.value.name) else None
  }

  /** `handleLogout`: clear the session, then go to `/`. */
  function HandleLogout(s: AuthStore.AuthState): (r: (AuthStore.AuthState, string))
    ensures r.0 == AuthStore.Logout(s) && r.1 == "/"
    ensures !ShowsAdminLink(r.0) && ShownName(r.0).None?
  {
    (AuthStore.Logout(s), "/")
  }

  /** In a consistent session the admin link needs only authentication and the admin role. */
  lemma AdminLinkIff(s: AuthStore.AuthState)
    requires AuthStore.Consistent(s)
    ensures ShowsAdminLink(s) <==> s.isAuthenticated && s.user.value.role == AdminRole
  {
  }
}
