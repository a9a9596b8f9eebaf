/** `ProtectedRoute`: the guard placed in front of pages that need a signed-in
    user. It reads only the `loading` flag and the derived `isAuthenticated`
    value of the session. */
module Route {

  /** The three things the guard can render: the loading placeholder, the
      guarded children, or a redirect to another path. */
  datatype View = Placeholder | Children | Redirect(to: string)

  const LoginPath := "/auth/login"

  /** The guard's decision. */
  function Guard(loading: bool, authenticated: bool): (v: View)
    ensures loading ==> v == Placeholder
    ensures !loading && authenticated ==> v == Children
    ensures !loading && !authenticated ==> v == Redirect(LoginPath)
    ensures v == Children <==> !loading && authenticated
    ensures v.Redirect? ==> v.to == LoginPath
  {
    if loading then Placeholder
    else if authenticated then Children
    else Redirect(LoginPath)
  }

  /** While loading, the authentication status does not influence the guard. */
  lemma LoadingHidesAuthentication(a1: bool, a2: bool)
    ensures Guard(true, a1) == Guard(true, a2)
  {
  }
}
