/** The application tree: the session provider wraps the whole router, and
    the `/game` pages sit behind the guard. */
module App {
  import opened Wrappers
  import opened Session
  import opened Route
  import opened Lifecycle

  /** What a visitor of a guarded page sees: nothing while the provider
      withholds its children, otherwise the guard's choice. */
  datatype Screen = Blank | Shown(view: View)

  /** A guarded page under the provider. */
  function ProtectedScreen(s: State): (sc: Screen)
    ensures sc == Shown(Children) <==> IsAuthenticated(s) && !s.loading
    ensures sc == Blank <==> s.loading
    ensures sc != Shown(Placeholder)
    ensures !s.loading && !IsAuthenticated(s) ==> sc == Shown(Redirect(LoginPath))
  {
    if RendersChildren(s) then Shown(Guard(s.loading, IsAuthenticated(s))) else Blank
  }

  /** While any operation is in flight the guarded content is not shown. */
  lemma InFlightShowsNothing(s: State)
    ensures ProtectedScreen(Begin(s)) == Blank
  {
  }

  /** In every reachable state a guarded page shows something, and shows its
      content exactly when a user is signed in, who is then backed by a token. */
  lemma ReachableProtectedScreen(stored: Option<string>, verify: Outcome<User>, es: seq<Event>)
    ensures ProtectedScreen(Reachable(stored, verify, es)) != Blank
    ensures ProtectedScreen(Reachable(stored, verify, es)) == Shown(Children)
            <==> IsAuthenticated(Reachable(stored, verify, es))
    ensures ProtectedScreen(Reachable(stored, verify, es)) == Shown(Children)
            ==> Reachable(stored, verify, es).token.Some?
  {
    ReachableInvariant(stored, verify, es);
  }
}
