/** `ProtectedRoute`: what a protected page renders, decided from the authentication
    context's `loading` and `isAuthenticated` flags. */
module RouteGuard {

  const SIGN_IN: string := "/sign-in"

  /** The three things the guard can render. `Redirect` is `<Navigate to state={{ from }}
      replace />`; `Children` hands back the wrapped element unchanged. */
  datatype View<Location, Element> =
    | Spinner
    | Redirect(to: string, from: Location, replace: bool)
    | Children(element: Element)

  function Guard<Location, Element>(loading: bool, isAuthenticated: bool, location: Location, children: Element)
    : (v: View<Location, Element>)
    ensures loading ==> v.Spinner?
    ensures !loading && !isAuthenticated ==> v == Redirect(SIGN_IN, location, true)
    ensures !loading && isAuthenticated ==> v == Children(children)
  {
    if loading then Spinner
    else if !isAuthenticated then Redirect(SIGN_IN, location, true)
    else Children(children)
  }

  /** While loading, the answer does not depend on the authentication flag. */
  lemma SpinnerIgnoresAuthentication<L, E>(a: bool, b: bool, location: L, children: E)
    ensures Guard(true, a, location, children) == Guard(true, b, location, children)
  {
  }

  /** Each of the four flag pairs gets exactly one of the three outcomes, and the
      children are reached only when loading is over and the user is authenticated. */
  lemma OutcomesPartitionFlags<L, E>(loading: bool, isAuthenticated: bool, location: L, children: E)
    ensures var v := Guard(loading, isAuthenticated, location, children);
            (v.Spinner? <==> loading)
            && (v.Redirect? <==> !loading && !isAuthenticated)
            && (v.Children? <==> !loading && isAuthenticated)
  {
  }
}
