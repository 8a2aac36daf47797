/** The guard around signed-in pages (src/components/ProtectedRoute.jsx). */
module ProtectedRoute {
  import opened JsValues

  /** What the guard renders: an empty placeholder while the session is being
      restored, a redirect, or the protected page itself. */
  datatype Outcome = Placeholder | Redirect(path: string, replace: bool) | Children

  /** The guard's decision from the authentication state. */
  function Guard(loading: bool, user: Json): (r: Outcome)
    ensures r == Children <==> !loading && Truthy(user)
    ensures r.Redirect? ==> r == Redirect("/login", true) && !Truthy(user)
  {
    if loading then Placeholder
    else if !Truthy(user) then Redirect("/login", true)
    else Children
  }

  /** The protected page shows exactly when the session is restored and a user is
      signed in; a finished check without a user always replaces the history entry
      with the login page; while loading, nothing is decided. */
  lemma GuardDecision(loading: bool, user: Json)
    ensures Guard(loading, user) == Children <==> !loading && Truthy(user)
    ensures Guard(loading, user).Redirect? <==> !loading && !Truthy(user)
    ensures Guard(loading, user).Redirect? ==> Guard(loading, user) == Redirect("/login", true)
    ensures loading ==> forall u :: Guard(loading, u) == Placeholder
  {
  }
}
