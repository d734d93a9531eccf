/**
 * The route guard (src/components/ProtectedRoute.tsx): what a protected page
 * renders, and where it redirects, given the session's `loading` flag and
 * current user.
 */
module ProtectedRoute {
  import opened Wrappers
  import opened Identity

  datatype Rendered = Spinner | Nothing | Children

  /** What is rendered and the navigation the guard's effect performs, if any. */
  datatype GuardDecision = GuardDecision(render: Rendered, redirect: Option<string>)

  function Guard(loading: bool, currentUser: Option<AuthUser>): (d: GuardDecision)
    ensures loading ==> d.render == Spinner && d.redirect == None
    ensures !loading && currentUser.None? ==> d.render == Nothing && d.redirect == Some(LoginRoute)
    ensures d.render == Children <==> !loading && currentUser.Some?
    ensures d.redirect.Some? <==> !loading && currentUser.None?
  {
    var redirect := if !loading && currentUser.None? then Some(LoginRoute) else None;
    if loading then GuardDecision(Spinner, redirect)
    else if currentUser.Some? then GuardDecision(Children, redirect)
    else GuardDecision(Nothing, redirect)
  }

  /** Protected content is never rendered together with a redirect. */
  lemma ChildrenExcludeRedirect(loading: bool, currentUser: Option<AuthUser>)
    ensures Guard(loading, currentUser).render == Children ==> Guard(loading, currentUser).redirect.None?
    ensures Guard(loading, currentUser).redirect.Some? ==> Guard(loading, currentUser).render != Children
  {
  }
}
