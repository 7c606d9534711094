/** The dashboard layout: from `(isLoading, isAuthenticated)` it either renders
    its children, renders nothing, or renders nothing and replaces the route
    with '/login' (the effect). */
module DashboardLayout {
  import opened Js
  import opened Http
  import opened Session
  import opened AuthContext

  datatype LayoutResult = LayoutResult(rendersChildren: bool, redirect: Option<Nav>)

  function Layout(isLoading: bool, isAuthenticated: bool): (r: LayoutResult)
    ensures r.rendersChildren <==> !isLoading && isAuthenticated
    ensures r.redirect.Some? <==> !isLoading && !isAuthenticated
    ensures r.redirect.Some? ==> r.redirect.value == Replace("/login")
  {
    LayoutResult(!isLoading && isAuthenticated,
                 if !isLoading && !isAuthenticated then Some(Replace("/login")) else None)
  }

  /** Rendering children and redirecting never happen together. */
  lemma RenderAndRedirectExclusive(isLoading: bool, isAuthenticated: bool)
    ensures !(Layout(isLoading, isAuthenticated).rendersChildren && Layout(isLoading, isAuthenticated).redirect.Some?)
  {
  }

  /** While loading, nothing is shown and no redirect is issued. */
  lemma LoadingShowsNothing(isAuthenticated: bool)
    ensures Layout(true, isAuthenticated) == LayoutResult(false, None)
  {
  }

  /** Once the provider's `checkAuth` has settled, the layout shows the dashboard exactly when the
      profile resolved and otherwise redirects to '/login'. */
  lemma GateAfterCheckAuth(outcome: FetchOutcome)
    ensures var s := AfterCheckAuth(outcome);
            var r := Layout(s.isLoading, s.isAuthenticated);
            (r.rendersChildren <==> Resolve(outcome).Some?)
            && (r.redirect == Some(Replace("/login")) <==> Resolve(outcome).None?)
  {
  }

  /** A login in flight hides the dashboard even from a user who was already authenticated. */
  lemma LoginInFlightHides(prev: AuthState)
    ensures var s := prev.(isLoading := true);
            Layout(s.isLoading, s.isAuthenticated) == LayoutResult(false, None)
  {
  }
}
