/** The edge middleware: a presence-only check of the `token` cookie on
    dashboard paths, failing closed to '/login' when the cookie store cannot
    be read. */
module Middleware {
  import opened Js

  const ProtectedPrefix := "/dashboard"
  const SessionCookie := "token"

  /** The request's cookie store: the names it holds, or a store whose lookup throws. */
  datatype Cookies = CookieNames(names: set<string>) | Unreadable

  datatype EdgeRequest = EdgeRequest(pathname: string, url: string, cookies: Cookies)

  /** `NextResponse.next()`, or `NextResponse.redirect(new URL(path, base))`. */
  datatype EdgeResponse = Next | Redirect(path: string, base: string)

  function Handle(req: EdgeRequest): (r: EdgeResponse)
    ensures r.Redirect? ==> r == Redirect("/login", req.url)
    ensures r.Redirect? <==>
              StartsWith(req.pathname, ProtectedPrefix)
              && (req.cookies.Unreadable? || SessionCookie !in req.cookies.names)
  {
    if StartsWith(req.pathname, ProtectedPrefix) then
      match req.cookies
      case Unreadable => Redirect("/login", req.url)
      case CookieNames(names) => if SessionCookie !in names then Redirect("/login", req.url) else Next
    else Next
  }

  /** The route matcher `/dashboard/:path*`: the middleware runs on '/dashboard' and below only. */
  predicate Matched(pathname: string) {
    pathname == ProtectedPrefix || StartsWith(pathname, ProtectedPrefix + "/")
  }

  /** The whole edge step: unmatched paths never reach the middleware. */
  function Edge(req: EdgeRequest): (r: EdgeResponse)
    ensures !Matched(req.pathname) ==> r == Next
    ensures Matched(req.pathname) ==> r == Handle(req)
  {
    if Matched(req.pathname) then Handle(req) else Next
  }

  /** A matched path also passes the middleware's own prefix test, so the matcher only narrows it. */
  lemma MatchedIsProtected(pathname: string)
    requires Matched(pathname)
    ensures StartsWith(pathname, ProtectedPrefix)
  {
    if pathname != ProtectedPrefix {
      assert pathname[..|ProtectedPrefix|] == (pathname[..|ProtectedPrefix| + 1])[..|ProtectedPrefix|];
    }
  }

  /** Only presence is tested: a dashboard request carrying `token` passes through, and changing
      its other cookies or its URL does not change that. */
  lemma PresenceOnly(pathname: string, url: string, names: set<string>)
    requires StartsWith(pathname, ProtectedPrefix) && SessionCookie in names
    ensures Handle(EdgeRequest(pathname, url, CookieNames(names))) == Next
  {
  }

  /** Removing the cookie from such a request turns the answer into the redirect. */
  lemma MissingCookieRedirects(pathname: string, url: string, names: set<string>)
    requires StartsWith(pathname, ProtectedPrefix)
    ensures Handle(EdgeRequest(pathname, url, CookieNames(names - {SessionCookie}))) == Redirect("/login", url)
  {
  }

  /** A path outside the prefix passes whatever the cookies. */
  lemma UnprotectedPasses(req: EdgeRequest)
    requires !StartsWith(req.pathname, ProtectedPrefix)
    ensures Handle(req) == Next
  {
  }

  /** The prefix test is textual: '/dashboardx' is protected by the middleware itself, but the
      matcher never routes it there. */
  lemma PrefixIsTextual()
    ensures StartsWith("/dashboardx", ProtectedPrefix)
    ensures !Matched("/dashboardx")
  {
    assert "/dashboardx"[..11] == "/dashboardx";
  }
}
