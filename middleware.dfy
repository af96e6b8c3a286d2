/** The route guard run before the chat and task pages: a request for a
    protected page without a session token is sent to the login page. */
module Middleware {
  import opened Base

  const ProtectedRoutes: seq<string> := ["/chat", "/tasks"]
  const LoginPath := "/login"

  datatype Response = Redirect(location: string) | Next

  /** The decision for a request, given its path and its `token` cookie
      (absent when the cookie is not set). Membership in the protected list
      is exact: a subpath is not protected. */
  function Guard(pathname: string, token: Option<string>): (r: Response)
    ensures r.Redirect? <==> (pathname == "/chat" || pathname == "/tasks") && !Present(token)
    ensures r.Redirect? ==> r.location == LoginPath
    ensures r.Next? <==> pathname !in ProtectedRoutes || Present(token)
  {
    if pathname in ProtectedRoutes && !Present(token) then Redirect(LoginPath) else Next
  }

  /** The paths the middleware is configured to run on: `/chat/:path*` and
      `/tasks/:path*`, that is the page itself and anything below it. */
  predicate Routed(pathname: string) {
    exists base :: base in ProtectedRoutes && (pathname == base || StartsWith(pathname, base + "/"))
  }

  /** A subpath of a protected page is routed through the middleware but
      let through even without a token. */
  lemma SubpathPassesWithoutToken(base: string, rest: string, token: Option<string>)
    requires base in ProtectedRoutes && rest != ""
    ensures Routed(base + "/" + rest)
    ensures Guard(base + "/" + rest, token) == Next
  {
    var p := base + "/" + rest;
    assert StartsWith(p, base + "/") by { assert p[..|base + "/"|] == base + "/"; }
    assert |p| > |"/tasks"|;
  }

  /** With a non-empty token every request passes. */
  lemma TokenPassesEverything(pathname: string, token: string)
    requires token != ""
    ensures Guard(pathname, Some(token)) == Next
  {
  }
}
