// The routing guard that runs before every matched request: it looks at the
// two session cookies and the requested path and decides whether to redirect.

module Middleware {
  import opened Wrappers

  /** What the guard hands back to the framework. */
  datatype Decision = Redirect(target: string) | PassThrough

  /** A cookie value counts only when it is present and non-empty (JavaScript truthiness). */
  predicate Truthy(cookie: Option<string>) {
    cookie.Some? && cookie.value != ""
  }

  /** The guard's decision for the cookies `accessToken`, `refreshToken` and the request path. */
  function Guard(accessToken: Option<string>, refreshToken: Option<string>, path: string): (d: Decision)
    ensures !Truthy(accessToken) || !Truthy(refreshToken) ==> d == Redirect("/login")
    ensures Truthy(accessToken) && Truthy(refreshToken) && path == "/" ==> d == Redirect("/dashboard")
    ensures Truthy(accessToken) && Truthy(refreshToken) && path != "/" ==> d == PassThrough
  {
    if !Truthy(accessToken) || !Truthy(refreshToken) then Redirect("/login")
    else if path == "/" then Redirect("/dashboard")
    else PassThrough
  }

  /** A request passes through exactly when both tokens are present and the path is not the root. */
  lemma PassThroughExactly(accessToken: Option<string>, refreshToken: Option<string>, path: string)
    ensures Guard(accessToken, refreshToken, path) == PassThrough
            <==> Truthy(accessToken) && Truthy(refreshToken) && path != "/"
  {
  }

  /** The token check comes first: the root path without a session goes to the login page. */
  lemma RootWithoutSessionGoesToLogin(refreshToken: Option<string>)
    ensures Guard(None, refreshToken, "/") == Redirect("/login")
    ensures Guard(Some(""), refreshToken, "/") == Redirect("/login")
  {
  }

  /** A redirect to the login page happens exactly when a token is missing or empty. */
  lemma LoginRedirectOnlyWithoutSession(accessToken: Option<string>, refreshToken: Option<string>, path: string)
    ensures Guard(accessToken, refreshToken, path) == Redirect("/login")
            <==> !Truthy(accessToken) || !Truthy(refreshToken)
  {
  }
}
