/** Route protection (middleware.ts): which paths are public, which protected, and where a
    request is redirected given whether the visitor is logged in. */
module Middleware {
  import opened Text

  /** Paths reachable without logging in. */
  predicate IsPublicPath(path: string) {
    StartsWith(path, "/auth/signin") || StartsWith(path, "/auth/signup") || StartsWith(path, "/api/auth") || path == "/"
  }

  /** Paths that require a login. */
  predicate IsProtectedPath(path: string) {
    StartsWith(path, "/dashboard") || StartsWith(path, "/api/")
  }

  /** `favicon.ico` as the matcher's pattern reads it: the dot matches any character. */
  predicate FaviconLike(s: string) {
    |s| >= 11 && s[..7] == "favicon" && s[8..11] == "ico"
  }

  /** The paths the middleware runs on: all but `/_next/static…`, `/_next/image…` and
      `/favicon.ico…`. */
  predicate Matched(path: string) {
    path != [] && path[0] == '/' &&
    !StartsWith(path[1..], "_next/static") && !StartsWith(path[1..], "_next/image") && !FaviconLike(path[1..])
  }

  datatype Decision = Next | Redirect(location: string)

  /** The decision for a request: a logged-in visitor on an `/auth/` page goes to the
      dashboard; an anonymous visitor on a protected, non-public path goes to sign-in;
      everything else, and every path the middleware does not run on, passes. */
  function Decide(path: string, loggedIn: bool): (r: Decision)
    ensures r.Redirect? ==> Matched(path)
    ensures r == Redirect("/dashboard") <==> Matched(path) && loggedIn && StartsWith(path, "/auth/")
    ensures r == Redirect("/auth/signin") <==> Matched(path) && !loggedIn && IsProtectedPath(path) && !IsPublicPath(path)
    ensures r.Redirect? ==> r.location == "/dashboard" || r.location == "/auth/signin"
  {
    if !Matched(path) then Next
    else if loggedIn && StartsWith(path, "/auth/") then Redirect("/dashboard")
    else if !loggedIn && IsProtectedPath(path) && !IsPublicPath(path) then Redirect("/auth/signin")
    else Next
  }

  /** A logged-in visitor is never sent to sign-in. */
  lemma LoggedInNeverToSignIn(path: string)
    ensures Decide(path, true) != Redirect("/auth/signin")
  {
  }

  /** The authentication api is never redirected, logged in or not. */
  lemma AuthApiNeverRedirected(path: string, loggedIn: bool)
    requires StartsWith(path, "/api/auth")
    ensures Decide(path, loggedIn) == Next
  {
    assert path[2] == 'p' && "/auth/"[2] == 'u';
  }

  /** Following a redirect does not redirect again: there are no redirect loops. */
  lemma RedirectsSettle(path: string, loggedIn: bool)
    requires Decide(path, loggedIn).Redirect?
    ensures Decide(Decide(path, loggedIn).location, loggedIn) == Next
  {
    var target := Decide(path, loggedIn).location;
    if target == "/dashboard" {
      assert !StartsWith(target, "/auth/") by { assert target[1] == 'd'; }
    } else {
      assert IsPublicPath(target);
    }
  }
}
