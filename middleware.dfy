/** The route guard of `middleware.ts`: a decision over whether the request
    carries a session and its path. */
module Middleware {
  import opened Common

  datatype Outcome = Next | Redirect(target: string)

  /** The decision inside the `auth((req) => ...)` callback. */
  function Guard(authenticated: bool, pathname: string): (r: Outcome)
    ensures r == Redirect("/") <==> !authenticated && StartsWith(pathname, "/profile")
    ensures r == Redirect("/profile") <==> authenticated && (pathname == "/" || pathname == "/register")
    ensures r.Redirect? ==> r.target == "/" || r.target == "/profile"
  {
    if !authenticated && StartsWith(pathname, "/profile") then Redirect("/")
    else if authenticated && (pathname == "/" || pathname == "/register") then Redirect("/profile")
    else Next
  }

  /** The guard never sends a client somewhere it would be sent away from again. */
  lemma NoRedirectLoop(authenticated: bool, pathname: string)
    ensures Guard(authenticated, pathname).Redirect? ==>
      Guard(authenticated, Guard(authenticated, pathname).target) == Next
  {
  }

  /** The profile test is a bare prefix test, and a visitor without a
      session may open the registration page. */
  lemma GuardExamples()
    ensures Guard(false, "/profile/x") == Redirect("/")
    ensures Guard(false, "/profileX") == Redirect("/")
    ensures Guard(false, "/register") == Next
    ensures Guard(true, "/profile") == Next
  {
    assert "/register"[1] != "/profile"[1];
  }

  /** The `matcher` of the middleware's `config`: every path except those
      whose first segment begins with `api`, `_next/static`, `_next/image`
      or `favicon.ico`. */
  predicate Matched(pathname: string) {
    StartsWith(pathname, "/")
    && !StartsWith(pathname[1..], "api")
    && !StartsWith(pathname[1..], "_next/static")
    && !StartsWith(pathname[1..], "_next/image")
    && !StartsWith(pathname[1..], "favicon.ico")
  }

  /** What the middleware does to a request: paths outside the matcher are
      never guarded. */
  function Middleware(authenticated: bool, pathname: string): (r: Outcome)
    ensures !Matched(pathname) ==> r == Next
    ensures Matched(pathname) ==> r == Guard(authenticated, pathname)
  {
    if Matched(pathname) then Guard(authenticated, pathname) else Next
  }

  /** The redirect targets `/` and `/profile` are inside the matcher, and the
      whole middleware still never redirects a client twice in a row. */
  lemma MiddlewareNoRedirectLoop(authenticated: bool, pathname: string)
    ensures Middleware(authenticated, pathname).Redirect? ==>
      Matched(Middleware(authenticated, pathname).target)
      && Middleware(authenticated, Middleware(authenticated, pathname).target) == Next
  {
    NoRedirectLoop(authenticated, pathname);
    assert Matched("/");
    assert Matched("/profile") by {
      var rest := "/profile"[1..];
      assert rest[0] == 'p';
      assert rest[0] != "api"[0] && rest[0] != "_next/static"[0] && rest[0] != "favicon.ico"[0];
    }
  }

  /** API routes and static assets pass through without a session check,
      whether or not the request carries a session. */
  lemma ExcludedPathsPass(authenticated: bool)
    ensures Middleware(authenticated, "/api/users") == Next
    ensures Middleware(authenticated, "/api/profile") == Next
    ensures Middleware(false, "/_next/static/chunk.js") == Next
    ensures Middleware(true, "/favicon.ico") == Next
  {
    assert !Matched("/api/users") by { assert "/api/users"[1..][..3] == "api"; }
    assert !Matched("/api/profile") by { assert "/api/profile"[1..][..3] == "api"; }
  }
}
