/**
 * The route guard of middleware.ts: from a request's path and whether it carries a session,
 * decide whether to redirect it or let it through.
 */
module Middleware {

  /** `NextResponse.redirect(new URL(location, req.url))` or `NextResponse.next()`. */
  datatype Decision = Next | Redirect(location: string)

  /** JavaScript's `s.startsWith(prefix)`. */
  predicate StartsWith(s: string, prefix: string) {
    prefix <= s
  }

  /** `isAuthPage` (middleware.ts:6-7). */
  predicate IsAuthPage(path: string) {
    StartsWith(path, "/login") || StartsWith(path, "/signup")
  }

  /** `isProtectedPage` (middleware.ts:8-12). */
  predicate IsProtectedPage(path: string) {
    StartsWith(path, "/dashboard") || StartsWith(path, "/markets") || StartsWith(path, "/properties")
    || StartsWith(path, "/alerts") || StartsWith(path, "/settings")
  }

  /** The decision of the callback passed to `auth` (middleware.ts:4-25). */
  function Guard(path: string, isAuthenticated: bool): (d: Decision)
    ensures d == Redirect("/dashboard") <==> isAuthenticated && IsAuthPage(path)
    ensures d == Redirect("/login") <==> !isAuthenticated && IsProtectedPage(path)
    ensures d == Next <==> !(isAuthenticated && IsAuthPage(path)) && !(!isAuthenticated && IsProtectedPage(path))
    ensures d.Redirect? ==> d.location == "/dashboard" || d.location == "/login"
  {
    if IsAuthPage(path) && isAuthenticated then Redirect("/dashboard")
    else if IsProtectedPage(path) && !isAuthenticated then Redirect("/login")
    else Next
  }

  /** Classification is by prefix: every sub-path of a guarded path is guarded the same way. */
  lemma SubPathsGuardedAlike(path: string, suffix: string, isAuthenticated: bool)
    requires Guard(path, isAuthenticated).Redirect?
    ensures Guard(path + suffix, isAuthenticated) == Guard(path, isAuthenticated)
  {
  }

  /** A signed-in user is never sent to the login page, a signed-out one never to the dashboard. */
  lemma NeverRedirectsTheWrongWay(path: string, isAuthenticated: bool)
    ensures isAuthenticated ==> Guard(path, isAuthenticated) != Redirect("/login")
    ensures !isAuthenticated ==> Guard(path, isAuthenticated) != Redirect("/dashboard")
  {
  }

  /** No path is both a sign-in page and a protected page. */
  lemma AuthAndProtectedDisjoint(path: string)
    ensures !(IsAuthPage(path) && IsProtectedPage(path))
  {
    if IsAuthPage(path) {
      var second := if StartsWith(path, "/login") then 'l' else 's';
      var third := if StartsWith(path, "/login") then 'o' else 'i';
      assert path[1] == second && path[2] == third;
    }
  }

  /** Following a redirect once more lets the request through: the guard has no redirect loop. */
  lemma RedirectTargetPasses(path: string, isAuthenticated: bool)
    requires Guard(path, isAuthenticated).Redirect?
    ensures Guard(Guard(path, isAuthenticated).location, isAuthenticated) == Next
  {
    if isAuthenticated {
      assert !IsAuthPage("/dashboard") by {
        assert "/dashboard"[1] == 'd';
      }
    } else {
      assert !IsProtectedPage("/login") by {
        assert "/login"[1] == 'l';
      }
    }
  }
}
