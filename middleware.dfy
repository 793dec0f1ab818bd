/** The request middleware (src/middleware.ts): it skips API routes and
    files, classifies the remaining paths as protected or not, and lets
    every request through. */
module Middleware {
  import opened Strings

  /** The paths the middleware treats as needing a login. */
  const ProtectedRoutes: seq<string> := ["/developer-dashboard", "/dashboard", "/ide", "/reports"]

  /** `routes.some((route) => path.startsWith(route))`. */
  predicate AnyPrefix(routes: seq<string>, path: string) {
    |routes| > 0 && (StartsWith(path, routes[0]) || AnyPrefix(routes[1..], path))
  }

  lemma {:induction false} AnyPrefixIff(routes: seq<string>, path: string)
    ensures AnyPrefix(routes, path) <==> exists k :: 0 <= k < |routes| && StartsWith(path, routes[k])
  {
    if |routes| > 0 {
      AnyPrefixIff(routes[1..], path);
      assert forall k :: 1 <= k < |routes| ==> routes[k] == routes[1..][k - 1];
    }
  }

  /** `isProtectedRoute`: a plain string-prefix test against the four routes. */
  predicate IsProtectedRoute(path: string) {
    AnyPrefix(ProtectedRoutes, path)
  }

  /** The protected paths are exactly those starting with one of the four routes. */
  lemma IsProtectedRouteIff(path: string)
    ensures IsProtectedRoute(path) <==>
      StartsWith(path, "/developer-dashboard") || StartsWith(path, "/dashboard") ||
      StartsWith(path, "/ide") || StartsWith(path, "/reports")
  {
    AnyPrefixIff(ProtectedRoutes, path);
    var routes := ProtectedRoutes;
    assert routes[0] == "/developer-dashboard" && routes[1] == "/dashboard";
    assert routes[2] == "/ide" && routes[3] == "/reports";
  }

  /** The early return for API routes and static files: a plain "/api" prefix
      or a dot anywhere. */
  predicate Skips(path: string) {
    StartsWith(path, "/api") || Contains(path, ".")
  }

  lemma SkipsIff(path: string)
    ensures Skips(path) <==> StartsWith(path, "/api") || '.' in path
  {
    ContainsChar(path, '.');
  }

  datatype Response = Next

  /** What one call does: whether it returned early, what it computed for
      `isProtectedRoute` when it did not, and the response. */
  datatype Trace = Trace(skipped: bool, protectedRoute: bool, response: Response)

  /** `middleware(request)` on the request's path. The protection flag is
      computed and then ignored: the response is `next()` for every path. */
  function Handle(path: string): (t: Trace)
    ensures t.response == Next
    ensures t.skipped <==> StartsWith(path, "/api") || '.' in path
    ensures !t.skipped ==> (t.protectedRoute <==> exists k :: 0 <= k < |ProtectedRoutes| && StartsWith(path, ProtectedRoutes[k]))
  {
    SkipsIff(path);
    AnyPrefixIff(ProtectedRoutes, path);
    if Skips(path) then Trace(true, false, Next)
    else Trace(false, IsProtectedRoute(path), Next)
  }

  /** Prefix matching over-reaches: "/ideas" counts as protected. */
  lemma IdeasIsProtected()
    ensures Handle("/ideas") == Trace(false, true, Next)
  {
    SkipsIff("/ideas");
    IsProtectedRouteIff("/ideas");
    assert "/ideas"[..4] == "/ide";
  }

  /** "/dashboards" counts as protected too. */
  lemma DashboardsIsProtected()
    ensures Handle("/dashboards") == Trace(false, true, Next)
  {
    DashboardsNotSkipped();
    IsProtectedRouteIff("/dashboards");
    assert "/dashboards"[..10] == "/dashboard";
  }

  lemma DashboardsNotSkipped()
    ensures !Skips("/dashboards")
  {
    assert !StartsWith("/dashboards", "/api") by {
      assert "/dashboards"[1] != "/api"[1];
    }
    NoDotNoSkip("/dashboards");
  }

  /** A path with neither the "/api" prefix nor a dot is not skipped. */
  lemma NoDotNoSkip(path: string)
    requires !StartsWith(path, "/api") && '.' !in path
    ensures !Skips(path)
  {
    ContainsChar(path, '.');
  }

  /** "/apiary" is skipped as if it were an API route. */
  lemma ApiaryIsSkipped()
    ensures Handle("/apiary").skipped
  {
    assert "/apiary"[..4] == "/api";
  }

  /** A dot anywhere skips, even under a protected route. */
  lemma DottedProtectedPathIsSkipped()
    ensures Handle("/reports/v1.2").skipped
  {
    SkipsIff("/reports/v1.2");
    assert "/reports/v1.2"[11] == '.';
  }

  /** A path outside the four routes is neither skipped nor protected. */
  lemma LoginIsPublic()
    ensures Handle("/login") == Trace(false, false, Next)
  {
    assert !StartsWith("/login", "/api") by {
      assert "/login"[1] != "/api"[1];
    }
    NoDotNoSkip("/login");
    LoginIsNoRoute();
  }

  lemma LoginIsNoRoute()
    ensures !IsProtectedRoute("/login")
  {
    IsProtectedRouteIff("/login");
    assert "/login"[1] != "/ide"[1] && "/login"[1] != "/reports"[1];
    assert "/login"[1] != "/dashboard"[1] && "/login"[1] != "/developer-dashboard"[1];
  }
}
