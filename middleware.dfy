/** The route gate (middleware.ts): a request to a non-public page without the refresh cookie
    is redirected to the login page, which is told where to send the user back to. */
module Middleware {
  import Text
  import UrlSearch

  const PublicPathPrefixes: seq<string> := ["/auth", "/privacy", "/terms"]
  const PublicExactPaths: seq<string> := ["/robots.txt", "/sitemap.xml", "/manifest.json"]
  const LoginPath: string := "/auth/login"

  /** What the gate does with a request. */
  datatype Decision =
    /** `NextResponse.next()`. */
    | Pass
    /** `NextResponse.redirect(loginUrl)`: the login path with its search parameters. */
    | Redirect(path: string, query: UrlSearch.Params)

  /** The request as the gate sees it: `nextUrl.pathname`, `nextUrl.search` and whether the
      `refresh_token` cookie is present. */
  datatype GateRequest = GateRequest(pathname: string, search: string, hasRefreshCookie: bool)

  /** `PUBLIC_EXACT_PATHS.includes(pathname) || PUBLIC_PATH_PREFIXES.some(p => pathname.startsWith(p))`. */
  predicate IsPublicPath(pathname: string) {
    pathname in PublicExactPaths || exists i :: 0 <= i < |PublicPathPrefixes| && Text.StartsWith(pathname, PublicPathPrefixes[i])
  }

  /** `middleware(request)`. */
  function Gate(request: GateRequest): (d: Decision)
    ensures IsPublicPath(request.pathname) ==> d == Pass
    ensures !IsPublicPath(request.pathname) && request.hasRefreshCookie ==> d == Pass
    ensures d.Redirect? <==> !IsPublicPath(request.pathname) && !request.hasRefreshCookie
    ensures d.Redirect? ==> d.path == LoginPath && d.query == [("next", request.pathname + request.search)]
  {
    if IsPublicPath(request.pathname) then Pass
    else if !request.hasRefreshCookie then
      Redirect(LoginPath, UrlSearch.Set([], "next", request.pathname + request.search))
    else Pass
  }

  /** The public-path test spelled out as the three exact paths and three prefixes. */
  lemma PublicPathCases(pathname: string)
    ensures IsPublicPath(pathname) <==>
      pathname == "/robots.txt" || pathname == "/sitemap.xml" || pathname == "/manifest.json"
      || Text.StartsWith(pathname, "/auth") || Text.StartsWith(pathname, "/privacy") || Text.StartsWith(pathname, "/terms")
  {
    if Text.StartsWith(pathname, "/auth") {
      assert Text.StartsWith(pathname, PublicPathPrefixes[0]);
    }
    if Text.StartsWith(pathname, "/privacy") {
      assert Text.StartsWith(pathname, PublicPathPrefixes[1]);
    }
    if Text.StartsWith(pathname, "/terms") {
      assert Text.StartsWith(pathname, PublicPathPrefixes[2]);
    }
  }

  /** The login page is itself public, so following the redirect never redirects again,
      whatever the cookie. */
  lemma RedirectTargetIsPublic(request: GateRequest)
    ensures Gate(request).Redirect? ==> IsPublicPath(Gate(request).path)
    ensures Gate(request).Redirect? ==> Gate(GateRequest(Gate(request).path, "", false)) == Pass
  {
    assert LoginPath[..|"/auth"|] == "/auth";
    assert Text.StartsWith(LoginPath, PublicPathPrefixes[0]);
  }

  /** The prefix test is plain `startsWith`: paths that merely begin like a public prefix
      are public too. */
  lemma PrefixLookalikesArePublic()
    ensures IsPublicPath("/authorize")
    ensures IsPublicPath("/termsx")
    ensures !IsPublicPath("/projects")
  {
    assert "/authorize"[..|"/auth"|] == "/auth";
    assert Text.StartsWith("/authorize", PublicPathPrefixes[0]);
    assert "/termsx"[..|"/terms"|] == "/terms";
    assert Text.StartsWith("/termsx", PublicPathPrefixes[2]);
    PublicPathCases("/projects");
    assert "/projects"[..5][1] != "/auth"[1];
    assert "/projects"[..6][1] != "/terms"[1];
    assert "/projects"[..8][3] != "/privacy"[3];
  }
}
