/** The route guard (middleware.ts): every request the route matcher hands
    to it, outside the public authentication pages, must carry an
    `access_token` cookie, otherwise it is redirected to the login service,
    which is told to come back to the application's callback page. URL
    encoding is a parameter. */
module Middleware {
  import opened Results

  const CallbackPath: string := "/auth/callback/"
  const AccessDeniedPath: string := "/auth/access-denied"

  /** `PUBLIC_PATHS`. */
  const PublicPaths: seq<string> := [CallbackPath, AccessDeniedPath]

  const LoginBase: string := "https://ai-service-desk-batch-fcb0f0g5g2gneuc0.centralus-01.azurewebsites.net"

  /** `PUBLIC_PATHS.some((path) => pathname.startsWith(path))`. */
  predicate IsPublicPath(pathname: string)
  {
    exists i :: 0 <= i < |PublicPaths| && PublicPaths[i] <= pathname
  }

  /** A path is public exactly when it starts with one of the two public
      prefixes. */
  lemma PublicPathPrefixes(pathname: string)
    ensures IsPublicPath(pathname) <==> CallbackPath <= pathname || AccessDeniedPath <= pathname
  {
    assert PublicPaths[0] == CallbackPath && PublicPaths[1] == AccessDeniedPath;
  }

  /** The callback page without its trailing slash is not public. */
  lemma CallbackWithoutSlashNotPublic()
    ensures !IsPublicPath("/auth/callback")
  {
    PublicPathPrefixes("/auth/callback");
    assert |"/auth/callback"| < |CallbackPath|;
    assert "/auth/callback"[6] != AccessDeniedPath[6];
  }

  /** Every page under the callback prefix is public, so the page the login
      service returns to is never itself redirected. */
  lemma CallbackPagesArePublic(rest: string)
    ensures IsPublicPath(CallbackPath + rest)
  {
    PublicPathPrefixes(CallbackPath + rest);
    assert (CallbackPath + rest)[..|CallbackPath|] == CallbackPath;
  }

  datatype Response = Redirect(location: string) | Next

  /** `middleware`: a request to a non-public path without a truthy token
      (no cookie, or an empty one) is redirected to the login service with
      the application's callback page as `redirect_uri`; everything else
      passes through. */
  function Middleware(pathname: string, token: Option<string>, origin: string, encode: string -> string): (r: Response)
    ensures r.Redirect? <==> !IsPublicPath(pathname) && !TruthyText(token)
    ensures TruthyText(token) ==> r == Next
    ensures r.Redirect? ==> r.location == LoginBase + "?redirect_uri=" + encode(origin + CallbackPath)
  {
    if !IsPublicPath(pathname) && !TruthyText(token) then
      Redirect(LoginBase + "?redirect_uri=" + encode(origin + CallbackPath))
    else
      Next
  }

  /** `"favicon.ico"` read as a regular expression, whose '.' matches any
      character, at the start of `s`. */
  predicate StartsLikeFavicon(s: string)
  {
    |s| >= 11 && s[..7] == "favicon" && s[8..11] == "ico"
  }

  /** `config.matcher`, `/((?!_next/static|_next/image|favicon.ico|api/).*)`:
      the handler runs for a path that starts with '/' and whose rest does
      not start with one of the excluded prefixes. */
  predicate Matched(pathname: string)
  {
    && |pathname| >= 1 && pathname[0] == '/'
    && !("_next/static" <= pathname[1..])
    && !("_next/image" <= pathname[1..])
    && !StartsLikeFavicon(pathname[1..])
    && !("api/" <= pathname[1..])
  }

  /** A request as the framework routes it: paths the matcher excludes pass
      without running the handler; the others go through `middleware`. */
  function Route(pathname: string, token: Option<string>, origin: string, encode: string -> string): (r: Response)
    ensures r.Redirect? <==> Matched(pathname) && !IsPublicPath(pathname) && !TruthyText(token)
    ensures !Matched(pathname) ==> r == Next
    ensures r.Redirect? ==> r.location == LoginBase + "?redirect_uri=" + encode(origin + CallbackPath)
  {
    if Matched(pathname) then Middleware(pathname, token, origin, encode) else Next
  }

  /** API routes are never redirected, token or no token. */
  lemma ApiRoutesPass(rest: string, token: Option<string>, origin: string, encode: string -> string)
    ensures Route("/api/" + rest, token, origin, encode) == Next
  {
    assert ("/api/" + rest)[1..] == "api/" + rest;
    assert "api/" <= ("/api/" + rest)[1..];
  }

  /** Any path whose first segment starts with "favicon", one character,
      then "ico" escapes the handler too, not only "/favicon.ico". */
  lemma FaviconPatternWide(token: Option<string>, origin: string, encode: string -> string)
    ensures Route("/faviconXico", token, origin, encode) == Next
  {
    assert "/faviconXico"[1..] == "faviconXico";
    assert StartsLikeFavicon("faviconXico");
  }

  /** Following the redirect back to the callback page is not redirected
      again, token or no token. */
  lemma NoRedirectLoop(rest: string, token: Option<string>, origin: string, encode: string -> string)
    ensures Middleware(CallbackPath + rest, token, origin, encode) == Next
  {
    CallbackPagesArePublic(rest);
  }
}
