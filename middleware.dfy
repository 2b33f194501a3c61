/**
 * The authentication middleware (middleware.ts): which paths it runs on and
 * whether it redirects.
 */
module Middleware {
  import opened Wrappers

  const Login: string := "/login"
  const Home: string := "/"

  /** The paths reachable without signing in. */
  predicate IsPublicPath(path: string) {
    path == "/login" || path == "/register" || path == "/forgot-password"
  }

  /** `request.cookies.get("auth-token")?.value || ""`. */
  function Token(authCookie: Option<string>): string {
    if authCookie.Some? then authCookie.value else ""
  }

  /** Any non-empty token counts as signed in. */
  predicate IsAuthenticated(authCookie: Option<string>) {
    Token(authCookie) != ""
  }

  datatype Decision = Redirect(target: string) | Next

  /** The middleware's answer for a request to `path` carrying `authCookie`. */
  function Decide(path: string, authCookie: Option<string>): (d: Decision)
    ensures d == Redirect(Home) <==> IsPublicPath(path) && IsAuthenticated(authCookie)
    ensures d == Redirect(Login) <==> !IsPublicPath(path) && !IsAuthenticated(authCookie)
    ensures d == Next <==> (IsPublicPath(path) <==> !IsAuthenticated(authCookie))
  {
    var isPublic := IsPublicPath(path);
    var isAuthenticated := IsAuthenticated(authCookie);
    if isPublic && isAuthenticated then Redirect(Home)
    else if !isPublic && !isAuthenticated then Redirect(Login)
    else Next
  }

  /** A redirect's target, requested again with the same cookie, passes through: at most one redirect. */
  lemma NoRedirectLoop(path: string, authCookie: Option<string>)
    ensures Decide(path, authCookie).Redirect? ==> Decide(Decide(path, authCookie).target, authCookie) == Next
  {
    assert !IsPublicPath(Home);
    assert IsPublicPath(Login);
  }

  /** What `.` matches in a JavaScript regular expression: anything but a line terminator. */
  predicate DotMatches(c: char) {
    c != '\n' && c != '\r' && c != '\U{2028}' && c != '\U{2029}'
  }

  /** The lookahead alternative `favicon.ico`, whose `.` is not escaped. */
  predicate FaviconPattern(rest: string) {
    |rest| >= 11 && rest[..7] == "favicon" && DotMatches(rest[7]) && rest[8..11] == "ico"
  }

  /** The negative lookahead `(?!api|_next/static|_next/image|favicon.ico)` at the start of `rest`. */
  predicate SkippedAsWritten(rest: string) {
    "api" <= rest || "_next/static" <= rest || "_next/image" <= rest || FaviconPattern(rest)
  }

  /** `/` then `.*` to the end. */
  predicate WholePath(path: string) {
    |path| >= 1 && path[0] == '/' && forall i | 1 <= i < |path| :: DotMatches(path[i])
  }

  /** The matcher `/((?!api|_next/static|_next/image|favicon.ico).*)` as written. */
  predicate Matched(path: string) {
    WholePath(path) && !SkippedAsWritten(path[1..])
  }

  /** The matcher with the dot escaped, as its comment describes it. */
  predicate MatchedIntended(path: string) {
    WholePath(path)
    && !("api" <= path[1..] || "_next/static" <= path[1..] || "_next/image" <= path[1..] || "favicon.ico" <= path[1..])
  }

  /** The two matchers differ exactly on the paths `/favicon?ico…` whose `?` is not a dot. */
  lemma MatcherDifference(path: string)
    ensures Matched(path) != MatchedIntended(path) <==>
      && WholePath(path)
      && !("api" <= path[1..] || "_next/static" <= path[1..] || "_next/image" <= path[1..])
      && FaviconPattern(path[1..]) && path[8] != '.'
  {
    if WholePath(path) {
      var rest := path[1..];
      if |rest| >= 11 {
        assert "favicon.ico" <= rest <==> rest[..7] == "favicon" && rest[7] == '.' && rest[8..11] == "ico" by {
          if "favicon.ico" <= rest {
            assert rest[..11] == "favicon.ico";
            assert rest[..7] == rest[..11][..7];
            assert rest[8..11] == rest[..11][8..11];
          }
          if rest[..7] == "favicon" && rest[7] == '.' && rest[8..11] == "ico" {
            assert rest[..11] == rest[..7] + [rest[7]] + rest[8..11];
          }
        }
      }
    }
  }

  /** A page path such as "/favicon_icons" skips the middleware as written, so it is served without sign-in. */
  lemma FaviconLookaheadTooWide()
    ensures !Matched("/favicon_icons") && MatchedIntended("/favicon_icons")
    ensures Decide("/favicon_icons", None) == Redirect(Login)
  {
    var path := "/favicon_icons";
    var rest := path[1..];
    assert rest == "favicon_icons";
    assert rest[..7] == "favicon" && rest[8..11] == "ico";
    assert rest[7] == '_';
    assert "favicon.ico"[7] == '.';
    assert !("favicon.ico" <= rest);
    assert rest[0] == 'f';
    assert !("api" <= rest) && !("_next/static" <= rest) && !("_next/image" <= rest);
  }

  /**
   * A request as the middleware sees it, with the matcher corrected: paths
   * the matcher skips pass through, the others get the redirect decision.
   */
  function Run(path: string, authCookie: Option<string>): (d: Decision)
    ensures !MatchedIntended(path) ==> d == Next
    ensures MatchedIntended(path) ==> d == Decide(path, authCookie)
  {
    if MatchedIntended(path) then Decide(path, authCookie) else Next
  }

  /** Both redirect targets are guarded by the corrected matcher, so a redirect is never followed by another. */
  lemma RunNoRedirectLoop(path: string, authCookie: Option<string>)
    ensures Run(path, authCookie).Redirect? ==> Run(Run(path, authCookie).target, authCookie) == Next
  {
    assert MatchedIntended(Home) by {
      assert Home[1..] == [];
    }
    assert MatchedIntended(Login) by {
      var rest := Login[1..];
      assert rest == "login" && rest[0] == 'l';
      assert !("api" <= rest) && !("_next/static" <= rest) && !("_next/image" <= rest) && !("favicon.ico" <= rest);
    }
    NoRedirectLoop(path, authCookie);
  }

  /** With the corrected matcher, a signed-out request for "/favicon_icons" is sent to the sign-in page. */
  lemma RunGuardsFaviconLookalike()
    ensures Run("/favicon_icons", None) == Redirect(Login)
  {
    FaviconLookaheadTooWide();
  }
}
