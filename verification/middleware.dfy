/**
 * The redirect decision of the request middleware (middleware.ts): visitors without a session
 * are sent to the login page, signed-in users are kept away from the login and sign-up pages.
 */
module Middleware {
  /** What the middleware answers. */
  datatype Decision = RedirectToLogin | RedirectToDashboard | PassThrough

  const LoginPath := "/auth/giris"
  const SignUpPath := "/auth/kayit"
  const DashboardPath := "/kontrol-paneli"

  /** `s.startsWith(prefix)`. */
  predicate StartsWith(s: string, prefix: string) {
    |prefix| <= |s| && s[..|prefix|] == prefix
  }

  /** The login and sign-up pages, by raw prefix. */
  predicate IsAuthPage(path: string) {
    StartsWith(path, LoginPath) || StartsWith(path, SignUpPath)
  }

  /** The decision for a request to `path`; `hasToken` says whether a session token was found. */
  function Decide(hasToken: bool, path: string): Decision {
    if !hasToken && !StartsWith(path, "/auth") && path != "/" && !StartsWith(path, "/_next") then
      RedirectToLogin
    else if hasToken && IsAuthPage(path) then
      RedirectToDashboard
    else
      PassThrough
  }

  lemma PrefixOfPrefix(s: string, p: string, q: string)
    requires StartsWith(s, p) && StartsWith(p, q)
    ensures StartsWith(s, q)
  {
    assert s[..|q|] == s[..|p|][..|q|];
  }

  /** No request is sent where it does not belong: the home page always passes; a signed-in
      user is never sent to login and a visitor never to the dashboard; a visitor's request to
      any path beginning with "/auth" or "/_next" passes, raw prefixes such as "/authx" included;
      and each redirect target passes through for the same visitor, so redirects never chain. */
  lemma DecisionSpec(hasToken: bool, path: string)
    ensures Decide(hasToken, "/") == PassThrough
    ensures hasToken ==> Decide(hasToken, path) != RedirectToLogin
    ensures !hasToken ==> Decide(hasToken, path) != RedirectToDashboard
    ensures !hasToken && (StartsWith(path, "/auth") || StartsWith(path, "/_next")) ==>
      Decide(hasToken, path) == PassThrough
    ensures Decide(false, "/authx") == PassThrough
    ensures Decide(hasToken, path) == RedirectToLogin ==> Decide(hasToken, LoginPath) == PassThrough
    ensures Decide(hasToken, path) == RedirectToDashboard ==> Decide(hasToken, DashboardPath) == PassThrough
  {
    assert StartsWith("/authx", "/auth");
    assert StartsWith(LoginPath, "/auth");
    assert DashboardPath[..|LoginPath|][1] != LoginPath[1];
    assert DashboardPath[..|SignUpPath|][1] != SignUpPath[1];
  }

  /** Signed in, exactly the login and sign-up pages are redirected, to the dashboard. Signed
      out, exactly the paths outside the home page, "/auth…" and "/_next…" go to login. */
  lemma DecisionCases(hasToken: bool, path: string)
    ensures hasToken ==> (Decide(hasToken, path) == RedirectToDashboard <==> IsAuthPage(path))
    ensures !hasToken ==> (Decide(hasToken, path) == RedirectToLogin <==>
      path != "/" && !StartsWith(path, "/auth") && !StartsWith(path, "/_next"))
    ensures IsAuthPage(path) ==> StartsWith(path, "/auth")
  {
    if StartsWith(path, LoginPath) {
      PrefixOfPrefix(path, LoginPath, "/auth");
    }
    if StartsWith(path, SignUpPath) {
      PrefixOfPrefix(path, SignUpPath, "/auth");
    }
  }
}
