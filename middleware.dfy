/**
 * middleware.ts: the decision taken for every request before it reaches
 * a page or a route: send a signed-in user from the landing and sign-in
 * pages to the dashboard, demand a session on private paths, or let the
 * request through.
 */
module Middleware {
  import opened Wrappers
  import opened Http

  /** What the middleware does with a request. */
  datatype Decision =
    | RedirectTo(location: string)  // Response.redirect to this URL
    | Protect                       // auth.protect() is called
    | Proceed                       // the request goes on untouched

  predicate StartsWith(s: string, prefix: string) {
    prefix <= s
  }

  /** The public routes: "/" and "/sos" exactly, and five prefix patterns `p(.*)`. */
  predicate IsPublic(path: string) {
    || path == "/"
    || StartsWith(path, "/sign-in")
    || StartsWith(path, "/sign-up")
    || StartsWith(path, "/api/")
    || path == "/sos"
    || StartsWith(path, "/emergency")
  }

  /** The pages a signed-in user is sent away from. */
  predicate IsLanding(path: string) {
    path == "/" || StartsWith(path, "/sign-in") || StartsWith(path, "/sign-up")
  }

  /** `new URL("/dashboard", req.url)` for a request made to `origin`. */
  function DashboardUrl(origin: string): string {
    origin + "/dashboard"
  }

  /** The middleware body, for the session's user id, the request origin and its path. */
  function Decide(userId: Option<string>, origin: string, path: string): (d: Decision)
    ensures d.RedirectTo? ==> d.location == DashboardUrl(origin)
  {
    if SignedIn(userId) && IsLanding(path) then RedirectTo(DashboardUrl(origin))
    else if !IsPublic(path) then Protect
    else Proceed
  }

  /** A signed-in user is redirected to the dashboard exactly from "/", "/sign-in*" and "/sign-up*". */
  lemma RedirectIff(userId: Option<string>, origin: string, path: string)
    ensures Decide(userId, origin, path) == RedirectTo(DashboardUrl(origin)) <==>
            SignedIn(userId) && IsLanding(path)
  {
  }

  /** Without a session no request is redirected by the middleware itself. */
  lemma SignedOutNeverRedirected(origin: string, path: string)
    ensures !Decide(None, origin, path).RedirectTo?
    ensures !Decide(Some(""), origin, path).RedirectTo?
  {
  }

  /** Every page a user is redirected from is public: the redirect replaces no protection. */
  lemma LandingIsPublic(path: string)
    requires IsLanding(path)
    ensures IsPublic(path)
  {
  }

  /** auth.protect() runs exactly on non-public paths, for any user. */
  lemma ProtectIff(userId: Option<string>, origin: string, path: string)
    ensures Decide(userId, origin, path) == Protect <==> !IsPublic(path)
  {
    if Decide(userId, origin, path).RedirectTo? {
      LandingIsPublic(path);
    }
  }

  /** The fixed public set on a few paths the application uses. */
  lemma PublicExamples()
    ensures IsPublic("/") && IsPublic("/sos") && IsPublic("/sign-in/factor-one")
    ensures IsPublic("/api/users") && IsPublic("/emergency-contacts")
  {
    assert "/api/" <= "/api/users";
    assert "/sign-in" <= "/sign-in/factor-one";
    assert "/emergency" <= "/emergency-contacts";
  }

  /** A character where two strings differ rules out one being a prefix of the other. */
  lemma DifferAt(s: string, prefix: string, i: nat)
    requires i < |s| && i < |prefix| && s[i] != prefix[i]
    ensures !StartsWith(s, prefix)
  {
  }

  /** The dashboard, the SOS history and a bare "/api" are private: only exact "/sos" is public. */
  lemma PrivateExamples()
    ensures !IsPublic("/dashboard") && !IsPublic("/sos/history") && !IsPublic("/api")
  {
    var d, h := "/dashboard", "/sos/history";
    DifferAt(d, "/sign-in", 1);
    DifferAt(d, "/sign-up", 1);
    DifferAt(d, "/api/", 1);
    DifferAt(d, "/emergency", 1);
    DifferAt(h, "/sign-in", 2);
    DifferAt(h, "/sign-up", 2);
    DifferAt(h, "/api/", 1);
    DifferAt(h, "/emergency", 1);
    assert h != "/sos" by { assert |h| != 4; }
  }
}
