/**
 * The request middleware: signed-out visitors are sent to the sign-in page except
 * on `/auth` pages; signed-in users who open an `/auth` page are sent on to the
 * dashboard, or to onboarding when they have no user row yet.
 *
 * The session and the user-row lookup are parameters; the lookup is only
 * consulted on the branch that performs it.
 */
module Middleware {
  import opened Wrappers
  import opened JsValues
  import opened Http

  const SignInPath: string := "/auth/signin"
  const DashboardPath: string := "/dashboard"
  const OnboardingPath: string := "/onboarding"
  const AuthPrefix: string := "/auth"

  datatype Decision = Redirect(target: string) | PassThrough

  /** `data: user` of the `.single()` lookup is truthy: exactly one row came back (the
    * error is not looked at, and zero rows leave `user` null). */
  predicate UserFound(rows: Result<seq<Value>, DbError>) {
    Single(rows).Success? && Truthy(Some(Single(rows).value))
  }

  /** `middleware(request)` on a path the matcher selects. */
  function Decide(session: Option<Session>, path: string, users: string -> Result<seq<Value>, DbError>): (d: Decision)
    ensures session.None? && !StartsWith(path, AuthPrefix) ==> d == Redirect(SignInPath)
    ensures session.None? && StartsWith(path, AuthPrefix) ==> d == PassThrough
    ensures session.Some? && !StartsWith(path, AuthPrefix) ==> d == PassThrough
    ensures session.Some? && StartsWith(path, AuthPrefix) ==>
      d == Redirect(if UserFound(users(session.value.userId)) then DashboardPath else OnboardingPath)
  {
    if session.None? && !StartsWith(path, AuthPrefix) then Redirect(SignInPath)
    else if session.Some? && StartsWith(path, AuthPrefix) then
      if UserFound(users(session.value.userId)) then Redirect(DashboardPath) else Redirect(OnboardingPath)
    else PassThrough
  }

  /** No redirect loop: whatever a redirect targets, the same visitor is let through there. */
  lemma NoRedirectLoop(session: Option<Session>, path: string, users: string -> Result<seq<Value>, DbError>)
    requires Decide(session, path, users).Redirect?
    ensures Decide(session, Decide(session, path, users).target, users) == PassThrough
  {
    var t := Decide(session, path, users).target;
    if session.None? {
      assert t == SignInPath;
      assert StartsWith(t, AuthPrefix);
    } else {
      assert t == DashboardPath || t == OnboardingPath;
      assert t[1] != AuthPrefix[1];
    }
  }

  /** Only the `/auth` prefix and the session matter for who is let through; the user row
    * decides only where a signed-in visitor of an `/auth` page goes. */
  lemma PassThroughIff(session: Option<Session>, path: string, users: string -> Result<seq<Value>, DbError>)
    ensures Decide(session, path, users) == PassThrough <==> (session.Some? <==> !StartsWith(path, AuthPrefix))
  {
  }

  /** `favicon.ico` in the matcher's pattern, where `.` matches any character. */
  predicate FaviconLike(s: string) {
    |s| >= 11 && s[..7] == "favicon" && s[8..11] == "ico"
  }

  /** The matcher `/((?!_next/static|_next/image|favicon.ico|public).*)`: a path that
    * starts with `/` and whose remainder starts with none of the excluded names. */
  predicate Matched(path: string) {
    && StartsWith(path, "/")
    && var rest := path[1..];
    && !StartsWith(rest, "_next/static")
    && !StartsWith(rest, "_next/image")
    && !FaviconLike(rest)
    && !StartsWith(rest, "public")
  }

  /** The middleware as deployed: paths outside the matcher are not intercepted. */
  function Middleware(session: Option<Session>, path: string, users: string -> Result<seq<Value>, DbError>): (d: Decision)
    ensures !Matched(path) ==> d == PassThrough
    ensures Matched(path) ==> d == Decide(session, path, users)
  {
    if Matched(path) then Decide(session, path, users) else PassThrough
  }

  /** Static assets, the favicon and the public folder are never redirected, whatever the
    * session or what follows the excluded name. */
  lemma MatcherExclusions(session: Option<Session>, users: string -> Result<seq<Value>, DbError>, name: string, rest: string)
    requires name in {"_next/static", "_next/image", "favicon.ico", "public"}
    ensures Middleware(session, "/" + name + rest, users) == PassThrough
  {
    var p := "/" + name + rest;
    assert p[1..] == name + rest;
    assert (name + rest)[..|name|] == name;
    if name == "favicon.ico" {
      assert (name + rest)[..7] == name[..7] == "favicon";
      assert (name + rest)[8..11] == name[8..11] == "ico";
    }
  }

  /** The exclusions are prefixes: `/publications` is never redirected either. */
  lemma PublicIsAPrefix(session: Option<Session>, users: string -> Result<seq<Value>, DbError>)
    ensures Middleware(session, "/publications", users) == PassThrough
  {
    MatcherExclusions(session, users, "public", "ations");
    assert "/" + "public" + "ations" == "/publications";
  }

  /** Application pages are intercepted: a signed-out visitor of the dashboard is sent to sign in. */
  lemma DashboardGuarded(users: string -> Result<seq<Value>, DbError>)
    ensures Middleware(None, DashboardPath, users) == Redirect(SignInPath)
  {
    assert DashboardPath[1..][0] != "public"[0];
    assert DashboardPath[1] != AuthPrefix[1];
  }
}
