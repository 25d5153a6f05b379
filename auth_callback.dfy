/**
 * `GET /auth/callback`: the OAuth provider's redirect back to the application.
 * An `error` parameter sends the visitor back to sign in with the provider's
 * description; a `code` is exchanged for a session and the user-row lookup
 * decides between the dashboard and onboarding; everything else goes back to
 * sign in.
 *
 * The code exchange, the user lookup and `encodeURIComponent` are parameters;
 * a redirect is described by its target path and query.
 */
module AuthCallback {
  import opened Wrappers
  import opened JsValues
  import opened Http

  const DashboardPath: string := "/dashboard"
  const OnboardingPath: string := "/onboarding"
  const SignInWithError: string := "/auth/signin?error="
  const DefaultOAuthError: string := "Authentication failed"
  const ExchangeFailed: string := "Authentication failed. Please try again."
  const NoCodeTarget: string := "/auth/signin?error=No authentication code received"

  /** The query parameters the callback reads; `None` is a missing parameter. */
  datatype CallbackQuery = CallbackQuery(code: Option<string>, error: Option<string>, errorDescription: Option<string>)

  /** The sign-in page with an encoded error message. */
  function SignInFailure(message: string, encode: string -> string): string {
    SignInWithError + encode(message)
  }

  /** Where the provider's error sends the visitor: its description, or a default. */
  function OAuthErrorTarget(q: CallbackQuery, encode: string -> string): (t: string)
    ensures NonEmpty(q.errorDescription) ==> t == SignInFailure(q.errorDescription.value, encode)
    ensures !NonEmpty(q.errorDescription) ==> t == SignInFailure(DefaultOAuthError, encode)
  {
    SignInFailure(if NonEmpty(q.errorDescription) then q.errorDescription.value else DefaultOAuthError, encode)
  }

  /**
   * The handler as written. `exchange` is `exchangeCodeForSession`: the session (possibly
   * none) or the error it reports; `users` is the rows the user lookup returns before
   * `.single()`, which turns zero rows into an error.
   */
  function Callback(q: CallbackQuery, exchange: string -> Result<Option<Session>, Thrown>,
                    users: string -> Result<seq<Value>, DbError>, encode: string -> string): (target: string)
    ensures NonEmpty(q.error) ==> target == OAuthErrorTarget(q, encode)
    ensures !NonEmpty(q.error) && !NonEmpty(q.code) ==> target == NoCodeTarget
    ensures !NonEmpty(q.error) && NonEmpty(q.code) ==>
      match exchange(q.code.value)
      case Failure(_) => target == SignInFailure(ExchangeFailed, encode)
      case Success(None) => target == NoCodeTarget
      case Success(Some(session)) =>
        var user := Single(users(session.userId));
        && (user.Failure? ==> target == SignInFailure(ExchangeFailed, encode))
        && (user.Success? && Truthy(Some(user.value)) ==> target == DashboardPath)
        && (user.Success? && !Truthy(Some(user.value)) ==> target == OnboardingPath)
  {
    if NonEmpty(q.error) then OAuthErrorTarget(q, encode)
    else if NonEmpty(q.code) then
      match exchange(q.code.value)
      case Failure(_) => SignInFailure(ExchangeFailed, encode)
      case Success(None) => NoCodeTarget
      case Success(Some(session)) =>
        match Single(users(session.userId))
        case Failure(_) => SignInFailure(ExchangeFailed, encode)
        case Success(user) => if Truthy(Some(user)) then DashboardPath else OnboardingPath
    else NoCodeTarget
  }

  /** A provider error wins over everything else in the query and over the backend. */
  lemma ErrorTakesPrecedence(q: CallbackQuery, code: Option<string>,
                             exchange: string -> Result<Option<Session>, Thrown>,
                             users: string -> Result<seq<Value>, DbError>, encode: string -> string)
    requires NonEmpty(q.error)
    ensures Callback(q, exchange, users, encode) == Callback(q.(code := code), exchange, users, encode)
    ensures Callback(q, exchange, users, encode) == OAuthErrorTarget(q, encode)
  {
  }

  /** Every outcome is one of five targets. */
  lemma TargetsAreKnown(q: CallbackQuery, exchange: string -> Result<Option<Session>, Thrown>,
                        users: string -> Result<seq<Value>, DbError>, encode: string -> string)
    ensures var t := Callback(q, exchange, users, encode);
      || t == DashboardPath || t == OnboardingPath || t == NoCodeTarget
      || t == SignInFailure(ExchangeFailed, encode) || t == OAuthErrorTarget(q, encode)
  {
  }

  /** User rows are objects. */
  ghost predicate RowsAreObjects(users: string -> Result<seq<Value>, DbError>) {
    forall id :: users(id).Success? ==> forall i :: 0 <= i < |users(id).value| ==> users(id).value[i].JObj?
  }

  /** As written, the onboarding branch is dead: `.single()` only succeeds with a row, and
    * a row is truthy. */
  lemma OnboardingUnreachable(q: CallbackQuery, exchange: string -> Result<Option<Session>, Thrown>,
                              users: string -> Result<seq<Value>, DbError>, encode: string -> string)
    requires RowsAreObjects(users)
    ensures Callback(q, exchange, users, encode) != OnboardingPath
  {
    if !NonEmpty(q.error) && NonEmpty(q.code) && exchange(q.code.value).Success? && exchange(q.code.value).value.Some? {
      var rows := users(exchange(q.code.value).value.value.userId);
      if Single(rows).Success? {
        assert Single(rows).value == rows.value[0];
      }
    }
    if q.errorDescription.Some? {
      assert SignInFailure(q.errorDescription.value, encode)[1] == 'a';
    }
    assert SignInFailure(DefaultOAuthError, encode)[1] == 'a';
    assert SignInFailure(ExchangeFailed, encode)[1] == 'a';
    assert NoCodeTarget[1] != OnboardingPath[1];
  }

  /** A first-time user (a valid code, a session, no user row yet) is sent back to sign in
    * with "Authentication failed. Please try again." instead of to onboarding. */
  lemma NewUserSentToSignIn(code: string, session: Session, encode: string -> string)
    requires code != ""
    ensures var q := CallbackQuery(Some(code), None, None);
      Callback(q, _ => Success(Some(session)), _ => Success([]), encode) == SignInFailure(ExchangeFailed, encode)
  {
  }

  /** The evidently intended lookup: zero rows are "no user" rather than an error, as
    * `.maybeSingle()` reports it; several rows remain an error. */
  function MaybeSingle(rows: Result<seq<Value>, DbError>): (r: Result<Option<Value>, DbError>)
    ensures rows.Success? && rows.value == [] ==> r == Success(None)
    ensures rows.Success? && |rows.value| == 1 ==> r == Success(Some(rows.value[0]))
    ensures rows.Success? && |rows.value| > 1 ==> r.Failure?
    ensures rows.Failure? ==> r == Failure(rows.error)
  {
    match rows
    case Failure(e) => Failure(e)
    case Success(rs) =>
      if rs == [] then Success(None)
      else if |rs| == 1 then Success(Some(rs[0]))
      else Failure(DbError(NotExactlyOneRow, "JSON object requested, multiple rows returned", false))
  }

  /** The callback with the lookup corrected. */
  function CallbackCorrected(q: CallbackQuery, exchange: string -> Result<Option<Session>, Thrown>,
                             users: string -> Result<seq<Value>, DbError>, encode: string -> string): (target: string)
    ensures NonEmpty(q.error) ==> target == OAuthErrorTarget(q, encode)
    ensures !NonEmpty(q.error) && !NonEmpty(q.code) ==> target == NoCodeTarget
  {
    if NonEmpty(q.error) then OAuthErrorTarget(q, encode)
    else if NonEmpty(q.code) then
      match exchange(q.code.value)
      case Failure(_) => SignInFailure(ExchangeFailed, encode)
      case Success(None) => NoCodeTarget
      case Success(Some(session)) =>
        match MaybeSingle(users(session.userId))
        case Failure(_) => SignInFailure(ExchangeFailed, encode)
        case Success(user) => if Truthy(user) then DashboardPath else OnboardingPath
    else NoCodeTarget
  }

  /** The corrected callback sends a signed-in user with no row to onboarding and one with a
    * row to the dashboard, and it agrees with the handler as written whenever the lookup
    * does not come back empty. */
  lemma CorrectedRoutesByOnboarding(q: CallbackQuery, exchange: string -> Result<Option<Session>, Thrown>,
                                    users: string -> Result<seq<Value>, DbError>, encode: string -> string)
    requires !NonEmpty(q.error) && NonEmpty(q.code)
    requires exchange(q.code.value).Success? && exchange(q.code.value).value.Some?
    requires RowsAreObjects(users)
    ensures var rows := users(exchange(q.code.value).value.value.userId);
      && (rows == Success([]) ==> CallbackCorrected(q, exchange, users, encode) == OnboardingPath)
      && (rows.Success? && |rows.value| == 1 ==> CallbackCorrected(q, exchange, users, encode) == DashboardPath)
      && (rows != Success([]) ==> CallbackCorrected(q, exchange, users, encode) == Callback(q, exchange, users, encode))
  {
    var rows := users(exchange(q.code.value).value.value.userId);
    if rows.Success? && |rows.value| == 1 {
      assert rows.value[0].JObj?;
    }
  }
}
