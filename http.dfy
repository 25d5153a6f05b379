/**
 * What the route handlers see of the outside world: the managed auth session,
 * datastore errors, PostgREST's `.single()`, and the JSON responses they build.
 */
module Http {
  import opened Wrappers
  import opened JsValues
  import Schema

  /** The authenticated user of a session. */
  datatype Session = Session(userId: string, email: Option<string>)

  /** The result of `supabase.auth.getSession()`: a session or none, and whether it reported an error. */
  datatype SessionLookup = SessionLookup(session: Option<Session>, failed: bool)

  /** The guard `if (sessionError || !session) return 401`. */
  predicate Authenticated(l: SessionLookup) { !l.failed && l.session.Some? }

  /**
   * A datastore error: its Postgres/PostgREST code, its message, and whether the
   * client library hands it over as an `Error` instance.
   */
  datatype DbError = DbError(code: string, message: string, isErrorInstance: bool)

  /** What `throw dbError` throws. */
  function AsThrown(e: DbError): (t: Thrown)
    ensures t.ErrorObject? <==> e.isErrorInstance
    ensures t.ErrorObject? ==> t.message == e.message
  {
    if e.isErrorInstance then ErrorObject(PlainError, e.message) else NonError
  }

  /** The code PostgREST returns when `.single()` does not find exactly one row. */
  const NotExactlyOneRow: string := "PGRST116"

  /** `.single()`: exactly one row is that row; zero or several rows are an error. */
  function Single(rows: Result<seq<Value>, DbError>): (r: Result<Value, DbError>)
    ensures rows.Success? && |rows.value| == 1 <==> r.Success?
    ensures r.Success? ==> r.value == rows.value[0]
    ensures rows.Success? && |rows.value| != 1 ==> r.Failure? && r.error.code == NotExactlyOneRow
    ensures rows.Failure? ==> r == Failure(rows.error)
  {
    match rows
    case Failure(e) => Failure(e)
    case Success(rs) =>
      if |rs| == 1 then Success(rs[0])
      else Failure(DbError(NotExactlyOneRow, "JSON object requested, multiple (or no) rows returned", false))
  }

  /** The extra member of a JSON response body besides `status` and `message`. */
  datatype Payload =
    | NoPayload
    | Data(data: Value)
    | Issues(issues: seq<Schema.Issue>)
    | ErrorText(error: string)

  /**
   * `NextResponse.json({ status, message, ... }, { status: code })`; `ok` is
   * `status: 'success'`, and `message` is empty when the body carries none.
   */
  datatype Response = Response(code: int, ok: bool, message: string, payload: Payload)

  function Unauthorized(): Response { Response(401, false, "Unauthorized", NoPayload) }
}
