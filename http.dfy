/** The request-handling envelope shared by every endpoint: one query, then either the JSON
    body or a 500 response carrying the query's error.  Express, the connection pool and the
    serialisation to JSON are not modelled; a query is its outcome. */
module Http {
  import opened Options
  import opened Calendar

  /** A date from the query string: its text and the instant `new Date(text)` denotes (parsing
      is not modelled). */
  datatype DateParam = DateParam(raw: string, instant: Timestamp)

  /** JavaScript truthiness of an optional query-string value: absent and empty are false. */
  predicate Given(p: Option<DateParam>) {
    p.Some? && p.value.raw != ""
  }

  /** The same for a plain string parameter. */
  predicate GivenText(p: Option<string>) {
    p.Some? && p.value != ""
  }

  /** What a `findAll(...)` or `db.query(...)` call settles to: its rows, or the error it was
      rejected with. */
  datatype Query<T> = Rows(rows: T) | Failed(message: string)

  /** The two error bodies of the code base: the routers send `{ message }`, the standalone
      server sends `{ error: 'Database error', details }`. */
  datatype ErrorBody = Message(message: string) | DatabaseError(error: string, details: string)

  /** A response: status 200 with a body, or an error status with an error body. */
  datatype Reply<T> = Ok(body: T) | ServerError(status: int, error: ErrorBody)

  const DatabaseErrorText := "Database error"

  /** A router handler: `try { res.json(f(await query)) } catch (e) { res.status(500).json({ message: e.message }) }`. */
  function RouterServe<A, B>(q: Query<A>, f: A -> B): (r: Reply<B>)
    ensures r.Ok? <==> q.Rows?
    ensures q.Rows? ==> r.body == f(q.rows)
    ensures q.Failed? ==> r.status == 500 && r.error == Message(q.message)
  {
    match q
    case Rows(rows) => Ok(f(rows))
    case Failed(m) => ServerError(500, Message(m))
  }

  /** A handler of the standalone server: the same, but the error body is
      `{ error: 'Database error', details: e.message }`. */
  function ServerServe<A, B>(q: Query<A>, f: A -> B): (r: Reply<B>)
    ensures r.Ok? <==> q.Rows?
    ensures q.Rows? ==> r.body == f(q.rows)
    ensures q.Failed? ==> r.status == 500 && r.error == DatabaseError(DatabaseErrorText, q.message)
  {
    match q
    case Rows(rows) => Ok(f(rows))
    case Failed(m) => ServerError(500, DatabaseError(DatabaseErrorText, m))
  }
}
