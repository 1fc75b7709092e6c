/** The JSON replies of the Express controllers, and the query-string numbers they read. */
module Http {
  import opened Wrappers
  import opened Js

  /** A status code with `{ success: true, data }` or `{ success: false, error }`. */
  datatype Reply<T> = Success(status: int, data: T) | Error(status: int, message: string)
  {
    predicate Rejects(code: int) { Error? && status == code }
  }

  /** `req.query.x ? parseInt(req.query.x, 10) : d`: an absent or empty value gives the default. */
  function QueryNumber(q: Option<string>, d: int): (n: JsNumber)
    ensures q.None? || q.value == "" ==> n == Num(d)
    ensures q.Some? && q.value != "" ==> n == ParseInt(q.value)
  {
    if q.Some? && q.value != "" then ParseInt(q.value) else Num(d)
  }
}
