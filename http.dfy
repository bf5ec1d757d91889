/** Values that cross the HTTP boundary of the Flask application tier:
    optional query arguments, decoded JSON request bodies and status codes. */
module Http {

  datatype Option<+T> = None | Some(value: T)

  /** A decoded JSON scalar as `request.json` hands it to the handlers.
      `JNull` is JSON `null`, which Python sees as `None`. */
  datatype Json = JNull | JBool(b: bool) | JNum(n: int) | JStr(s: string)

  /** The value of `request.json`: `NoJson` when it is `None`,
      otherwise a JSON object as a dictionary from keys to values. */
  datatype Body = NoJson | Object(fields: map<string, Json>)

  /** Python truthiness of a request body: `None` and `{}` are falsy. */
  predicate Falsy(body: Body) {
    body.NoJson? || body.fields == map[]
  }

  /** A handler's answer: a status code and the JSON body sent with it. */
  datatype Reply<P> = Reply(status: int, payload: P)

  const OK: int := 200
  const CREATED: int := 201
  const BAD_REQUEST: int := 400
  const NOT_FOUND: int := 404
  const SERVER_ERROR: int := 500
}
