/** The request/response shapes shared by the route handlers. */
module Http {
  import opened Wrappers

  /** A JSON response: HTTP status code and body. */
  datatype Response<B> = Response(status: nat, body: B)

  /** Outcome of one call to the upstream video API: its payload, or the
      error it threw, which may carry the upstream HTTP status and the
      upstream error message. */
  datatype Upstream<T> = Ok(value: T) | Failed(status: Option<nat>, message: Option<string>)

  const Ok200: nat := 200
  const BadRequest400: nat := 400
  const Unauthorized401: nat := 401
  const NotFound404: nat := 404
  const Conflict409: nat := 409
  const ServerError500: nat := 500

  /** A request field that JavaScript treats as truthy: given and not the
      empty string. */
  predicate Present(s: Option<string>)
  {
    s.Some? && s.value != ""
  }
}
