/** The extension's two error records and the JSON error reply that the
    default JWT error handler renders for a `JWTError`. */
module Errors {
  import opened Runtime
  import opened Json

  /** A guard-time failure: a stable error code, a human description, the
      HTTP status (400 unless stated) and optional extra response headers. */
  datatype JWTError = JWTError(
    error: string,
    description: string,
    status: int,
    headers: Option<map<string, string>>)

  /** A provider-time failure. On the 400 path of the token exchange the
      provider's own `error` and `error_description` are passed through,
      and those can be any JSON value, hence `Json` fields. */
  datatype URSError = URSError(
    error: Json,
    description: Json,
    status: int,
    headers: Option<map<string, string>>)

  /** Whatever ends a callback request early. */
  datatype Fault = Urs(urs: URSError) | Crash(exc: Exception)

  /** A JWTError with the class's default status 400 and no headers. */
  function BadRequest(error: string, description: string): JWTError {
    JWTError(error, description, 400, None)
  }

  /** The (body, status, headers) triple the error handler returns; the body
      is an ordered JSON object. */
  datatype ErrorReply = ErrorReply(
    body: seq<(string, Json)>,
    status: int,
    headers: Option<map<string, string>>)

  /** The default JWT error handler: body `{status_code, error, description}`
      in that order, at the error's own status, with the error's headers. */
  function RenderJwtError(e: JWTError): (reply: ErrorReply)
    ensures |reply.body| == 3
    ensures reply.body[0].0 == "status_code" && reply.body[1].0 == "error"
         && reply.body[2].0 == "description"
    ensures reply.status == e.status && reply.headers == e.headers
    ensures reply.body[0].1 == JNum(reply.status)
  {
    ErrorReply(
      [("status_code", JNum(e.status)), ("error", JStr(e.error)), ("description", JStr(e.description))],
      e.status,
      e.headers)
  }

  /** What a client reads back from an error reply: the three fields, if the
      body has exactly that shape and its status_code agrees with the status. */
  function ReadJwtError(reply: ErrorReply): (r: Option<JWTError>)
    ensures r.Some? ==> r.value.status == reply.status && r.value.headers == reply.headers
  {
    if |reply.body| == 3
       && reply.body[0].0 == "status_code" && reply.body[0].1 == JNum(reply.status)
       && reply.body[1].0 == "error" && reply.body[1].1.JStr?
       && reply.body[2].0 == "description" && reply.body[2].1.JStr?
    then Some(JWTError(reply.body[1].1.s, reply.body[2].1.s, reply.status, reply.headers))
    else None
  }

  /** Rendering loses nothing: a client recovers the exact error. */
  lemma RenderRoundTrip(e: JWTError)
    ensures ReadJwtError(RenderJwtError(e)) == Some(e)
  {
  }
}
