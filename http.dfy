/**
 * What the three serverless handlers share: the request as the handler sees
 * it, the response shapes, the CORS headers, the pre-flight answer and the
 * `{ data, error }` pair every database call returns.
 */
module Http {
  import opened Optional

  type Header = (string, string)

  /** `corsHeaders`, identical in all three handlers. */
  const CorsHeaders: seq<Header> := [
    ("Access-Control-Allow-Origin", "*"),
    ("Access-Control-Allow-Headers", "authorization, x-client-info, apikey, content-type")
  ]

  /** `{ ...corsHeaders, 'Content-Type': 'application/json' }` */
  const JsonHeaders: seq<Header> := CorsHeaders + [("Content-Type", "application/json")]

  /**
   * An incoming request: its method and the outcome of `await req.json()`,
   * which either yields the payload or throws with the parser's message.
   */
  datatype Request<P> = Request(httpMethod: string, body: Result<P, string>)

  /**
   * A response body: none (`new Response(null, ...)`), the JSON of a success
   * (`{ success: true, ...payload }`) or of a failure (`{ success: false, error }`).
   */
  datatype Body<T> = NoBody | Succeeded(payload: T) | Failed(error: string)

  datatype Response<T> = Response(status: int, headers: seq<Header>, body: Body<T>)

  /** The answer to a CORS pre-flight (`OPTIONS`) request: status 200, no body. */
  function Preflight<T>(): Response<T>
  {
    Response(200, CorsHeaders, NoBody)
  }

  /** A JSON success response with the default status 200. */
  function Ok<T>(payload: T): Response<T>
  {
    Response(200, JsonHeaders, Succeeded(payload))
  }

  /** What every handler's `catch` block returns: status 500 and `{ success: false, error }`. */
  function ServerError<T>(message: string): Response<T>
  {
    Response(500, JsonHeaders, Failed(message))
  }

  /**
   * The uniform error contract: a response fails with status 500 exactly when
   * its body says `success: false`, and succeeds with status 200 otherwise.
   */
  ghost predicate Uniform<T>(r: Response<T>)
  {
    (r.status == 500 <==> r.body.Failed?) && (r.status == 200 <==> !r.body.Failed?)
  }

  /** The `{ data, error }` pair a database client call resolves to. */
  datatype DbReply<T> = DbReply(data: Option<T>, error: Option<string>)
}
