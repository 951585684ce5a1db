/** What the three edge functions see of HTTP: the request method and parsed JSON body,
    the two deployment variables, and a response with a status, headers and a JSON body. */
module Http {
  import opened Wrappers
  import opened Text

  type Headers = seq<(string, string)>

  /** An incoming request. The body is the result of `req.json()`: a failure carries the
      message of the exception it throws on a malformed body. */
  datatype Request<B> = Request(httpMethod: string, body: Result<B, string>)

  /** `SUPABASE_URL` and `SUPABASE_SERVICE_ROLE_KEY` as `Deno.env.get` returns them. */
  datatype Env = Env(supabaseUrl: Option<string>, serviceRoleKey: Option<string>)

  /** The handler may create a database client: both variables are set and non-empty. */
  predicate Configured(env: Env) {
    Truthy(env.supabaseUrl) && Truthy(env.serviceRoleKey)
  }

  /** A response body: none (`null`), an `{ error, details? }` object, or the handler's
      own success object. */
  datatype Body<S> = NoBody | ErrorBody(error: string, details: Option<string>) | SuccessBody(value: S)

  datatype Response<S> = Response(status: int, headers: Headers, body: Body<S>)

  const ContentTypeJson: (string, string) := ("Content-Type", "application/json")

  /** The CORS preflight answer: status 200, the CORS headers, no body. */
  function Preflight<S>(cors: Headers): Response<S> {
    Response(200, cors, NoBody)
  }

  /** A JSON error answer carrying the CORS headers. */
  function JsonError<S>(cors: Headers, status: int, error: string, details: Option<string>): Response<S> {
    Response(status, cors + [ContentTypeJson], ErrorBody(error, details))
  }

  /** A JSON success answer carrying the CORS headers. */
  function JsonOk<S>(cors: Headers, value: S): Response<S> {
    Response(200, cors + [ContentTypeJson], SuccessBody(value))
  }

  /** Every answer of a handler starts its headers with the handler's CORS headers. */
  predicate CarriesCors<S>(r: Response<S>, cors: Headers) {
    |cors| <= |r.headers| && r.headers[..|cors|] == cors
  }

  const MethodNotAllowed := "Method not allowed"
  const ServerConfigurationError := "Server configuration error"
  const InternalServerError := "Internal server error"
}
