/**
 * What the server writes back: the response envelope, the transport status
 * taken from it, and the CORS headers (`serverResponse`, `notFoundResponse`
 * and the OPTIONS branch of server.js).
 */
module Responses {
  import opened Wrappers
  import opened Tasks

  /** The `data` member of an envelope. */
  datatype Data =
    | NoData
    | OneTask(task: Task)
    | TaskList(tasks: seq<Task>)
    | Relayed(json: string)  // the upstream JSON value, kept as opaque text

  /** The JSON body `{status, message?, data?}`. */
  datatype Envelope = Envelope(status: int, message: Option<string>, data: Data)

  /** Status line, the headers the server may set, and the body (None: empty). */
  datatype Response = Response(
    status: int,
    allowOrigin: Option<string>,
    contentType: Option<string>,
    allowMethods: string,
    allowHeaders: string,
    body: Option<Envelope>)

  /** Origins echoed back on ordinary responses. */
  const ALLOWED_ORIGINS: seq<string> := ["https://nta1210.github.io", "http://localhost:5173"]
  /** Origins echoed back on a preflight: a list of its own, with one entry. */
  const PREFLIGHT_ORIGINS: seq<string> := ["http://localhost:5173"]
  const LOCAL_ORIGIN: string := "http://localhost:5173"
  const PAGES_ORIGIN: string := "https://nta1210.github.io"

  const ALLOW_METHODS: string := "GET,POST,PUT,DELETE,OPTIONS"
  const ALLOW_HEADERS: string := "Content-Type"
  const JSON_TYPE: string := "application/json"

  const NOT_FOUND_MESSAGE: string := "Resource not found"
  const CREATED_MESSAGE: string := "Task created successfully"
  const UPDATED_MESSAGE: string := "Task updated successfully"
  const DELETED_MESSAGE: string := "Task deleted successfully"

  /** The envelope of `notFoundResponse`. */
  const NOT_FOUND: Envelope := Envelope(404, Some(NOT_FOUND_MESSAGE), NoData)

  /** `allowedOrigins.includes(origin)`: a listed origin is echoed, anything else (or no Origin header) is not. */
  function AllowOrigin(allowList: seq<string>, origin: Option<string>): (r: Option<string>)
    ensures r.Some? <==> origin.Some? && origin.value in allowList
    ensures r.Some? ==> r == origin
  {
    if origin.Some? && origin.value in allowList then origin else None
  }

  /** `serverResponse(req, res, data)`. */
  function ServerResponse(origin: Option<string>, env: Envelope): (r: Response)
    ensures r.allowOrigin.Some? <==> origin.Some? && origin.value in ALLOWED_ORIGINS
    ensures r.allowOrigin.Some? ==> r.allowOrigin == origin
    ensures env.status != 0 ==> r.status == env.status
    ensures env.status == 0 ==> r.status == 200
    ensures r.contentType == Some(JSON_TYPE) && r.body == Some(env)
    ensures r.allowMethods == ALLOW_METHODS && r.allowHeaders == ALLOW_HEADERS
  {
    // `data.status || 200`: a falsy status (0) falls back to 200
    var code := if env.status != 0 then env.status else 200;
    Response(code, AllowOrigin(ALLOWED_ORIGINS, origin), Some(JSON_TYPE),
             ALLOW_METHODS, ALLOW_HEADERS, Some(env))
  }

  /** The OPTIONS branch: 204, no Content-Type, no body. */
  function PreflightResponse(origin: Option<string>): (r: Response)
    ensures r.status == 204 && r.contentType == None && r.body == None
    ensures r.allowOrigin.Some? <==> origin == Some(LOCAL_ORIGIN)
    ensures r.allowOrigin.Some? ==> r.allowOrigin == origin
    ensures r.allowMethods == ALLOW_METHODS && r.allowHeaders == ALLOW_HEADERS
  {
    Response(204, AllowOrigin(PREFLIGHT_ORIGINS, origin), None,
             ALLOW_METHODS, ALLOW_HEADERS, None)
  }

  /** The published-site origin passes ordinary responses but not the preflight. */
  lemma PagesOriginOnlyOnOrdinaryResponses(env: Envelope)
    ensures ServerResponse(Some(PAGES_ORIGIN), env).allowOrigin == Some(PAGES_ORIGIN)
    ensures PreflightResponse(Some(PAGES_ORIGIN)).allowOrigin == None
  {
  }

  /** A request without an Origin header never gets the header back. */
  lemma NoOriginNoHeader(env: Envelope)
    ensures ServerResponse(None, env).allowOrigin == None
    ensures PreflightResponse(None).allowOrigin == None
  {
  }
}
