/**
 * The slice of the Fetch API the request handlers use: a request with its
 * method (`verb`), headers and parsed body, and the JSON error responses they build.
 */
module Http {
  import opened Common

  /**
   * A request. Header names are lower-case (`headers.get` ignores case);
   * `body` is what `request.json()` yields, `None` when parsing throws.
   */
  datatype Request = Request(verb: string, headers: map<string, string>, body: Option<Value>)

  /** A response: status, headers (a value may be `undefined`) and the `{error, message}` JSON body, if any. */
  datatype Response = Response(status: int, headers: map<string, Value>, body: Option<ErrorBody>)

  datatype ErrorBody = ErrorBody(error: string, message: string)

  /** `request.headers.get(name)`; `None` is `null`. */
  function GetHeader(r: Request, name: string): Option<string>
  {
    if name in r.headers then Some(r.headers[name]) else None
  }

  /** The four CORS headers around an Allow-Origin value. */
  function CorsHeaders(allowOrigin: Value): (h: map<string, Value>)
    ensures h.Keys == {"Access-Control-Allow-Origin", "Access-Control-Allow-Methods",
                       "Access-Control-Allow-Headers", "Access-Control-Max-Age"}
    ensures h["Access-Control-Allow-Origin"] == allowOrigin
  {
    map[
      "Access-Control-Allow-Origin" := allowOrigin,
      "Access-Control-Allow-Methods" := Str("POST, OPTIONS"),
      "Access-Control-Allow-Headers" := Str("Content-Type"),
      "Access-Control-Max-Age" := Str("86400")]
  }

  /** A JSON error response: the CORS headers plus the JSON content type. */
  function JsonError(status: int, cors: map<string, Value>, error: string, message: string): (r: Response)
    ensures r.status == status && r.body == Some(ErrorBody(error, message))
    ensures "Content-Type" in r.headers && r.headers["Content-Type"] == Str("application/json")
    ensures forall k :: k in cors && k != "Content-Type" ==> k in r.headers && r.headers[k] == cors[k]
  {
    Response(status, cors["Content-Type" := Str("application/json")], Some(ErrorBody(error, message)))
  }
}
