/**
 * Application errors and their conversion into client-safe responses
 * (lib/error-handler.ts). `NODE_ENV` is a parameter.
 */
module ErrorHandler {
  import opened Common

  /** An `AppError` or one of its subclasses; `name` tells which. */
  datatype AppError = AppError(
    name: string,
    message: string,
    statusCode: int,
    code: Option<string>,
    details: Option<Value>)

  /** `new AppError(message, statusCode?, code?, details?)`; an omitted status is 500. */
  function NewAppError(message: string, statusCode: Option<int>, code: Option<string>, details: Option<Value>): (e: AppError)
    ensures e.name == "AppError" && e.message == message
    ensures e.statusCode == (if statusCode.Some? then statusCode.value else 500)
    ensures e.code == code && e.details == details
  {
    AppError("AppError", message, if statusCode.Some? then statusCode.value else 500, code, details)
  }

  function ValidationError(message: string, details: Option<Value>): (e: AppError)
    ensures e.name == "ValidationError" && e.message == message && e.details == details
    ensures e.statusCode == 400 && e.code == Some("VALIDATION_ERROR")
  {
    NewAppError(message, Some(400), Some("VALIDATION_ERROR"), details).(name := "ValidationError")
  }

  /** `new NotFoundError(message?)`; the default message is "Resource not found". */
  function NotFoundError(message: Option<string>): (e: AppError)
    ensures e.name == "NotFoundError" && e.details == None
    ensures e.message == (if message.Some? then message.value else "Resource not found")
    ensures e.statusCode == 404 && e.code == Some("NOT_FOUND")
  {
    var m := if message.Some? then message.value else "Resource not found";
    NewAppError(m, Some(404), Some("NOT_FOUND"), None).(name := "NotFoundError")
  }

  /** `new UnauthorizedError(message?)`; the default message is "Unauthorized". */
  function UnauthorizedError(message: Option<string>): (e: AppError)
    ensures e.name == "UnauthorizedError" && e.details == None
    ensures e.message == (if message.Some? then message.value else "Unauthorized")
    ensures e.statusCode == 401 && e.code == Some("UNAUTHORIZED")
  {
    var m := if message.Some? then message.value else "Unauthorized";
    NewAppError(m, Some(401), Some("UNAUTHORIZED"), None).(name := "UnauthorizedError")
  }

  /** A value that is not an `Error` instance. */
  type NonError = v: Value | !(v.Obj? && v.isError) witness Undefined

  /** Anything that can be thrown: an AppError, another Error, or any other value. */
  datatype Thrown =
    | App(app: AppError)
    | Error(message: string)
    | Other(value: NonError)

  datatype ErrorResponse = ErrorResponse(error: string, code: Option<string>, details: Option<Value>)

  const InternalMessage := "An internal error occurred. Please try again later."
  const UnknownMessage := "An unknown error occurred"

  /**
   * `formatErrorResponse(error)`. Application errors are reported as they
   * are (details only in development); other errors never leak their message
   * in production; non-errors get a fixed message.
   */
  function FormatErrorResponse(error: Thrown, nodeEnv: Option<string>): (r: ErrorResponse)
    ensures error.App? ==> r.error == error.app.message && r.code == error.app.code
    ensures error.App? ==> (r.details.Some? ==> nodeEnv == Some("development"))
    ensures error.App? && nodeEnv == Some("development") ==> r.details == error.app.details
    ensures error.Error? && nodeEnv == Some("production") ==>
      r == ErrorResponse(InternalMessage, Some("INTERNAL_ERROR"), None)
    ensures error.Error? && nodeEnv != Some("production") ==>
      r == ErrorResponse(error.message, Some("INTERNAL_ERROR"), None)
    ensures error.Other? ==> r == ErrorResponse(UnknownMessage, Some("UNKNOWN_ERROR"), None)
  {
    match error
    case App(e) =>
      ErrorResponse(e.message, e.code, if nodeEnv == Some("development") then e.details else None)
    case Error(m) =>
      if nodeEnv == Some("production") then ErrorResponse(InternalMessage, Some("INTERNAL_ERROR"), None)
      else ErrorResponse(m, Some("INTERNAL_ERROR"), None)
    case Other(_) => ErrorResponse(UnknownMessage, Some("UNKNOWN_ERROR"), None)
  }

  /** In production a plain error's own message never reaches the response. */
  lemma ProductionHidesErrorMessage(m: string)
    requires m != InternalMessage
    ensures FormatErrorResponse(Error(m), Some("production")).error != m
  {
  }

  /** `String(v)` for the values that are not Error instances. */
  function JsString(v: Value): string
  {
    match v
    case Undefined => "undefined"
    case Null => "null"
    case Bool(b) => if b then "true" else "false"
    case Num(n) => IntToString(n)
    case Str(s) => s
    case Arr(items) => JoinStrings(items)
    case Obj(_, _) => "[object Object]"
    case Fn => "function"
  }

  /** `items.join(",")` with null and undefined shown as "". */
  function JoinStrings(items: seq<Value>): string
  {
    if items == [] then ""
    else
      var head := if items[0].Undefined? || items[0].Null? then "" else JsString(items[0]);
      if |items| == 1 then head else head + "," + JoinStrings(items[1..])
  }

  /** What `logError` hands to the logger: a message, the error itself and the context. */
  datatype LogEntry = LogEntry(message: string, error: Thrown, context: Option<map<string, Value>>)

  /** `logError(error, context)`: Errors log their message, anything else `String(error)`. */
  function LogError(error: Thrown, context: Option<map<string, Value>>): (r: LogEntry)
    ensures r.error == error && r.context == context
    ensures error.App? ==> r.message == error.app.message
    ensures error.Error? ==> r.message == error.message
    ensures error.Other? && error.value.Str? ==> r.message == error.value.s
    ensures error.Other? && error.value.Null? ==> r.message == "null"
    ensures error.Other? && error.value.Undefined? ==> r.message == "undefined"
  {
    var m := match error
      case App(e) => e.message
      case Error(m) => m
      case Other(v) => JsString(v);
    LogEntry(m, error, context)
  }
}
