/**
 * The global error-handling middleware: it maps a thrown error to an HTTP
 * status and a client-facing message, hides internal messages of 500s in
 * production and adds details only in development. Logging is not modelled.
 *
 * An error's `status` and `statusCode` are numbers where 0 stands for an
 * absent (falsy) property; `message` is '' when absent.
 */
module ErrorHandler {
  import opened JsCore

  datatype AppError = AppError(name: string, code: string, status: int, statusCode: int,
                               message: string, stack: string)

  datatype ErrorResponse = ErrorResponse(status: int, error: string, details: Option<(string, string)>)

  const DefaultMessage := "Internal server error"
  const HiddenMessage := "An unexpected error occurred. Please try again later."

  /** `err.status || err.statusCode || 500` and `err.message || 'Internal server error'`. */
  function Default(e: AppError): (r: (int, string))
    ensures r.0 != 0 && r.0 in {e.status, e.statusCode, 500}
    ensures e.status != 0 ==> r.0 == e.status
    ensures e.status == 0 && e.statusCode != 0 ==> r.0 == e.statusCode
    ensures r.1 != [] && (e.message != [] ==> r.1 == e.message)
  {
    (if e.status != 0 then e.status else if e.statusCode != 0 then e.statusCode else 500,
     if e.message != [] then e.message else DefaultMessage)
  }

  /** The status and message fixed by the error's name, checked before its code. */
  function ByName(name: string): (r: Option<(int, string)>)
    ensures r.Some? ==> r.value.0 in {400, 401}
    ensures r.Some? <==> name in {"ValidationError", "UnauthorizedError", "JsonWebTokenError", "TokenExpiredError"}
  {
    if name == "ValidationError" then Some((400, "Invalid input data"))
    else if name == "UnauthorizedError" || name == "JsonWebTokenError" then Some((401, "Authentication failed"))
    else if name == "TokenExpiredError" then Some((401, "Session expired. Please login again."))
    else None
  }

  /** The status and message fixed by a PostgreSQL or network error code. */
  function ByCode(code: string): (r: Option<(int, string)>)
    ensures r.Some? ==> r.value.0 in {409, 400, 503}
    ensures r.Some? <==> code in {"23505", "23503", "ECONNREFUSED"}
  {
    if code == "23505" then Some((409, "A record with that information already exists"))
    else if code == "23503" then Some((400, "Invalid reference to related data"))
    else if code == "ECONNREFUSED" then Some((503, "Service temporarily unavailable"))
    else None
  }

  /** `errorHandler(err, ...)` under `NODE_ENV = nodeEnv`. */
  function Handle(e: AppError, nodeEnv: string): (r: ErrorResponse)
    // a recognised name wins over any code; a recognised code wins over the error's own status
    ensures ByName(e.name).Some? ==> r.status == ByName(e.name).value.0
    ensures ByName(e.name).None? && ByCode(e.code).Some? ==> r.status == ByCode(e.code).value.0
    ensures ByName(e.name).None? && ByCode(e.code).None? ==> r.status == Default(e).0
    // a production 500 never shows the error's own message; other statuses keep theirs
    ensures nodeEnv == "production" && r.status == 500 ==> r.error == HiddenMessage
    ensures (nodeEnv != "production" || r.status != 500) && ByName(e.name).None? && ByCode(e.code).None? ==>
              r.error == Default(e).1
    // details and the stack go out in development only
    ensures r.details.Some? <==> nodeEnv == "development"
    ensures r.details.Some? ==> r.details.value == (e.message, e.stack)
  {
    var (status, message) :=
      if ByName(e.name).Some? then ByName(e.name).value
      else if ByCode(e.code).Some? then ByCode(e.code).value
      else Default(e);
    var message' := if nodeEnv == "production" && status == 500 then HiddenMessage else message;
    ErrorResponse(status, message', if nodeEnv == "development" then Some((e.message, e.stack)) else None)
  }

  /** A recognised error is never answered with 500, so its fixed message is shown even
      in production. */
  lemma RecognisedErrorsKeepTheirMessage(e: AppError, nodeEnv: string)
    requires ByName(e.name).Some? || ByCode(e.code).Some?
    ensures Handle(e, nodeEnv).status != 500
    ensures Handle(e, nodeEnv).error == (if ByName(e.name).Some? then ByName(e.name) else ByCode(e.code)).value.1
  {
  }

  /** In production the response never carries the error's message when its status is 500,
      while an error carrying its own non-500 status keeps its message. */
  lemma ProductionHidesOnlyFiveHundreds(e: AppError)
    requires ByName(e.name).None? && ByCode(e.code).None?
    ensures Handle(e, "production").error == if Default(e).0 == 500 then HiddenMessage else Default(e).1
    ensures Handle(e, "production").details.None?
  {
  }
}
