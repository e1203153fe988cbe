/**
 * Service errors and the uniform JSON error envelope (backend/app/core/errors.py).
 * The envelope's timestamp is a clock reading and is not part of this model.
 */
module Errors {
  import opened Entities

  /** A business-rule failure raised by a service: an HTTP status and a message. */
  datatype ServiceError = ServiceError(statusCode: int, message: string)

  /** The outcome of a service call: a value, or the ServiceError it raised. */
  datatype Result<T> = Ok(value: T) | Err(error: ServiceError)

  /** Free-form JSON, for the `details` of an error and the `detail` of an HTTPException. */
  datatype Json =
    | JNull
    | JBool(b: bool)
    | JInt(i: int)
    | JString(s: string)
    | JArray(elems: seq<Json>)
    | JObject(fields: seq<(string, Json)>)

  datatype ErrorInfo = ErrorInfo(code: string, message: string, details: Json, path: string)

  /** The body `{success, error: {code, message, details, path}}`. */
  datatype ErrorBody = ErrorBody(success: bool, error: ErrorInfo)

  datatype Response = Response(statusCode: int, body: ErrorBody)

  /** FastAPI's HTTPException: a status and a detail that may or may not be a string. */
  datatype HttpException = HttpException(statusCode: int, detail: Json)

  /** The statuses that have a code of their own. */
  predicate IsNamedStatus(status: int) {
    status == 400 || status == 401 || status == 403 || status == 404 || status == 409 || status == 422
  }

  /** `_error_code_from_status`. */
  function ErrorCodeFromStatus(status: int): (code: string)
    ensures code == "INTERNAL_SERVER_ERROR" <==> status >= 500
    ensures code == "ERROR" <==> !IsNamedStatus(status) && status < 500
    ensures IsNamedStatus(status) ==> StatusForCode(code) == Some(status)
  {
    if status == 400 then "BAD_REQUEST"
    else if status == 401 then "UNAUTHORIZED"
    else if status == 403 then "FORBIDDEN"
    else if status == 404 then "NOT_FOUND"
    else if status == 409 then "CONFLICT"
    else if status == 422 then "VALIDATION_ERROR"
    else if status >= 500 then "INTERNAL_SERVER_ERROR"
    else "ERROR"
  }

  /** Reads a named code back as its status; the inverse of `ErrorCodeFromStatus` on named statuses. */
  function StatusForCode(code: string): (r: Option<int>)
    ensures r.Some? ==> IsNamedStatus(r.value)
  {
    if code == "BAD_REQUEST" then Some(400)
    else if code == "UNAUTHORIZED" then Some(401)
    else if code == "FORBIDDEN" then Some(403)
    else if code == "NOT_FOUND" then Some(404)
    else if code == "CONFLICT" then Some(409)
    else if code == "VALIDATION_ERROR" then Some(422)
    else None
  }

  /** Distinct statuses with codes of their own never share a code. */
  lemma NamedCodesDistinct(s1: int, s2: int)
    requires IsNamedStatus(s1) && IsNamedStatus(s2) && s1 != s2
    ensures ErrorCodeFromStatus(s1) != ErrorCodeFromStatus(s2)
  {
    assert StatusForCode(ErrorCodeFromStatus(s1)) == Some(s1);
    assert StatusForCode(ErrorCodeFromStatus(s2)) == Some(s2);
  }

  /** `build_error_body`; a missing or empty `code` falls back to the one derived from the status. */
  function BuildErrorBody(statusCode: int, message: string, path: string, details: Json, code: Option<string>): (r: ErrorBody)
    ensures !r.success
    ensures r.error.message == message && r.error.details == details && r.error.path == path
    ensures code.Some? && code.value != "" ==> r.error.code == code.value
    ensures code.None? || code.value == "" ==> r.error.code == ErrorCodeFromStatus(statusCode)
  {
    var c := if code.Some? && code.value != "" then code.value else ErrorCodeFromStatus(statusCode);
    ErrorBody(false, ErrorInfo(c, message, details, path))
  }

  /** `service_error_response`. */
  function ServiceErrorResponse(e: ServiceError, path: string): (r: Response)
    ensures r.statusCode == e.statusCode
    ensures r.body == BuildErrorBody(e.statusCode, e.message, path, JNull, None)
  {
    Response(e.statusCode, BuildErrorBody(e.statusCode, e.message, path, JNull, None))
  }

  /** `http_error_response`: a string detail is the message; anything else becomes the details. */
  function HttpErrorResponse(exc: HttpException, path: string): (r: Response)
    ensures r.statusCode == exc.statusCode && !r.body.success
    ensures r.body.error.code == ErrorCodeFromStatus(exc.statusCode) && r.body.error.path == path
    ensures exc.detail.JString? ==> r.body.error.message == exc.detail.s && r.body.error.details == JNull
    ensures !exc.detail.JString? ==> r.body.error.message == "Request failed" && r.body.error.details == exc.detail
  {
    var message := if exc.detail.JString? then exc.detail.s else "Request failed";
    var details := if exc.detail.JString? then JNull else exc.detail;
    Response(exc.statusCode, BuildErrorBody(exc.statusCode, message, path, details, None))
  }

  /** `validation_error_response`: always 422 with code VALIDATION_ERROR. */
  function ValidationErrorResponse(errors: Json, path: string): (r: Response)
    ensures r.statusCode == 422 && !r.body.success
    ensures r.body.error == ErrorInfo("VALIDATION_ERROR", "Validation failed", errors, path)
  {
    Response(422, BuildErrorBody(422, "Validation failed", path, errors, Some("VALIDATION_ERROR")))
  }

  /** `internal_error_response`: always 500, hiding what went wrong. */
  function InternalErrorResponse(path: string): (r: Response)
    ensures r.statusCode == 500 && !r.body.success
    ensures r.body.error == ErrorInfo("INTERNAL_SERVER_ERROR", "Internal server error", JNull, path)
  {
    Response(500, BuildErrorBody(500, "Internal server error", path, JNull, Some("INTERNAL_SERVER_ERROR")))
  }

  /** What the routers do with a ServiceError: re-raise it as an HTTPException with the same status and message. */
  function ReRaise(e: ServiceError): (exc: HttpException)
    ensures exc.statusCode == e.statusCode && exc.detail == JString(e.message)
  {
    HttpException(e.statusCode, JString(e.message))
  }

  /**
   * What a router hands back: its response model, the HTTPException it raised, or
   * an exception nobody expects (an attribute read on a missing row), which
   * `internal_error_response` answers.
   */
  datatype Reply<T> = Answer(value: T) | Raised(exc: HttpException) | Crashed

  /**
   * A router's `try: … except ServiceError as exc: raise HTTPException(exc.status_code, exc.message)`
   * around a service call whose value `f` turns into the response model.
   */
  function Guard<T, U>(r: Result<T>, f: T -> U): (out: Reply<U>)
    ensures out.Raised? <==> r.Err?
    ensures r.Ok? ==> out == Answer(f(r.value))
    ensures !out.Crashed?
    ensures r.Err? ==> out.exc.statusCode == r.error.statusCode
    ensures r.Err? ==> forall path :: HttpErrorResponse(out.exc, path) == ServiceErrorResponse(r.error, path)
  {
    match r
    case Ok(v) => Answer(f(v))
    case Err(e) =>
      ReRaisedErrorKeepsEnvelope(e);
      Raised(ReRaise(e))
  }

  /** Re-raising in a router and handling the HTTPException yields the very response the ServiceError handler builds. */
  lemma ReRaisedErrorKeepsEnvelope(e: ServiceError)
    ensures forall path :: HttpErrorResponse(ReRaise(e), path) == ServiceErrorResponse(e, path)
    ensures forall path :: HttpErrorResponse(ReRaise(e), path).body.error.code == ErrorCodeFromStatus(e.statusCode)
  {
  }
}
