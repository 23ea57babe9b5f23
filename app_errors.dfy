/**
 * The exception hierarchy of emotion_detection_service/app/utils/custom_exceptions.py:
 * each class carries a default status code and message, the constructor overrides
 * them only with truthy arguments, and `to_dict` serialises the error.
 * `Fault` adds the built-in Python exceptions the services let escape.
 */
module AppErrors {
  import opened Wrappers
  import opened JsonValue
  import PyText

  datatype ErrorClass =
    | AppErrorBase
    | BadRequestError
    | UnauthorizedError
    | ForbiddenError
    | NotFoundError
    | MethodNotAllowedError
    | ConflictError

  /** The class attribute `status_code`. */
  function DefaultStatus(c: ErrorClass): int {
    match c
    case AppErrorBase => 400
    case BadRequestError => 400
    case UnauthorizedError => 401
    case ForbiddenError => 403
    case NotFoundError => 404
    case MethodNotAllowedError => 405
    case ConflictError => 409
  }

  /** The class attribute `message`. */
  function DefaultMessage(c: ErrorClass): string {
    match c
    case AppErrorBase => "An application error occurred."
    case BadRequestError => "Bad request."
    case UnauthorizedError => "Authentication is required to access this resource."
    case ForbiddenError => "Forbidden access."
    case NotFoundError => "Resource not found."
    case MethodNotAllowedError => "Method not allowed."
    case ConflictError => "Conflict occurred."
  }

  /** An instance: its class and the four instance attributes. */
  datatype AppError = AppError(cls: ErrorClass, message: Json, statusCode: Json, details: Json, path: Json)

  /** `cls(message, status_code, details, path)`: truthy arguments replace the class defaults. */
  function NewError(cls: ErrorClass, message: Json, statusCode: Json, details: Json, path: Json): (e: AppError)
    ensures e.cls == cls && e.details == details && e.path == path
    ensures e.message == if PyTruthy(message) then message else JStr(DefaultMessage(cls))
    ensures e.statusCode == if PyTruthy(statusCode) then statusCode else JInt(DefaultStatus(cls))
  {
    AppError(cls,
      if PyTruthy(message) then message else JStr(DefaultMessage(cls)),
      if PyTruthy(statusCode) then statusCode else JInt(DefaultStatus(cls)),
      details, path)
  }

  /** `AppError.to_dict()`. */
  function ToDict(e: AppError): (d: map<string, Json>)
    ensures "message" in d && d["message"] == e.message
    ensures "status_code" in d && d["status_code"] == e.statusCode
    ensures "path" in d && d["path"] == e.path
    ensures "details" in d <==> PyTruthy(e.details)
    ensures "details" in d ==> d["details"] == e.details
    ensures d.Keys <= {"message", "status_code", "path", "details"}
  {
    var base := map["message" := e.message, "status_code" := e.statusCode, "path" := e.path];
    if PyTruthy(e.details) then base["details" := e.details] else base
  }

  /** Built-in exceptions that escape a service: they become a 500 response. */
  datatype Crash =
    | AttributeError   // e.g. `.strip()` on a value that is not a string
    | TypeError        // e.g. iterating None, calling with the wrong arity
    | ValueError       // e.g. an invalid aggregation strategy
    | IndexError       // reading past the end of a list
    | KeyError         // a missing key in a dict lookup
    | RuntimeError     // a bare `raise` with no active exception
    | CommitFailed     // the database commit raised; the session was rolled back

  /** Whatever a service raises. */
  datatype Fault = App(error: AppError) | Crash(kind: Crash)

  /** `Cls(message=msg)` raised with no other argument. */
  function Raise(cls: ErrorClass, msg: string): Fault {
    App(NewError(cls, JStr(msg), JNull, JNull, JNull))
  }

  /** The fault is an application error of class `cls` whose message is `msg`. */
  predicate IsError(f: Fault, cls: ErrorClass, msg: string) {
    f.App? && f.error.cls == cls && f.error.message == JStr(msg)
  }

  /** Raising with a non-empty message keeps that message and the class's status code. */
  lemma RaiseCarriesMessage(cls: ErrorClass, msg: string)
    requires msg != []
    ensures IsError(Raise(cls, msg), cls, msg)
    ensures Raise(cls, msg).error.statusCode == JInt(DefaultStatus(cls))
  {
  }

  /** `value.strip()` in Python: only a string has the method. */
  function StripValue(v: Json): (r: Result<string, Fault>)
    ensures v.JStr? <==> r.Success?
    ensures r.Success? ==> r.value == PyText.Strip(v.s)
    ensures r.Failure? ==> r.error == Crash(AttributeError)
  {
    if v.JStr? then Success(PyText.Strip(v.s)) else Failure(Crash(AttributeError))
  }
}
