/** The application's error value: a message, a machine-readable code and an
    HTTP status, and the four shorthand constructors. */
module Errors {

  datatype AppError = AppError(message: string, code: string, status: int)

  /** `new AppError(message, code = "APP_ERROR", status = 500)` */
  function NewAppError(message: string, code: string := "APP_ERROR", status: int := 500): (e: AppError)
    ensures e.message == message && e.code == code && e.status == status
  {
    AppError(message, code, status)
  }

  function BadRequest(message: string): (e: AppError)
    ensures e.message == message && e.code == "BAD_REQUEST" && e.status == 400
  {
    NewAppError(message, "BAD_REQUEST", 400)
  }

  function Unauthorized(message: string := "Unauthorized"): (e: AppError)
    ensures e.message == message && e.code == "UNAUTHORIZED" && e.status == 401
  {
    NewAppError(message, "UNAUTHORIZED", 401)
  }

  function Forbidden(message: string := "Forbidden"): (e: AppError)
    ensures e.message == message && e.code == "FORBIDDEN" && e.status == 403
  {
    NewAppError(message, "FORBIDDEN", 403)
  }

  function NotFound(message: string := "Not found"): (e: AppError)
    ensures e.message == message && e.code == "NOT_FOUND" && e.status == 404
  {
    NewAppError(message, "NOT_FOUND", 404)
  }

  /** Without a code and status an error is a generic 500; the shorthand
      constructors are client errors with pairwise distinct statuses. */
  lemma ErrorDefaults(message: string)
    ensures NewAppError(message) == AppError(message, "APP_ERROR", 500)
    ensures Unauthorized() == AppError("Unauthorized", "UNAUTHORIZED", 401)
    ensures Forbidden() == AppError("Forbidden", "FORBIDDEN", 403)
    ensures NotFound() == AppError("Not found", "NOT_FOUND", 404)
    ensures forall m :: 400 <= BadRequest(m).status < 500
  {
  }
}
