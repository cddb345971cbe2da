/** backend/src/middleware/errorHandler.ts: the operational error type and
    the mapping of every error that reaches Express to an HTTP response. */
module Errors {
  import opened Wrappers

  /** An `AppError` (operational, carries its own status) or any other
      thrown error. */
  datatype Failure =
    | AppError(message: string, statusCode: nat, isOperational: bool)
    | Unexpected(message: string)

  /** `new AppError(message, statusCode)`. */
  function NewAppError(message: string, statusCode: nat): (e: Failure)
    ensures e.AppError? && e.isOperational
    ensures e.message == message && e.statusCode == statusCode
  {
    AppError(message, statusCode, true)
  }

  datatype ErrorBody = ErrorBody(success: bool, error: string, details: Option<string>)
  datatype ErrorResponse = ErrorResponse(status: nat, body: ErrorBody)

  const InternalServerError := "Internal server error"

  /** `errorHandler(err, req, res, next)`. */
  function HandleError(err: Failure, nodeEnv: Option<string>): (r: ErrorResponse)
    ensures !r.body.success
    ensures err.AppError? ==> r.status == err.statusCode && r.body.error == err.message && r.body.details.None?
    ensures err.Unexpected? ==> r.status == 500 && r.body.error == InternalServerError
    ensures r.body.details.Some? <==> err.Unexpected? && nodeEnv == Some("development")
    ensures r.body.details.Some? ==> r.body.details.value == err.message
  {
    match err
    case AppError(message, statusCode, _) => ErrorResponse(statusCode, ErrorBody(false, message, None))
    case Unexpected(message) =>
      var details := if nodeEnv == Some("development") then Some(message) else None;
      ErrorResponse(500, ErrorBody(false, InternalServerError, details))
  }

  /** Outside development, the text of an unexpected error never reaches the
      client: two unexpected errors produce the same response. */
  lemma UnexpectedErrorsIndistinguishable(a: string, b: string, nodeEnv: Option<string>)
    requires nodeEnv != Some("development")
    ensures HandleError(Unexpected(a), nodeEnv) == HandleError(Unexpected(b), nodeEnv)
  {
  }
}
