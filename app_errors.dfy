/** The error objects the backend passes to Express's `next` and the HTTP
    status numbers it uses. The enumerations live in errorTypes.ts and
    httpCodes.ts, which are not part of this model: the error names are the
    ones the core refers to, and the status numbers are the standard HTTP ones. */
module AppErrors {
  import opened Wrappers

  datatype ErrorName =
    | VALIDATION_ERROR
    | NOT_FOUND_ERROR
    | CONFLICT_ERROR
    | RATE_LIMIT_ERROR
    | DATABASE_ERROR
    | DOCKER_ERROR
    | INTERNAL_ERROR

  /** An AppError object: every field may be missing in JavaScript. */
  datatype AppError = AppError(name: Option<ErrorName>, message: Option<string>, statusNumber: Option<int>)

  const SUCCESS := 200
  const BAD_REQUEST := 400
  const NOT_FOUND := 404
  const CONFLICT := 409
  const INTERNAL_SERVER_ERROR := 500

  /** The usual literal `{ name, message, statusNumber }` with all three present. */
  function Err(name: ErrorName, message: string, status: int): (e: AppError)
    ensures e.name == Some(name) && e.message == Some(message) && e.statusNumber == Some(status)
  {
    AppError(Some(name), Some(message), Some(status))
  }
}
