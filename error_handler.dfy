/** The backend's Express error middleware: it turns an AppError into the
    HTTP status and the `{ message }` body the client receives. */
module ErrorHandler {
  import opened Wrappers
  import opened AppErrors

  datatype HttpReply = HttpReply(status: int, message: string)

  /** JavaScript truthiness of an optional string: `undefined` and `''` are falsy. */
  predicate TruthyString(s: Option<string>) {
    s.Some? && s.value != ""
  }

  /** JavaScript truthiness of an optional number: `undefined` and `0` are falsy. */
  predicate TruthyNumber(n: Option<int>) {
    n.Some? && n.value != 0
  }

  function HandleError(err: AppError): (r: HttpReply)
    // a 500 never exposes the error's own message
    ensures err.statusNumber == Some(INTERNAL_SERVER_ERROR) ==>
              r == HttpReply(500, "Internal Server")
    // any other truthy status is passed through, with the error's message as body
    ensures TruthyNumber(err.statusNumber) && err.statusNumber != Some(INTERNAL_SERVER_ERROR) ==>
              r.status == err.statusNumber.value
    // a missing (or zero) status still answers 500, but on the branch that exposes the message
    ensures !TruthyNumber(err.statusNumber) ==> r.status == INTERNAL_SERVER_ERROR
    ensures err.statusNumber != Some(INTERNAL_SERVER_ERROR) ==>
              r.message == (if TruthyString(err.message) then err.message.value else "Internal Server Error")
    // the body is never empty
    ensures r.message != ""
  {
    if err.statusNumber == Some(INTERNAL_SERVER_ERROR) then
      HttpReply(INTERNAL_SERVER_ERROR, "Internal Server")
    else
      HttpReply(
        if TruthyNumber(err.statusNumber) then err.statusNumber.value else INTERNAL_SERVER_ERROR,
        if TruthyString(err.message) then err.message.value else "Internal Server Error")
  }

  /** Only the 500 branch can hide a message: whenever the status sent is not
      500, the client reads the error's own message (or the fallback). */
  lemma NonServerErrorsShowTheirMessage(err: AppError)
    requires HandleError(err).status != INTERNAL_SERVER_ERROR
    ensures TruthyString(err.message) ==> HandleError(err).message == err.message.value
    ensures !TruthyString(err.message) ==> HandleError(err).message == "Internal Server Error"
  {
  }

  /** A missing status number is reported as 500, yet the error's message
      reaches the client, unlike an explicit 500. */
  lemma MissingStatusExposesMessage(msg: string)
    requires msg != "" && msg != "Internal Server"
    ensures HandleError(AppError(None, Some(msg), None)) == HttpReply(500, msg)
    ensures HandleError(AppError(None, Some(msg), Some(500))) != HttpReply(500, msg)
  {
  }
}
