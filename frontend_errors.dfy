/** The frontend's `getErrorMessage`: what the user is shown for a value
    caught from an API call. */
module FrontendErrors {
  import opened Wrappers

  /** The HTTP response an Axios error carries: its status and the
      `message` field of its JSON body, either of which may be missing. */
  datatype HttpResponse = HttpResponse(status: Option<int>, dataMessage: Option<string>)

  /** The caught value: anything that is not an `Error`, or an `Error` with
      its own message and, for Axios errors, a (truthy) response. */
  datatype Caught =
    | NotAnError
    | Error(message: string, response: Option<HttpResponse>)

  const UNEXPECTED := "An unexpected error occurred."
  const TOO_MANY := "Too many requests. Please wait a moment before trying again."
  const INVALID := "Invalid request. Please check your input."
  const LOGIN_NEEDED := "You need to be logged in to perform this action."
  const FORBIDDEN := "You do not have permission to perform this action."
  const MISSING := "The requested resource was not found."
  const SERVER := "Server error. Please try again later."
  const UNAVAILABLE := "Service temporarily unavailable. Please try again later."

  /** The fixed message a status maps to, whatever the server said. */
  function FixedMessage(status: int): Option<string> {
    if status == 429 then Some(TOO_MANY)
    else if status == 401 then Some(LOGIN_NEEDED)
    else if status == 403 then Some(FORBIDDEN)
    else if status == 404 then Some(MISSING)
    else if status == 500 then Some(SERVER)
    else if status == 503 then Some(UNAVAILABLE)
    else None
  }

  predicate Truthy(s: Option<string>) {
    s.Some? && s.value != ""
  }

  function GetErrorMessage(error: Caught): (r: string)
    ensures error.NotAnError? ==> r == UNEXPECTED
    ensures error.Error? && error.response.None? ==> r == error.message
    ensures error.Error? && error.response.Some? && error.response.value.status.Some? &&
            FixedMessage(error.response.value.status.value).Some? ==>
              r == FixedMessage(error.response.value.status.value).value
    ensures error.Error? && error.response.Some? && error.response.value.status == Some(400) ==>
              r == (if Truthy(error.response.value.dataMessage) then error.response.value.dataMessage.value else INVALID)
    ensures error.Error? && error.response.Some? &&
            (error.response.value.status.None? ||
             (error.response.value.status.value != 400 && FixedMessage(error.response.value.status.value).None?)) ==>
              r == (if Truthy(error.response.value.dataMessage) then error.response.value.dataMessage.value
                    else if error.message != "" then error.message
                    else UNEXPECTED)
  {
    match error
    case NotAnError => UNEXPECTED
    case Error(message, None) => message
    case Error(message, Some(HttpResponse(status, data))) =>
      if status == Some(429) then TOO_MANY
      else if status == Some(400) then (if Truthy(data) then data.value else INVALID)
      else if status == Some(401) then LOGIN_NEEDED
      else if status == Some(403) then FORBIDDEN
      else if status == Some(404) then MISSING
      else if status == Some(500) then SERVER
      else if status == Some(503) then UNAVAILABLE
      else if Truthy(data) then data.value
      else if message != "" then message
      else UNEXPECTED
  }

  /** Whenever an HTTP response is attached, the user never sees an empty text. */
  lemma ResponseMessagesAreNonEmpty(message: string, response: HttpResponse)
    ensures GetErrorMessage(Error(message, Some(response))) != ""
  {
  }

  /** The server's own text is shown only for a 400 or an unlisted status. */
  lemma ServerTextShownOnlyWhenNotFixed(message: string, status: int, data: string)
    requires data != ""
    requires data !in {TOO_MANY, LOGIN_NEEDED, FORBIDDEN, MISSING, SERVER, UNAVAILABLE}
    ensures GetErrorMessage(Error(message, Some(HttpResponse(Some(status), Some(data))))) == data
        <==> FixedMessage(status).None?
  {
  }
}
