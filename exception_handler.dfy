/**
 * The error translator: turns the exceptions that reach the controllers' boundary into responses
 * with a status, a stable message and, for throttling, the upstream retry hint.
 */
module ExceptionHandling {
  import opened Wrappers
  import opened Http

  const UNAUTHENTICATED_MESSAGE := "Provided request is unauthenticated"
  const UNAUTHORIZED_MESSAGE := "Provided request is unauthorized"
  const TOO_MANY_REQUESTS_MESSAGE := "Too many requests please try again later"
  const DUPLICATE_KEY_MESSAGE := "Check if any field on which uniqueness is defined is being duplicated"

  /** The programming faults the translator raises instead of producing a response. */
  datatype Fault =
    | UnsupportedExceptionType    // an exception kind without a status (IllegalArgumentException)
    | UnexpectedStatus(status: int)  // a status missing from the message table (IllegalStateException)

  /** The body of an error response. */
  datatype ErrorResponse = ErrorResponse(error: string)

  /** The statuses the message table knows. */
  predicate InStatusTable(status: int) {
    status == UNAUTHORIZED || status == FORBIDDEN || status == TOO_MANY_REQUESTS
  }

  /** The message for a status, and a fault for a status outside the table. */
  function GetStatusMessage(status: int): (r: Result<string, Fault>)
    ensures r.Ok? <==> InStatusTable(status)
    ensures r.Err? ==> r.error == UnexpectedStatus(status)
    ensures status == UNAUTHORIZED ==> r == Ok(UNAUTHENTICATED_MESSAGE)
    ensures status == FORBIDDEN ==> r == Ok(UNAUTHORIZED_MESSAGE)
    ensures status == TOO_MANY_REQUESTS ==> r == Ok(TOO_MANY_REQUESTS_MESSAGE)
  {
    if status == UNAUTHORIZED then Ok(UNAUTHENTICATED_MESSAGE)
    else if status == FORBIDDEN then Ok(UNAUTHORIZED_MESSAGE)
    else if status == TOO_MANY_REQUESTS then Ok(TOO_MANY_REQUESTS_MESSAGE)
    else Err(UnexpectedStatus(status))
  }

  /** The table is injective: a message names the status it came from. */
  lemma StatusMessageDeterminesStatus(status1: int, status2: int)
    requires GetStatusMessage(status1).Ok? && GetStatusMessage(status1) == GetStatusMessage(status2)
    ensures status1 == status2
  {
  }

  /** The status an exception carries; kinds without one are rejected. */
  function ExtractStatusCode(ex: Exception): (r: Result<int, Fault>)
    ensures r.Ok? <==> CarriesStatus(ex)
    ensures r.Ok? ==> r.value == ex.status
    ensures r.Err? ==> r.error == UnsupportedExceptionType
  {
    match ex
    case HttpClientError(status, _, _) => Ok(status)
    case ResponseStatus(status, _, _) => Ok(status)
    case _ => Err(UnsupportedExceptionType)
  }

  /**
   * The message of an exception: the table message for a client error, the reason (or, without one,
   * the exception's own message) for a response-status failure; other kinds are rejected.
   */
  function ExtractMessage(ex: Exception): (r: Result<string, Fault>)
    ensures ex.HttpClientError? ==> r == GetStatusMessage(ex.status)
    ensures ex.ResponseStatus? && ex.reason.Some? ==> r == Ok(ex.reason.value)
    ensures ex.ResponseStatus? && ex.reason.None? ==> r == Ok(ex.message)
    ensures !CarriesStatus(ex) ==> r == Err(UnsupportedExceptionType)
  {
    match ex
    case HttpClientError(status, _, _) => GetStatusMessage(status)
    case ResponseStatus(_, reason, message) => Ok(if reason.Some? then reason.value else message)
    case _ => Err(UnsupportedExceptionType)
  }

  /** The message extraction agrees with the status extraction on which kinds it accepts. */
  lemma ExtractionsRejectTheSameKinds(ex: Exception)
    ensures ExtractStatusCode(ex).Err? ==> ExtractMessage(ex).Err?
    ensures ExtractMessage(ex).Ok? ==> ExtractStatusCode(ex).Ok?
  {
  }

  /** The upstream carries a usable retry hint: a `retry-after` header with at least one value. */
  predicate HasRetryHint(headers: map<string, seq<string>>) {
    RETRY_AFTER in headers && |headers[RETRY_AFTER]| > 0
  }

  /**
   * What the handler needs to get past the cast and the header lookup on a 429: the exception must be a client error
   * (the cast) and carry the hint (the header lookup).
   */
  predicate ThrottleHintAvailable(ex: Exception) {
    CarriesStatus(ex) && ex.status == TOO_MANY_REQUESTS ==> ex.HttpClientError? && HasRetryHint(ex.responseHeaders)
  }

  /** The headers of a translated response: the first upstream `retry-after` value on a 429, none otherwise. */
  function ResponseHeaders(ex: Exception): (headers: map<string, string>)
    requires CarriesStatus(ex) && ThrottleHintAvailable(ex)
    ensures ex.status == TOO_MANY_REQUESTS ==> headers == map[RETRY_AFTER := ex.responseHeaders[RETRY_AFTER][0]]
    ensures ex.status != TOO_MANY_REQUESTS ==> headers == map[]
  {
    if ex.status == TOO_MANY_REQUESTS then map[RETRY_AFTER := ex.responseHeaders[RETRY_AFTER][0]] else map[]
  }

  /**
   * The response for a client-error or response-status exception: the carried status, the extracted
   * message as the `error` body and, on 429, the retry hint. A fault of either extraction is returned
   * instead, the status extraction's first.
   */
  function HandleHttpExceptions(ex: Exception): (r: Result<Response<ErrorResponse>, Fault>)
    requires ThrottleHintAvailable(ex)
    ensures r.Ok? <==> CarriesStatus(ex) && (ex.HttpClientError? ==> InStatusTable(ex.status))
    ensures !CarriesStatus(ex) ==> r == Err(UnsupportedExceptionType)
    ensures ex.HttpClientError? && !InStatusTable(ex.status) ==> r == Err(UnexpectedStatus(ex.status))
    ensures r.Ok? ==>
      && r.value.status == ex.status
      && r.value.body == Some(ErrorResponse(ExtractMessage(ex).value))
      && r.value.headers == ResponseHeaders(ex)
  {
    match ExtractStatusCode(ex)
    case Err(fault) => Err(fault)
    case Ok(status) =>
      match ExtractMessage(ex)
      case Err(fault) => Err(fault)
      case Ok(message) => Ok(Response(status, ResponseHeaders(ex), Some(ErrorResponse(message))))
  }

  /** A throttled client error is translated to 429, the table message and the first upstream hint. */
  lemma ThrottledRequestCarriesHint(headers: map<string, seq<string>>, message: string)
    requires HasRetryHint(headers)
    ensures HandleHttpExceptions(HttpClientError(TOO_MANY_REQUESTS, headers, message))
      == Ok(Response(TOO_MANY_REQUESTS, map[RETRY_AFTER := headers[RETRY_AFTER][0]],
                     Some(ErrorResponse(TOO_MANY_REQUESTS_MESSAGE))))
  {
  }

  /** A duplicate-key failure is always 409 with the fixed message, whatever field caused it. */
  function HandleDuplicateKeyException(ex: Exception): (r: Response<ErrorResponse>)
    requires ex.DuplicateKey?
    ensures r.status == CONFLICT && r.headers == map[]
    ensures r.body == Some(ErrorResponse(DUPLICATE_KEY_MESSAGE))
  {
    Response(CONFLICT, map[], Some(ErrorResponse(DUPLICATE_KEY_MESSAGE)))
  }
}
