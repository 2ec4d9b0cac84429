/**
 * The HTTP vocabulary of the service: status codes, outbound calls made through the HTTP client,
 * responses built by the controllers and handlers, and the kinds of exception that flow between them.
 */
module Http {
  import opened Wrappers

  // Status codes (RFC 9110 section 15; 429 is RFC 6585 section 4).
  const OK := 200
  const NO_CONTENT := 204
  const BAD_REQUEST := 400
  const UNAUTHORIZED := 401
  const FORBIDDEN := 403
  const NOT_FOUND := 404
  const CONFLICT := 409
  const TOO_MANY_REQUESTS := 429

  /** The header that carries a throttling hint (RFC 9110 section 10.2.3). */
  const RETRY_AFTER := "retry-after"

  datatype HttpMethod = GET | POST | PUT | PATCH | DELETE

  /** One outbound call through the HTTP client: target URL, verb, request headers and optional body. */
  datatype Exchange<B> = Exchange(url: string, verb: HttpMethod, headers: map<string, string>, body: Option<B>)

  /** A response built by a controller or an exception handler; `None` body is a response without one. */
  datatype Response<B> = Response(status: int, headers: map<string, string>, body: Option<B>)

  /** A bean-validation constraint violation: its property path and message. */
  datatype Violation = Violation(propertyPath: string, message: string)

  /** A field error of a request-binding failure: the field and its default message. */
  datatype FieldError = FieldError(field: string, defaultMessage: string)

  /**
   * The exception kinds the core throws, catches or translates. `message` is what `getMessage()`
   * returns; `responseHeaders` are the headers of the upstream response that failed.
   */
  datatype Exception =
    | HttpClientError(status: int, responseHeaders: map<string, seq<string>>, message: string)
    | ResponseStatus(status: int, reason: Option<string>, message: string)
    | DuplicateKey(message: string)
    | ConstraintViolation(violations: set<Violation>)
    | Validation(message: string)
    | Other(message: string)

  /** True when the exception is one of the two kinds that carry an HTTP status. */
  predicate CarriesStatus(ex: Exception) {
    ex.HttpClientError? || ex.ResponseStatus?
  }
}
