/**
 * The translator of the `kitchensink/` copy of the service, whose bodies are string maps: request
 * binding failures become a field-to-message map, status-carrying failures the map {"error": message}.
 * Its status table and extraction rules are the same as those of `ExceptionHandling`.
 */
module MapBodyExceptionHandling {
  import opened Wrappers
  import opened Http
  import opened ExceptionHandling

  /** The fields named in a list of field errors. */
  function Fields(errors: seq<FieldError>): set<string> {
    set e | e in errors :: e.field
  }

  /** The map the errors build when put in list order: a later error for a field replaces an earlier one. */
  function FieldErrorMap(errors: seq<FieldError>): map<string, string> {
    if errors == [] then map[]
    else
      var last := errors[|errors| - 1];
      FieldErrorMap(errors[..|errors| - 1])[last.field := last.defaultMessage]
  }

  /** Every field that has an error is a key, and nothing else is. */
  lemma {:induction false} FieldErrorMapKeys(errors: seq<FieldError>)
    ensures FieldErrorMap(errors).Keys == Fields(errors)
  {
    if errors != [] {
      var init := errors[..|errors| - 1];
      FieldErrorMapKeys(init);
      assert errors == init + [errors[|errors| - 1]];
      assert Fields(errors) == Fields(init) + {errors[|errors| - 1].field};
    }
  }

  /** The value of a field is the message of the last error for that field. */
  lemma {:induction false} FieldErrorMapLastWins(errors: seq<FieldError>, j: int)
    requires 0 <= j < |errors|
    requires forall k | j < k < |errors| :: errors[k].field != errors[j].field
    ensures errors[j].field in FieldErrorMap(errors)
    ensures FieldErrorMap(errors)[errors[j].field] == errors[j].defaultMessage
  {
    if j < |errors| - 1 {
      var init := errors[..|errors| - 1];
      FieldErrorMapLastWins(init, j);
    }
  }

  /**
   * The 400 response for a request-binding failure: for every field with an error, the message of its
   * last error, and no other key.
   */
  method HandleValidationException(errors: seq<FieldError>) returns (r: Response<map<string, string>>)
    ensures r.status == BAD_REQUEST && r.headers == map[] && r.body.Some?
    ensures r.body.value.Keys == Fields(errors)
    ensures forall j | 0 <= j < |errors| && (forall k | j < k < |errors| :: errors[k].field != errors[j].field) ::
      r.body.value[errors[j].field] == errors[j].defaultMessage
  {
    var body: map<string, string> := map[];
    var i := 0;
    while i < |errors|
      invariant 0 <= i <= |errors|
      invariant body == FieldErrorMap(errors[..i])
    {
      assert errors[..i + 1][..i] == errors[..i];
      body := body[errors[i].field := errors[i].defaultMessage];
      i := i + 1;
    }
    assert errors[..i] == errors;
    FieldErrorMapKeys(errors);
    forall j | 0 <= j < |errors| && (forall k | j < k < |errors| :: errors[k].field != errors[j].field)
      ensures body[errors[j].field] == errors[j].defaultMessage
    {
      FieldErrorMapLastWins(errors, j);
    }
    r := Response(BAD_REQUEST, map[], Some(body));
  }

  /**
   * The response for a client-error or response-status exception, with the single-entry body
   * {"error": message}; status, faults and the 429 hint are as in `ExceptionHandling.HandleHttpExceptions`.
   */
  function HandleHttpExceptions(ex: Exception): (r: Result<Response<map<string, string>>, Fault>)
    requires ThrottleHintAvailable(ex)
    ensures r.Ok? <==> ExceptionHandling.HandleHttpExceptions(ex).Ok?
    ensures r.Err? ==> r.error == ExceptionHandling.HandleHttpExceptions(ex).error
    ensures r.Ok? ==>
      && r.value.status == ex.status
      && r.value.headers == ResponseHeaders(ex)
      && r.value.body == Some(map["error" := ExtractMessage(ex).value])
  {
    match ExtractStatusCode(ex)
    case Err(fault) => Err(fault)
    case Ok(status) =>
      match ExtractMessage(ex)
      case Err(fault) => Err(fault)
      case Ok(message) => Ok(Response(status, ResponseHeaders(ex), Some(map["error" := message])))
  }
}
