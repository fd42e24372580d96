/** The uniform error body of the in-memory server: a code, a message and optional details. */
module ApiErrors {
  import opened Wrappers

  datatype ErrorDetail = ErrorDetail(field: Option<string>, message: string)

  /** `{ error: { code, message, details? } }`; `details` is None when the key is absent. */
  datatype ErrorResponse = ErrorResponse(code: string, message: string, details: Option<seq<ErrorDetail>>)

  /** `createErrorResponse`: the details are attached only when given and non-empty. */
  function CreateErrorResponse(code: string, message: string, details: Option<seq<ErrorDetail>>): (r: ErrorResponse)
    ensures r.code == code && r.message == message
    ensures r.details.Some? <==> details.Some? && |details.value| > 0
    ensures r.details.Some? ==> r.details == details
  {
    if details.Some? && |details.value| > 0 then ErrorResponse(code, message, details)
    else ErrorResponse(code, message, None)
  }

  /** One detail per message, without a field. */
  function MessageDetails(errors: seq<string>): (details: seq<ErrorDetail>)
    ensures |details| == |errors|
  {
    if errors == [] then [] else [ErrorDetail(None, errors[0])] + MessageDetails(errors[1..])
  }

  /** The messages carried by a list of details. */
  function DetailMessages(details: seq<ErrorDetail>): (messages: seq<string>)
    ensures |messages| == |details|
  {
    if details == [] then [] else [details[0].message] + DetailMessages(details[1..])
  }

  /** The details of a validation error carry its messages back, in order, and no field. */
  lemma {:induction false} MessageDetailsRoundTrip(errors: seq<string>)
    ensures DetailMessages(MessageDetails(errors)) == errors
    ensures forall i :: 0 <= i < |errors| ==> MessageDetails(errors)[i] == ErrorDetail(None, errors[i])
  {
    if errors != [] {
      MessageDetailsRoundTrip(errors[1..]);
    }
  }

  const VALIDATION_ERROR := "VALIDATION_ERROR"
  const NOT_FOUND := "NOT_FOUND"
  const INTERNAL_ERROR := "INTERNAL_ERROR"
  const UNAUTHORIZED := "UNAUTHORIZED"

  /** `validationError`: code VALIDATION_ERROR, message "Validation failed", one detail per message. */
  function ValidationError(errors: seq<string>): (r: ErrorResponse)
    ensures r.code == VALIDATION_ERROR && r.message == "Validation failed"
    ensures r.details.None? <==> errors == []
    ensures r.details.Some? ==> DetailMessages(r.details.value) == errors
  {
    MessageDetailsRoundTrip(errors);
    CreateErrorResponse(VALIDATION_ERROR, "Validation failed", Some(MessageDetails(errors)))
  }

  /** `notFoundError`, with its default message when none is given. */
  function NotFoundError(message: Option<string>): (r: ErrorResponse)
    ensures r.code == NOT_FOUND && r.details.None?
    ensures message.None? ==> r.message == "Resource not found"
    ensures message.Some? ==> r.message == message.value
  {
    CreateErrorResponse(NOT_FOUND, message.GetOr("Resource not found"), None)
  }

  /** `internalError`, with its default message when none is given. */
  function InternalError(message: Option<string>): (r: ErrorResponse)
    ensures r.code == INTERNAL_ERROR && r.details.None?
    ensures message.None? ==> r.message == "Internal server error"
    ensures message.Some? ==> r.message == message.value
  {
    CreateErrorResponse(INTERNAL_ERROR, message.GetOr("Internal server error"), None)
  }
}
