/**
 * The shared error vocabulary: fixed messages, HTTP status codes (RFC 9110
 * section 15), the error-response constructor and the two classifiers that
 * turn a PostgreSQL error (SQLSTATE codes of the PostgreSQL error-code
 * appendix) or an authentication error into a response.
 */
module Errors {
  import opened Common

  // HTTP status codes used by the handlers (RFC 9110 section 15; 429 is
  // section 4 of RFC 6585).
  const BAD_REQUEST := 400
  const UNAUTHORIZED := 401
  const FORBIDDEN := 403
  const NOT_FOUND := 404
  const CONFLICT := 409
  const TOO_MANY_REQUESTS := 429
  const INTERNAL_SERVER_ERROR := 500
  const SERVICE_UNAVAILABLE := 503

  // Fixed messages.
  const MSG_UNAUTHORIZED := "Unauthorized: Please sign in to access this resource"
  const MSG_INVALID_TOKEN := "Invalid authentication token"
  const MSG_WEBHOOK_VERIFICATION := "Invalid webhook signature"
  const MSG_QUERY_ERROR := "Error executing database query"
  const MSG_ROW_LEVEL_SECURITY := "Access denied by row level security policy"
  const MSG_FOREIGN_KEY_VIOLATION := "Referenced record does not exist"
  const MSG_UNIQUE_VIOLATION := "Record already exists"

  // SQLSTATE codes recognised by the database classifier.
  const SQLSTATE_FOREIGN_KEY_VIOLATION := "23503"
  const SQLSTATE_UNIQUE_VIOLATION := "23505"
  const SQLSTATE_INSUFFICIENT_PRIVILEGE := "42501"

  /** A database or authentication error object: its `code` and `message`
    * properties, when it has them. */
  datatype ErrorInfo = ErrorInfo(code: Option<string>, message: Option<string>)

  /** `{ error, code, details? }`. */
  datatype ErrorResponse = ErrorResponse(error: string, code: int, details: Option<ErrorInfo>)

  /** createErrorResponse: the `details` key is present exactly when details
    * were supplied (an object is always truthy). */
  function CreateErrorResponse(message: string, code: int, details: Option<ErrorInfo>): (r: ErrorResponse)
    ensures r.error == message && r.code == code
    ensures r.details.Some? <==> details.Some?
    ensures details.Some? ==> r.details == details
  {
    ErrorResponse(message, code, details)
  }

  /** `error?.code`: undefined for a null error. */
  function CodeOf(error: Option<ErrorInfo>): Option<string>
  {
    if error.Some? then error.value.code else None
  }

  /** handleDatabaseError: the three recognised SQLSTATE codes map to 400,
    * 409 and 403 with their fixed messages and no details; any other or
    * missing code maps to 500 and carries the original error as details. */
  function HandleDatabaseError(error: Option<ErrorInfo>): (r: ErrorResponse)
    ensures r.code == BAD_REQUEST <==> CodeOf(error) == Some(SQLSTATE_FOREIGN_KEY_VIOLATION)
    ensures r.code == CONFLICT <==> CodeOf(error) == Some(SQLSTATE_UNIQUE_VIOLATION)
    ensures r.code == FORBIDDEN <==> CodeOf(error) == Some(SQLSTATE_INSUFFICIENT_PRIVILEGE)
    ensures r.code in {BAD_REQUEST, CONFLICT, FORBIDDEN, INTERNAL_SERVER_ERROR}
    ensures r.code == BAD_REQUEST ==> r.error == MSG_FOREIGN_KEY_VIOLATION
    ensures r.code == CONFLICT ==> r.error == MSG_UNIQUE_VIOLATION
    ensures r.code == FORBIDDEN ==> r.error == MSG_ROW_LEVEL_SECURITY
    ensures r.code == INTERNAL_SERVER_ERROR ==> r.error == MSG_QUERY_ERROR && r.details == error
    ensures r.code != INTERNAL_SERVER_ERROR ==> r.details.None?
  {
    var code := CodeOf(error);
    if code == Some(SQLSTATE_FOREIGN_KEY_VIOLATION) then
      CreateErrorResponse(MSG_FOREIGN_KEY_VIOLATION, BAD_REQUEST, None)
    else if code == Some(SQLSTATE_UNIQUE_VIOLATION) then
      CreateErrorResponse(MSG_UNIQUE_VIOLATION, CONFLICT, None)
    else if code == Some(SQLSTATE_INSUFFICIENT_PRIVILEGE) then
      CreateErrorResponse(MSG_ROW_LEVEL_SECURITY, FORBIDDEN, None)
    else
      CreateErrorResponse(MSG_QUERY_ERROR, INTERNAL_SERVER_ERROR, error)
  }

  /** `error?.message?.includes(word)`. */
  predicate MessageIncludes(error: Option<ErrorInfo>, word: string)
  {
    error.Some? && error.value.message.Some? && Contains(error.value.message.value, word)
  }

  /** handleAuthError: always 401. A message mentioning "webhook" is read as
    * a signature failure before "token" is looked at; anything else is the
    * generic unauthorized message carrying the error. */
  function HandleAuthError(error: Option<ErrorInfo>): (r: ErrorResponse)
    ensures r.code == UNAUTHORIZED
    ensures r.error == MSG_WEBHOOK_VERIFICATION <==> MessageIncludes(error, "webhook")
    ensures r.error == MSG_INVALID_TOKEN <==> !MessageIncludes(error, "webhook") && MessageIncludes(error, "token")
    ensures r.error == MSG_UNAUTHORIZED <==> !MessageIncludes(error, "webhook") && !MessageIncludes(error, "token")
    ensures r.details == (if r.error == MSG_UNAUTHORIZED then error else None)
  {
    if MessageIncludes(error, "webhook") then
      CreateErrorResponse(MSG_WEBHOOK_VERIFICATION, UNAUTHORIZED, None)
    else if MessageIncludes(error, "token") then
      CreateErrorResponse(MSG_INVALID_TOKEN, UNAUTHORIZED, None)
    else
      CreateErrorResponse(MSG_UNAUTHORIZED, UNAUTHORIZED, error)
  }

  /** The error categories attached to webhook failures. */
  datatype ErrorType =
    | Initialization
    | Environment
    | WebhookVerification
    | UserCreation
    | UserDeletion
    | Database
    | Validation
    | Unknown

  function ErrorTypeValue(t: ErrorType): string
  {
    match t
    case Initialization => "INITIALIZATION_ERROR"
    case Environment => "ENVIRONMENT_ERROR"
    case WebhookVerification => "WEBHOOK_VERIFICATION_ERROR"
    case UserCreation => "USER_CREATION_ERROR"
    case UserDeletion => "USER_DELETION_ERROR"
    case Database => "DATABASE_ERROR"
    case Validation => "VALIDATION_ERROR"
    case Unknown => "UNKNOWN_ERROR"
  }

  /** The category strings are pairwise distinct, so a category can be read
    * back from its string. */
  lemma ErrorTypeValuesDistinct(a: ErrorType, b: ErrorType)
    ensures ErrorTypeValue(a) == ErrorTypeValue(b) ==> a == b
  {
  }
}
