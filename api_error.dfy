/** The HTTP status codes the core uses (Go's net/http constants, section 15 of RFC 9110). */
module HttpStatus {
  const StatusOK: int := 200
  const StatusBadRequest: int := 400
  const StatusNotFound: int := 404
  const StatusUnprocessableEntity: int := 422
  const StatusInternalServerError: int := 500
  const StatusBadGateway: int := 502
  const StatusGatewayTimeout: int := 504
}

/**
 * The shared error record of shared/errors/api_error.go and its constructors.
 *
 * Every constructor fixes a code, a status and a context tag ("category") and passes
 * the caller's message and causes through unchanged; `NewAPIError` leaves the context
 * empty and takes the code and the status from the caller.
 */
module ApiErrors {
  import opened HttpStatus

  /** `APIError`. A Go nil `Causes` slice and an empty one are both `[]` here. */
  datatype APIError = APIError(code: string, message: string, statusCode: int, causes: seq<string>, context: string) {

    /** `Error()`: an API error reads as its human message, which determines it with the other fields. */
    function Error(): (s: string)
      ensures this.(message := s) == this
    {
      message
    }
  }

  // ErrorType
  const ValidationError: string := "validation"
  const BusinessError: string := "business"
  const SystemError: string := "system"
  const ExternalError: string := "external"

  // Validation errors (400)
  const CodeInvalidInput: string := "INVALID_INPUT"
  const CodeMissingParameter: string := "MISSING_PARAMETER"
  const CodeInvalidFormat: string := "INVALID_FORMAT"
  // Business errors (400-404)
  const CodeResourceNotFound: string := "RESOURCE_NOT_FOUND"
  const CodeBusinessRule: string := "BUSINESS_RULE_VIOLATION"
  // System errors (500)
  const CodeInternalError: string := "INTERNAL_SERVER_ERROR"
  const CodeDatabaseError: string := "DATABASE_ERROR"
  // External errors (502-504)
  const CodeExternalService: string := "EXTERNAL_SERVICE_ERROR"
  const CodeServiceTimeout: string := "SERVICE_TIMEOUT"
  const CodeServiceUnavailable: string := "SERVICE_UNAVAILABLE"
  // Authentication and authorisation errors (401-403)
  const CodeUnauthorized: string := "UNAUTHORIZED"
  const CodeForbidden: string := "FORBIDDEN"

  /** `NewAPIError`: everything the caller gives, verbatim, and no context. */
  function NewAPIError(code: string, message: string, statusCode: int, causes: seq<string>): (e: APIError)
    ensures e.code == code && e.message == message && e.statusCode == statusCode && e.causes == causes
    ensures e.context == ""
  {
    APIError(code, message, statusCode, causes, "")
  }

  /** `NewValidationError` */
  function NewValidationError(message: string, causes: seq<string>): (e: APIError)
    ensures e.code == CodeInvalidInput && e.statusCode == StatusBadRequest && e.context == ValidationError
    ensures e.message == message && e.causes == causes
  {
    APIError(CodeInvalidInput, message, StatusBadRequest, causes, ValidationError)
  }

  /** `NewBusinessError`: the caller chooses the code. */
  function NewBusinessError(code: string, message: string, causes: seq<string>): (e: APIError)
    ensures e.code == code && e.statusCode == StatusBadRequest && e.context == BusinessError
    ensures e.message == message && e.causes == causes
  {
    APIError(code, message, StatusBadRequest, causes, BusinessError)
  }

  /** `NewNotFoundError` */
  function NewNotFoundError(message: string, causes: seq<string>): (e: APIError)
    ensures e.code == CodeResourceNotFound && e.statusCode == StatusNotFound && e.context == BusinessError
    ensures e.message == message && e.causes == causes
  {
    APIError(CodeResourceNotFound, message, StatusNotFound, causes, BusinessError)
  }

  /** `NewInternalError` */
  function NewInternalError(message: string, causes: seq<string>): (e: APIError)
    ensures e.code == CodeInternalError && e.statusCode == StatusInternalServerError && e.context == SystemError
    ensures e.message == message && e.causes == causes
  {
    APIError(CodeInternalError, message, StatusInternalServerError, causes, SystemError)
  }

  /** `NewExternalServiceError` */
  function NewExternalServiceError(message: string, causes: seq<string>): (e: APIError)
    ensures e.code == CodeExternalService && e.statusCode == StatusBadGateway && e.context == ExternalError
    ensures e.message == message && e.causes == causes
  {
    APIError(CodeExternalService, message, StatusBadGateway, causes, ExternalError)
  }

  /** `NewTimeoutError` */
  function NewTimeoutError(message: string, causes: seq<string>): (e: APIError)
    ensures e.code == CodeServiceTimeout && e.statusCode == StatusGatewayTimeout && e.context == ExternalError
    ensures e.message == message && e.causes == causes
  {
    APIError(CodeServiceTimeout, message, StatusGatewayTimeout, causes, ExternalError)
  }

  // ---------------------------------------------------------------------------
  // The taxonomy read back from an error
  // ---------------------------------------------------------------------------

  /** Which constructor an error can have come from. */
  datatype ErrorKind = Plain | Validation | Business | NotFound | Internal | External | Timeout | Unclassified

  /** Recovers the constructor from the context tag and the status alone. */
  function KindOf(e: APIError): ErrorKind {
    if e.context == "" then Plain
    else if e.context == ValidationError && e.statusCode == StatusBadRequest then Validation
    else if e.context == BusinessError && e.statusCode == StatusBadRequest then Business
    else if e.context == BusinessError && e.statusCode == StatusNotFound then NotFound
    else if e.context == SystemError && e.statusCode == StatusInternalServerError then Internal
    else if e.context == ExternalError && e.statusCode == StatusBadGateway then External
    else if e.context == ExternalError && e.statusCode == StatusGatewayTimeout then Timeout
    else Unclassified
  }

  /** Every constructor is recognised by `KindOf`, whatever its arguments: no two of them overlap. */
  lemma KindOfConstructors(code: string, message: string, statusCode: int, causes: seq<string>)
    ensures KindOf(NewAPIError(code, message, statusCode, causes)) == Plain
    ensures KindOf(NewValidationError(message, causes)) == Validation
    ensures KindOf(NewBusinessError(code, message, causes)) == Business
    ensures KindOf(NewNotFoundError(message, causes)) == NotFound
    ensures KindOf(NewInternalError(message, causes)) == Internal
    ensures KindOf(NewExternalServiceError(message, causes)) == External
    ensures KindOf(NewTimeoutError(message, causes)) == Timeout
  {
  }

  /** The constructors are left-inverted by their kind: an error of a kind, with that kind's fixed
    * code, is rebuilt exactly from its message and causes. */
  lemma ConstructorsRebuild(e: APIError)
    ensures KindOf(e) == Plain ==> NewAPIError(e.code, e.message, e.statusCode, e.causes) == e
    ensures KindOf(e) == Validation && e.code == CodeInvalidInput ==> NewValidationError(e.message, e.causes) == e
    ensures KindOf(e) == Business ==> NewBusinessError(e.code, e.message, e.causes) == e
    ensures KindOf(e) == NotFound && e.code == CodeResourceNotFound ==> NewNotFoundError(e.message, e.causes) == e
    ensures KindOf(e) == Internal && e.code == CodeInternalError ==> NewInternalError(e.message, e.causes) == e
    ensures KindOf(e) == External && e.code == CodeExternalService ==> NewExternalServiceError(e.message, e.causes) == e
    ensures KindOf(e) == Timeout && e.code == CodeServiceTimeout ==> NewTimeoutError(e.message, e.causes) == e
  {
  }

  /** `Error()` of any constructed error is the message it was given. */
  lemma ErrorIsMessage(code: string, message: string, statusCode: int, causes: seq<string>)
    ensures NewAPIError(code, message, statusCode, causes).Error() == message
    ensures NewValidationError(message, causes).Error() == message
    ensures NewBusinessError(code, message, causes).Error() == message
    ensures NewNotFoundError(message, causes).Error() == message
    ensures NewInternalError(message, causes).Error() == message
    ensures NewExternalServiceError(message, causes).Error() == message
    ensures NewTimeoutError(message, causes).Error() == message
  {
  }
}
