/**
 * The response envelope and its builders (shared/http/error_response.go).
 *
 * Each builder hands a status and an `APIResponse` to gin's `c.JSON`; here it returns that
 * pair as a `Reply`. The envelope carries the message and the causes of an error but not its
 * code or its context.
 */
module HttpResponse {
  import opened Wrappers
  import opened HttpStatus
  import opened ApiErrors
  import opened GetWeatherByCepUseCase

  /** `APIResponse`. `Data` is an `interface{}` in Go; the only value the service ever puts there is
    * the use case's output, and it is nil (`None`) in every error response. Nil causes are `[]`. */
  datatype APIResponse = APIResponse(data: Option<Output>, message: string, causes: seq<string>)

  /** What `c.JSON(status, response)` writes. */
  datatype Reply = Reply(status: int, body: APIResponse)

  const DefaultInternalMessage: string := "Internal server error occurred"
  const DefaultTimeoutMessage: string := "Request timeout exceeded"

  /** A reply that reports an error: no data, and the status and text of the error. */
  predicate ReportsError(r: Reply, e: APIError) {
    r == Reply(e.statusCode, APIResponse(None, e.message, e.causes))
  }

  /** `RespondWithSuccess`: 200, the data as given, no causes. */
  function RespondWithSuccess(data: Option<Output>, message: string): (r: Reply)
    ensures r.status == StatusOK
    ensures r.body.data == data && r.body.message == message && r.body.causes == []
  {
    Reply(StatusOK, APIResponse(data, message, []))
  }

  /** `RespondWithAPIError`: the error's own status, message and causes, and no data. */
  function RespondWithAPIError(apiError: APIError): (r: Reply)
    ensures ReportsError(r, apiError)
  {
    Reply(apiError.statusCode, APIResponse(None, apiError.message, apiError.causes))
  }

  /** `RespondWithError`: any status, no data. */
  function RespondWithError(statusCode: int, message: string, causes: seq<string>): (r: Reply)
    ensures r.status == statusCode && r.body.data == None
    ensures r.body.message == message && r.body.causes == causes
  {
    Reply(statusCode, APIResponse(None, message, causes))
  }

  /** `RespondWithValidationError`: 400. */
  function RespondWithValidationError(message: string, causes: seq<string>): (r: Reply)
    ensures ReportsError(r, NewValidationError(message, causes))
    ensures r.status == StatusBadRequest
  {
    RespondWithAPIError(NewValidationError(message, causes))
  }

  /** `RespondWithBusinessError`: 400; the code does not reach the envelope. */
  function RespondWithBusinessError(code: string, message: string, causes: seq<string>): (r: Reply)
    ensures ReportsError(r, NewBusinessError(code, message, causes))
    ensures r.status == StatusBadRequest
  {
    RespondWithAPIError(NewBusinessError(code, message, causes))
  }

  /** `RespondWithNotFound`: 404. */
  function RespondWithNotFound(message: string, causes: seq<string>): (r: Reply)
    ensures ReportsError(r, NewNotFoundError(message, causes))
    ensures r.status == StatusNotFound
  {
    RespondWithAPIError(NewNotFoundError(message, causes))
  }

  /** `RespondWithInternalError`: 500, and never an empty message. */
  function RespondWithInternalError(message: string, causes: seq<string>): (r: Reply)
    ensures r.status == StatusInternalServerError && r.body.data == None && r.body.causes == causes
    ensures r.body.message != ""
    ensures message != "" ==> r.body.message == message
    ensures message == "" ==> r.body.message == DefaultInternalMessage
  {
    var message' := if message == "" then DefaultInternalMessage else message;
    RespondWithAPIError(NewInternalError(message', causes))
  }

  /** `RespondWithExternalServiceError`: 502. */
  function RespondWithExternalServiceError(message: string, causes: seq<string>): (r: Reply)
    ensures ReportsError(r, NewExternalServiceError(message, causes))
    ensures r.status == StatusBadGateway
  {
    RespondWithAPIError(NewExternalServiceError(message, causes))
  }

  /** `RespondWithTimeout`: 504, and never an empty message. */
  function RespondWithTimeout(message: string, causes: seq<string>): (r: Reply)
    ensures r.status == StatusGatewayTimeout && r.body.data == None && r.body.causes == causes
    ensures r.body.message != ""
    ensures message != "" ==> r.body.message == message
    ensures message == "" ==> r.body.message == DefaultTimeoutMessage
  {
    var message' := if message == "" then DefaultTimeoutMessage else message;
    RespondWithAPIError(NewTimeoutError(message', causes))
  }

  /** Two errors give the same reply exactly when they agree on status, message and causes:
    * the builder keeps those and drops the code and the context. */
  lemma APIErrorReplyKeeps(e1: APIError, e2: APIError)
    ensures (RespondWithAPIError(e1) == RespondWithAPIError(e2)) <==>
      (e1.statusCode == e2.statusCode && e1.message == e2.message && e1.causes == e2.causes)
  {
    if RespondWithAPIError(e1) == RespondWithAPIError(e2) {
      assert RespondWithAPIError(e1).body == RespondWithAPIError(e2).body;
    }
  }

  /** Every error builder leaves the data out of the envelope. */
  lemma ErrorRepliesCarryNoData(e: APIError, status: int, code: string, message: string, causes: seq<string>)
    ensures RespondWithAPIError(e).body.data == None
    ensures RespondWithError(status, message, causes).body.data == None
    ensures RespondWithValidationError(message, causes).body.data == None
    ensures RespondWithBusinessError(code, message, causes).body.data == None
    ensures RespondWithNotFound(message, causes).body.data == None
    ensures RespondWithInternalError(message, causes).body.data == None
    ensures RespondWithExternalServiceError(message, causes).body.data == None
    ensures RespondWithTimeout(message, causes).body.data == None
  {
  }
}
