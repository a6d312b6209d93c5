/**
 * The HTTP gateway as the pages see it (frontend/src/services/api.js): the
 * shape of the aggregate statistics the gateway returns, and the translation
 * of a failed request into the uniform `{message, status}` record.
 */
module Api {
  import opened Wrappers

  /** `GET /api/stats`: aggregate counters and the per-type attack counts. */
  datatype Stats = Stats(
    totalAttacks: int,
    successfulAttacks: int,
    totalDefenses: int,
    successfulDefenses: int,
    attackTypes: map<string, int>)

  /** The statistics every page starts from before its fetch resolves. */
  const InitialStats := Stats(0, 0, 0, 0, map[])

  /** A server reply to a failed request: its status and `data.error`, if any. */
  datatype HttpResponse = HttpResponse(status: int, error: Option<string>)

  /**
   * An HTTP client error. With `response` the server answered; otherwise
   * `requestSent` says whether a request went out unanswered; `message` is
   * the error's own text.
   */
  datatype ApiError = ApiError(response: Option<HttpResponse>, requestSent: bool, message: string)

  /** The three ways the translation reads an error, in the order it tests them. */
  datatype ErrorCase = ServerReplied | NoReply | Other

  function CaseOf(e: ApiError): ErrorCase {
    if e.response.Some? then ServerReplied else if e.requestSent then NoReply else Other
  }

  /** The uniform error record shown to the user. */
  datatype ErrorInfo = ErrorInfo(message: string, status: int)

  /** JavaScript truthiness of an optional string. */
  predicate Truthy(s: Option<string>) {
    s.Some? && s.value != ""
  }

  /** `handleApiError`. */
  function HandleApiError(e: ApiError): (info: ErrorInfo)
    ensures CaseOf(e) == ServerReplied ==>
      info.status == e.response.value.status &&
      info.message == (if Truthy(e.response.value.error) then e.response.value.error.value else "Request failed")
    ensures CaseOf(e) == NoReply ==> info == ErrorInfo("No response from server", 0)
    ensures CaseOf(e) == Other ==>
      info.status == 0 && info.message == (if e.message != "" then e.message else "Unexpected error")
    ensures info.message != ""
  {
    if e.response.Some? then
      var r := e.response.value;
      ErrorInfo(if Truthy(r.error) then r.error.value else "Request failed", r.status)
    else if e.requestSent then
      ErrorInfo("No response from server", 0)
    else
      ErrorInfo(if e.message != "" then e.message else "Unexpected error", 0)
  }

  /** A server reply wins over an unanswered request: `requestSent` is not consulted then. */
  lemma ResponseTakesPrecedence(e: ApiError)
    requires e.response.Some?
    ensures HandleApiError(e) == HandleApiError(e.(requestSent := true))
    ensures HandleApiError(e) == HandleApiError(e.(requestSent := false))
  {
  }

  /** A non-zero status can only come from a server reply, and then it is that reply's status. */
  lemma NonZeroStatusMeansReply(e: ApiError)
    ensures HandleApiError(e).status != 0 ==>
      e.response.Some? && HandleApiError(e).status == e.response.value.status
  {
  }
}
