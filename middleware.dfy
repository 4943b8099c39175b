/**
 * The response hook `errorHandling` (app/zapier/middleware.js): an ordered
 * decision table over a response's status and body that throws the platform's
 * throttling error, an upload rejection, or a generic client error, marks the
 * response so that the platform does not throw a second time, and lets every
 * other response through unchanged. The console logging is not modelled.
 */
module Middleware {
  import opened Outcomes

  /** The `error` member of a response body. */
  datatype ErrorBody = ErrorBody(message: Option<string>, stack: Option<string>)

  /**
   * A response body. `success` is `None` when the body has no own `success`
   * field; string members are `None` when absent.
   */
  datatype ResponseData = ResponseData(
    success: Option<bool>,
    message: Option<string>,
    error: Option<ErrorBody>,
    statusCode: Option<int>)

  /**
   * The request a response answers: whether its body is a `FormData` (a chunk
   * upload), its HTTP method and URL, and the method of the platform event that
   * issued it, when there is one.
   */
  datatype RequestInfo = RequestInfo(formDataBody: bool, httpMethod: string, url: string, eventMethod: Option<string>)

  const TooManyRequests := "Too many requests, Zapier will retry in 60 seconds"
  const RetryAfter := 60

  /** Reading `error` of a missing response body. */
  const MissingBody := TypeError("Cannot read properties of undefined (reading 'error')")

  /** A chunk upload that the server answered with an own `success` equal to `false`. */
  predicate UploadRejected(request: RequestInfo, data: Option<ResponseData>) {
    request.formDataBody && data.Some? && data.value.success == Some(false)
  }

  /** The code of a thrown error: the event's method, else the request's method and URL. */
  function ErrorCode(request: RequestInfo): (code: string)
    ensures TruthyText(request.eventMethod) ==> code == request.eventMethod.value
    ensures !TruthyText(request.eventMethod) ==> code == request.httpMethod + " " + request.url
  {
    if TruthyText(request.eventMethod) then request.eventMethod.value
    else request.httpMethod + " " + request.url
  }

  /** `data.error?.message || data.message || "Unknown error"`. */
  function FallbackMessage(data: ResponseData): (message: string)
    ensures message != ""
    ensures data.error.Some? && TruthyText(data.error.value.message) ==> message == data.error.value.message.value
    ensures !(data.error.Some? && TruthyText(data.error.value.message)) && TruthyText(data.message) ==>
      message == data.message.value
    ensures !(data.error.Some? && TruthyText(data.error.value.message)) && !TruthyText(data.message) ==>
      message == UnknownError
  {
    if data.error.Some? && TruthyText(data.error.value.message) then data.error.value.message.value
    else if TruthyText(data.message) then data.message.value
    else UnknownError
  }

  /** The error `errorHandling` throws for a response, or `None` when it returns the response. */
  function Classify(status: int, request: RequestInfo, data: Option<ResponseData>): (r: Option<Failure>)
    // the throttling error is thrown for status 429 and for nothing else
    ensures r.Some? ==> (r.value.Throttled? <==> status == 429)
    // every other error is a rejection carrying the error code, or the missing-body type error
    ensures r.Some? && status != 429 ==> (r.value.Rejected? && r.value.code == ErrorCode(request)) || r.value == MissingBody
    ensures r.Some? && r.value == MissingBody ==> data.None? && 400 <= status <= 500
  {
    if status == 429 then Some(Throttled(TooManyRequests, RetryAfter))
    else if UploadRejected(request, data) then
      Some(Rejected(if data.value.message.Some? then data.value.message.value else "", ErrorCode(request), Some(400)))
    else if 400 <= status <= 500 then
      if data.None? then Some(MissingBody)
      else Some(Rejected(FallbackMessage(data.value), ErrorCode(request), data.value.statusCode))
    else None
  }

  /** Status 429 is throttled with a retry after 60 seconds, whatever the request and body. */
  lemma ThrottlingComesFirst(request: RequestInfo, data: Option<ResponseData>)
    ensures Classify(429, request, data) == Some(Throttled(TooManyRequests, 60))
    ensures UploadRejected(request, data) ==> Classify(429, request, data) != Classify(200, request, data)
  {
  }

  /** A rejected chunk upload fails with status 400, whatever the response status besides 429. */
  lemma RejectedUploadFails(status: int, request: RequestInfo, data: Option<ResponseData>)
    requires status != 429 && UploadRejected(request, data)
    ensures Classify(status, request, data).Some?
    ensures var f := Classify(status, request, data).value;
      f.Rejected? && f.status == Some(400) && f.code == ErrorCode(request)
  {
  }

  /**
   * A status from 400 to 500, both included, fails with a non-empty message
   * taken from the body, and the body's own status code.
   */
  lemma ClientErrorsFail(status: int, request: RequestInfo, data: ResponseData)
    requires 400 <= status <= 500 && status != 429 && !UploadRejected(request, Some(data))
    ensures Classify(status, request, Some(data)) ==
      Some(Rejected(FallbackMessage(data), ErrorCode(request), data.statusCode))
    ensures Classify(status, request, Some(data)).value.message != ""
  {
  }

  /** Exactly the responses outside 400..500 that are neither throttled nor a rejected upload pass. */
  lemma PassThroughIsExact(status: int, request: RequestInfo, data: Option<ResponseData>)
    ensures Classify(status, request, data).None? <==>
      status != 429 && !UploadRejected(request, data) && !(400 <= status <= 500)
  {
  }

  class HttpResponse {
    const status: int
    const request: RequestInfo
    const data: Option<ResponseData>
    var skipThrowForStatus: bool

    constructor(status: int, request: RequestInfo, data: Option<ResponseData>)
      ensures this.status == status && this.request == request && this.data == data
      ensures !skipThrowForStatus
    {
      this.status := status;
      this.request := request;
      this.data := data;
      skipThrowForStatus := false;
    }

    /**
     * `errorHandling(response, z)` on this response: throws what `Classify`
     * says, having set `skipThrowForStatus` first, or returns this response untouched.
     */
    method ErrorHandling() returns (r: Result<HttpResponse>)
      modifies this
      ensures Classify(status, request, data).None? ==> r == Ok(this) && skipThrowForStatus == old(skipThrowForStatus)
      ensures Classify(status, request, data).Some? ==>
        r == Err(Classify(status, request, data).value) && skipThrowForStatus
    {
      if status == 429 {
        skipThrowForStatus := true;
        return Err(Throttled(TooManyRequests, RetryAfter));
      }
      if request.formDataBody && data.Some? && data.value.success == Some(false) {
        skipThrowForStatus := true;
        var message := if data.value.message.Some? then data.value.message.value else "";
        var code := ErrorCode(request);
        return Err(Rejected(message, code, Some(400)));
      }
      if 400 <= status && status <= 500 {
        skipThrowForStatus := true;
        if data.None? {
          return Err(MissingBody);
        }
        var message := FallbackMessage(data.value);
        var code := ErrorCode(request);
        return Err(Rejected(message, code, data.value.statusCode));
      }
      return Ok(this);
    }
  }
}
