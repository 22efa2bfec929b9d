/**
 * KYAPIClientDelegate: the hooks through which a client's owner can rewrite a
 * request before it is sent, judge a response, and decide whether to retry.
 * Each hook may throw, so each returns a Result.
 */
module KYAPIClientDelegate {
  import opened Wrappers
  import opened Foundation

  datatype ClientDelegate = ClientDelegate(
    /** `client(_:willSendRequest:)`: may rewrite the request or throw. */
    willSendRequest: URLRequest -> Result<URLRequest, Error>,
    /** `client(_:validateResponse:data:task:)`: throws to reject a response. */
    validateResponse: (HTTPResponse, Data, Handle) -> Result<(), Error>,
    /** `client(_:shouldRetry:error:attempts:)`: true asks for another attempt. */
    shouldRetry: (Handle, Error, nat) -> Result<bool, Error>)

  /** The default `willSendRequest`: sends the request as it is. */
  function DefaultWillSendRequest(request: URLRequest): (r: Result<URLRequest, Error>)
    ensures r == Success(request)
  {
    Success(request)
  }

  /**
   * The default `validateResponse`: accepts exactly the 2xx (Successful) class of
   * section 15.3 of RFC 9110 and otherwise throws `unacceptableStatusCode` with
   * the status received.
   */
  function DefaultValidateResponse(response: HTTPResponse, data: Data, task: Handle): (r: Result<(), Error>)
    ensures r.Success? <==> 200 <= response.statusCode < 300
    ensures r.Failure? ==> r.error == UnacceptableStatusCode(response.statusCode)
  {
    if 200 <= response.statusCode < 300 then Success(()) else Failure(UnacceptableStatusCode(response.statusCode))
  }

  /** The default `shouldRetry`: never. */
  function DefaultShouldRetry(task: Handle, error: Error, attempts: nat): (r: Result<bool, Error>)
    ensures r == Success(false)
  {
    Success(false)
  }

  /** `KYDefaultAPIClientDelegate`: a delegate that overrides none of the defaults. */
  function DefaultDelegate(): (d: ClientDelegate)
    ensures forall request :: d.willSendRequest(request) == Success(request)
    ensures forall task, error, attempts :: d.shouldRetry(task, error, attempts) == Success(false)
    ensures forall response, data, task ::
      d.validateResponse(response, data, task).Success? <==> 200 <= response.statusCode < 300
    ensures forall response, data, task ::
      d.validateResponse(response, data, task).Failure? ==>
        d.validateResponse(response, data, task).error == UnacceptableStatusCode(response.statusCode)
  {
    ClientDelegate(DefaultWillSendRequest, DefaultValidateResponse, DefaultShouldRetry)
  }

  /** The default validator's decision does not depend on the body or the task. */
  lemma DefaultValidateIgnoresBody(response: HTTPResponse, d1: Data, t1: Handle, d2: Data, t2: Handle)
    ensures DefaultValidateResponse(response, d1, t1) == DefaultValidateResponse(response, d2, t2)
  {
  }
}
