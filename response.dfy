/** KYResponse: the immutable envelope a finished request is delivered in. */
module KYResponse {
  import opened Wrappers
  import opened Foundation

  /**
   * The decoded value together with the raw bytes, the transport's response,
   * the finished task and the metrics collected for it.
   */
  datatype Response<T> = Response(value: T, data: Data, response: URLResponse, task: Handle, metrics: Option<Metrics>)
  {
    /** `map`: a new envelope with the transformed value and every other field shared. */
    function Map<U>(f: T -> U): (r: Response<U>)
      ensures r.value == f(value)
      ensures r.data == data && r.response == response && r.task == task && r.metrics == metrics
    {
      Response(f(value), data, response, task, metrics)
    }

    /**
     * `map` with a closure that may throw (`rethrows`): the closure's error is
     * thrown; otherwise the envelope carries its result and every other field.
     */
    function TryMap<U>(f: T -> Result<U, Error>): (r: Result<Response<U>, Error>)
      ensures f(value).Failure? ==> r == Failure(f(value).error)
      ensures f(value).Success? ==> r.Success? && r.value.value == f(value).value
      ensures r.Success? ==>
        r.value.data == data && r.value.response == response && r.value.task == task && r.value.metrics == metrics
    {
      match f(value)
      case Failure(e) => Failure(e)
      case Success(u) => Success(Response(u, data, response, task, metrics))
    }

    /** `statusCode`: present exactly for an HTTP response. */
    function StatusCode(): (s: Option<int>)
      ensures s.Some? <==> response.HTTPURLResponse?
      ensures s.Some? ==> s.value == response.statusCode
    {
      if response.HTTPURLResponse? then Some(response.statusCode) else None
    }
  }

  /** `init(value:data:response:task:metrics:)`; `metrics` defaults to nil. */
  function Make<T>(value: T, data: Data, response: URLResponse, task: Handle, metrics: Option<Metrics> := None): (r: Response<T>)
    ensures r.value == value && r.data == data && r.response == response && r.task == task && r.metrics == metrics
  {
    Response(value, data, response, task, metrics)
  }

  /** `location` of a download's envelope: the value itself. */
  function Location(r: Response<Url>): (u: Url)
    ensures u == r.value
  {
    r.value
  }

  /** Mapping with the identity gives back the same envelope. */
  lemma MapIdentity<T>(r: Response<T>)
    ensures r.Map(x => x) == r
  {
  }

  /** Mapping twice is mapping once with the composition. */
  lemma MapCompose<T, U, V>(r: Response<T>, f: T -> U, g: U -> V)
    ensures r.Map(f).Map(g) == r.Map(x => g(f(x)))
  {
  }

  /** A closure that never throws makes `map` total: it is `Map` of the closure's values. */
  lemma TryMapOfTotal<T, U>(r: Response<T>, g: T -> U)
    ensures r.TryMap(x => Success(g(x))) == Success(r.Map(g))
  {
  }

  /** A mapped envelope keeps the status code of the original. */
  lemma MapKeepsStatusCode<T, U>(r: Response<T>, f: T -> U)
    ensures r.Map(f).StatusCode() == r.StatusCode()
  {
  }
}
