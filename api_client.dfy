/**
 * KYAPIClient: builds a URLRequest from a KYRequest, runs data and upload
 * transfers under the retry policy of the client's delegate, and runs
 * downloads once.
 *
 * The closures the client hands to the session become function parameters:
 * `parse` is `URL(string:)`, `encode` the body encoder, and `transfer` the
 * outcome the data loader delivers for a started task.
 */
module KYAPIClient {
  import opened Wrappers
  import opened Foundation
  import opened KYResponse
  import opened KYRequest
  import opened KYAPIClientDelegate

  /**
   * The part of `Configuration` the core reads: the base URL, the optional
   * client delegate, and the session configuration's `httpAdditionalHeaders`.
   */
  datatype Configuration = Configuration(
    baseURL: Option<Url>,
    delegate: Option<ClientDelegate>,
    additionalHeaders: Option<map<string, string>>)

  /** `init(configuration:)`: without a delegate the client uses `KYDefaultAPIClientDelegate`. */
  function ClientDelegateOf(config: Configuration): (d: ClientDelegate)
    ensures config.delegate.Some? ==> d == config.delegate.value
    ensures config.delegate.None? ==> d == DefaultDelegate()
  {
    config.delegate.GetOr(DefaultDelegate())
  }

  // ---------------------------------------------------------------------------
  // makeURL
  // ---------------------------------------------------------------------------

  /** The query items replace the URL's query only when the list is present and non-empty. */
  function WithQuery(u: Url, query: Option<seq<QueryItem>>): (r: Url)
    ensures query.Some? && query.value != [] ==> r == u.(query := query)
    ensures !(query.Some? && query.value != []) ==> r == u
  {
    if query.Some? && query.value != [] then u.(query := query) else u
  }

  /**
   * `makeURL(url:query:)`: an empty path is the base URL followed by "/"; a path
   * that parses with a scheme is used as it is; a path that parses without one
   * is appended to the base URL; anything else is `URLError(.badURL)`.
   */
  function MakeURL(baseURL: Option<Url>, path: string, query: Option<seq<QueryItem>>, parse: string -> Option<Url>): (r: Result<Url, Error>)
    ensures r.Failure? ==> r.error == URLError(BadURL)
    ensures path == [] ==>
      (r.Success? <==> baseURL.Some?)
      && (r.Success? ==> r.value == WithQuery(AppendingPathComponent(baseURL.value, "/"), query))
    ensures path != [] && parse(path).None? ==> r.Failure?
    ensures path != [] && parse(path).Some? && parse(path).value.scheme.Some? ==>
      r == Success(WithQuery(parse(path).value, query))
    ensures path != [] && parse(path).Some? && parse(path).value.scheme.None? ==>
      (r.Success? <==> baseURL.Some?)
      && (r.Success? ==> r.value == WithQuery(AppendingPathComponent(baseURL.value, path), query))
  {
    var resolved :=
      if path == [] then
        if baseURL.Some? then Some(AppendingPathComponent(baseURL.value, "/")) else None
      else
        match parse(path)
        case None => None
        case Some(u) =>
          if u.scheme.Some? then Some(u)
          else if baseURL.Some? then Some(AppendingPathComponent(baseURL.value, path))
          else None;
    if resolved.None? then Failure(URLError(BadURL)) else Success(WithQuery(resolved.value, query))
  }

  /**
   * The query items only ever affect the query: building with or without them
   * fails or succeeds alike and gives the same scheme, path and trailing slash.
   * A non-empty list becomes the query; an absent or empty one keeps the
   * resolved URL's own query.
   */
  lemma MakeURLAttachesQuery(baseURL: Option<Url>, path: string, query: Option<seq<QueryItem>>, parse: string -> Option<Url>)
    ensures var r, plain := MakeURL(baseURL, path, query, parse), MakeURL(baseURL, path, None, parse);
      && (r.Success? <==> plain.Success?)
      && (r.Success? ==> r.value.(query := None) == plain.value.(query := None))
      && (r.Success? && query.Some? && query.value != [] ==> r.value.query == query)
      && (r.Success? && !(query.Some? && query.value != []) ==> r.value == plain.value)
  {
  }

  /** An empty path names the base URL's own path, marked as a directory. */
  lemma EmptyPathIsBaseDirectory(base: Url, parse: string -> Option<Url>)
    ensures var r := MakeURL(Some(base), "", None, parse);
      r.Success? && r.value.path == base.path && r.value.trailingSlash
      && r.value.scheme == base.scheme && r.value.query == base.query
  {
    assert Components("/") == Components("") == [];
  }

  // ---------------------------------------------------------------------------
  // makeURLRequest
  // ---------------------------------------------------------------------------

  const ContentType: string := "Content-Type"
  const Accept: string := "Accept"
  const Json: string := "application/json"

  /** Whether the session's additional headers set field `name`. */
  predicate SessionSets(additional: Option<map<string, string>>, name: string) {
    additional.Some? && name in additional.value
  }

  /**
   * The header fields of a built request: the request's own fields, plus
   * `Content-Type: application/json` for a request with a body and `Accept:
   * application/json`, each added only when neither the request nor the session
   * sets it already.
   */
  function DefaultedHeaders(given: map<string, string>, additional: Option<map<string, string>>, hasBody: bool): (h: map<string, string>)
    ensures forall k :: k in given ==> k in h && h[k] == given[k]
    ensures forall k :: k in h && k !in given ==> (k == ContentType || k == Accept) && h[k] == Json
    ensures ContentType in h <==> ContentType in given || (hasBody && !SessionSets(additional, ContentType))
    ensures Accept in h <==> Accept in given || !SessionSets(additional, Accept)
  {
    var typed :=
      if hasBody && ContentType !in given && !SessionSets(additional, ContentType)
      then given[ContentType := Json] else given;
    if Accept !in typed && !SessionSets(additional, Accept) then typed[Accept := Json] else typed
  }

  /**
   * `makeURLRequest(for:)`: the URL from `MakeURL`, the request's header fields
   * and method token, the encoded body, then the default header fields. A bad
   * URL or a failing encoder is thrown.
   */
  method MakeURLRequest<R>(config: Configuration, request: Request<R>, parse: string -> Option<Url>, encode: Body -> Result<Option<Data>, Error>)
    returns (r: Result<URLRequest, Error>)
    ensures var u := MakeURL(config.baseURL, request.url, request.query, parse);
      u.Failure? ==> r == Failure(u.error)
    ensures var u := MakeURL(config.baseURL, request.url, request.query, parse);
      u.Success? && request.body.Some? && encode(request.body.value).Failure? ==>
        r == Failure(encode(request.body.value).error)
    ensures var u := MakeURL(config.baseURL, request.url, request.query, parse);
      u.Success? && (request.body.None? || encode(request.body.value).Success?) ==>
        && r.Success?
        && r.value.url == u.value
        && r.value.httpMethod == request.httpMethod.Token()
        && r.value.httpBody == (if request.body.Some? then encode(request.body.value).value else None)
        && r.value.headers == DefaultedHeaders(request.headers.GetOr(map[]), config.additionalHeaders, request.body.Some?)
  {
    var url := MakeURL(config.baseURL, request.url, request.query, parse);
    if url.Failure? {
      return Failure(url.error);
    }
    var urlRequest := NewURLRequest(url.value);
    urlRequest := urlRequest.(headers := request.headers.GetOr(map[]));
    urlRequest := urlRequest.(httpMethod := request.httpMethod.Token());
    if request.body.Some? {
      var body := encode(request.body.value);
      if body.Failure? {
        return Failure(body.error);
      }
      urlRequest := urlRequest.(httpBody := body.value);
      if ContentType !in urlRequest.headers && !SessionSets(config.additionalHeaders, ContentType) {
        urlRequest := urlRequest.(headers := urlRequest.headers[ContentType := Json]);
      }
    }
    if Accept !in urlRequest.headers && !SessionSets(config.additionalHeaders, Accept) {
      urlRequest := urlRequest.(headers := urlRequest.headers[Accept := Json]);
    }
    return Success(urlRequest);
  }

  // ---------------------------------------------------------------------------
  // validate
  // ---------------------------------------------------------------------------

  /** `validate(_:)`: only an HTTP response is shown to the delegate's validator. */
  function Validate<T>(delegate: ClientDelegate, response: Response<T>): (r: Result<(), Error>)
    ensures !response.response.HTTPURLResponse? ==> r == Success(())
    ensures response.response.HTTPURLResponse? ==>
      r == delegate.validateResponse(response.response, response.data, response.task)
  {
    if response.response.HTTPURLResponse? then
      delegate.validateResponse(response.response, response.data, response.task)
    else
      Success(())
  }

  /**
   * With the default delegate a response passes exactly when it is not an HTTP
   * response or its status is 2xx; otherwise the status is thrown.
   */
  lemma ValidateWithDefault<T>(response: Response<T>)
    ensures var r := Validate(DefaultDelegate(), response);
      && (r.Success? <==> !response.response.HTTPURLResponse? || 200 <= response.response.statusCode < 300)
      && (r.Failure? ==> r.error == UnacceptableStatusCode(response.response.statusCode))
  {
  }

  // ---------------------------------------------------------------------------
  // performWithRetries
  // ---------------------------------------------------------------------------

  /** One consultation of the retry policy: the failed task, its error and the attempt count. */
  datatype RetryStep = RetryStep(task: Handle, error: Error, attempts: nat)

  /**
   * A run of the retry loop: its outcome (None when the model's bound on the
   * number of sends ran out first), how many times `send` ran, and every
   * consultation of the policy, in order.
   */
  datatype Retried<T> = Retried(outcome: Option<Result<T, Error>>, sends: nat, asked: seq<RetryStep>)

  /**
   * `performWithRetries(attempts:send:)`, following its recursion: `send(n)` is
   * the outcome of the n-th run of the closure; at most `fuel` runs are made.
   */
  function Retry<T>(send: nat -> Result<T, Error>, shouldRetry: (Handle, Error, nat) -> Result<bool, Error>, attempts: nat, fuel: nat): (r: Retried<T>)
    ensures r.sends <= fuel
    ensures |r.asked| <= r.sends
    ensures r.outcome.None? ==> r.sends == fuel
    decreases fuel
  {
    if fuel == 0 then Retried(None, 0, [])
    else
      match send(attempts)
      case Success(v) => Retried(Some(Success(v)), 1, [])
      case Failure(e) =>
        if !e.DataLoaderError? then Retried(Some(Failure(e)), 1, [])
        else
          var step := RetryStep(e.task, e.error, attempts);
          match shouldRetry(e.task, e.error, attempts)
          case Failure(pe) => Retried(Some(Failure(pe)), 1, [step])
          case Success(again) =>
            if !again then Retried(Some(Failure(e.error)), 1, [step])
            else
              var rest := Retry(send, shouldRetry, attempts + 1, fuel - 1);
              Retried(rest.outcome, rest.sends + 1, [step] + rest.asked)
  }

  /**
   * The loop's state after `sends` sends without an outcome: the whole run is
   * these sends and questions followed by a run from attempt `sends + 1` with
   * the sends that are left.
   */
  ghost predicate RetryingFrom<T>(send: nat -> Result<T, Error>, shouldRetry: (Handle, Error, nat) -> Result<bool, Error>, fuel: nat, sends: nat, asked: seq<RetryStep>) {
    && sends <= fuel
    && var rest := Retry(send, shouldRetry, sends + 1, fuel - sends);
      Retry(send, shouldRetry, 1, fuel) == Retried(rest.outcome, sends + rest.sends, asked + rest.asked)
  }

  /**
   * One pass of the retry loop: run the closure for attempt `attempts`; on the
   * internal wrapper, ask the policy. Either the run ends here with its whole
   * outcome, or it goes on from the next attempt.
   */
  method RetryOnce<T>(send: nat -> Result<T, Error>, shouldRetry: (Handle, Error, nat) -> Result<bool, Error>, ghost fuel: nat,
    attempts: nat, sends: nat, asked: seq<RetryStep>)
    returns (outcome: Option<Result<T, Error>>, sends': nat, asked': seq<RetryStep>)
    requires RetryingFrom(send, shouldRetry, fuel, sends, asked) && sends < fuel && attempts == sends + 1
    ensures sends' == sends + 1
    ensures outcome.Some? ==> Retried(outcome, sends', asked') == Retry(send, shouldRetry, 1, fuel)
    ensures outcome.None? ==> RetryingFrom(send, shouldRetry, fuel, sends', asked')
  {
    ghost var rest := Retry(send, shouldRetry, attempts, fuel - sends);
    sends' := sends + 1;
    var result := send(attempts);
    if result.Success? || !result.error.DataLoaderError? {
      assert rest == Retried(Some(result), 1, []);
      assert asked + [] == asked;
      return Some(result), sends', asked;
    }
    var error := result.error;
    var step := RetryStep(error.task, error.error, attempts);
    asked' := asked + [step];
    var retry := shouldRetry(error.task, error.error, attempts);
    if retry.Failure? {
      assert rest == Retried(Some(Failure(retry.error)), 1, [step]);
      outcome := Some(Failure(retry.error));
    } else if !retry.value {
      assert rest == Retried(Some(Failure(error.error)), 1, [step]);
      outcome := Some(Failure(error.error));
    } else {
      ghost var next := Retry(send, shouldRetry, attempts + 1, fuel - sends');
      assert rest == Retried(next.outcome, next.sends + 1, [step] + next.asked);
      assert asked' + next.asked == asked + ([step] + next.asked);
      outcome := None;
    }
  }

  /** The retry loop as a counter loop; it does exactly what `Retry` describes. */
  method PerformWithRetries<T>(send: nat -> Result<T, Error>, shouldRetry: (Handle, Error, nat) -> Result<bool, Error>, fuel: nat)
    returns (outcome: Option<Result<T, Error>>, sends: nat, asked: seq<RetryStep>)
    ensures Retried(outcome, sends, asked) == Retry(send, shouldRetry, 1, fuel)
  {
    var attempts: nat := 1;
    sends, asked, outcome := 0, [], None;
    while outcome.None? && sends < fuel
      invariant outcome.None? ==> RetryingFrom(send, shouldRetry, fuel, sends, asked) && attempts == sends + 1
      invariant outcome.Some? ==> Retried(outcome, sends, asked) == Retry(send, shouldRetry, 1, fuel)
      decreases fuel - sends
    {
      outcome, sends, asked := RetryOnce(send, shouldRetry, fuel, attempts, sends, asked);
      attempts := attempts + 1;
    }
    if outcome.None? {
      assert asked + [] == asked;
    }
  }

  /** A successful first send is returned at once; the policy is never asked. */
  lemma RetrySucceedsAtOnce<T>(send: nat -> Result<T, Error>, shouldRetry: (Handle, Error, nat) -> Result<bool, Error>, attempts: nat, fuel: nat)
    requires fuel > 0 && send(attempts).Success?
    ensures Retry(send, shouldRetry, attempts, fuel) == Retried(Some(send(attempts)), 1, [])
  {
  }

  /** An error other than the internal wrapper is rethrown unchanged; the policy is never asked. */
  lemma RetryRethrowsOtherErrors<T>(send: nat -> Result<T, Error>, shouldRetry: (Handle, Error, nat) -> Result<bool, Error>, attempts: nat, fuel: nat)
    requires fuel > 0 && send(attempts).Failure? && !send(attempts).error.DataLoaderError?
    ensures Retry(send, shouldRetry, attempts, fuel) == Retried(Some(send(attempts)), 1, [])
  {
  }

  /**
   * The i-th time the policy is asked, it is asked about attempt `attempts + i`,
   * and about the wrapper that the send of that attempt threw.
   */
  lemma {:induction false} RetryAskedInOrder<T>(send: nat -> Result<T, Error>, shouldRetry: (Handle, Error, nat) -> Result<bool, Error>, attempts: nat, fuel: nat, i: nat)
    requires i < |Retry(send, shouldRetry, attempts, fuel).asked|
    ensures var step := Retry(send, shouldRetry, attempts, fuel).asked[i];
      && step.attempts == attempts + i
      && send(attempts + i) == Failure(DataLoaderError(step.task, step.error))
    decreases fuel
  {
    var e := send(attempts).error;
    if i == 0 {
      assert e == DataLoaderError(e.task, e.error);
    } else {
      var rest := Retry(send, shouldRetry, attempts + 1, fuel - 1);
      assert Retry(send, shouldRetry, attempts, fuel).asked == [RetryStep(e.task, e.error, attempts)] + rest.asked;
      RetryAskedInOrder(send, shouldRetry, attempts + 1, fuel - 1, i - 1);
    }
  }

  /**
   * What a finished run throws comes from its last send: that send's error when it
   * is not the wrapper; otherwise the policy's own error, or the wrapped error
   * (never the wrapper) when the policy declined.
   */
  lemma {:induction false} RetrySurfacesInnerError<T>(send: nat -> Result<T, Error>, shouldRetry: (Handle, Error, nat) -> Result<bool, Error>, attempts: nat, fuel: nat)
    ensures var r := Retry(send, shouldRetry, attempts, fuel);
      r.outcome.Some? ==>
        var last := attempts + r.sends - 1;
        && r.sends >= 1
        && (r.outcome.value.Success? <==> send(last).Success?)
        && (send(last).Success? ==> r.outcome.value == send(last))
        && (send(last).Failure? && !send(last).error.DataLoaderError? ==> r.outcome.value == send(last))
        && (send(last).Failure? && send(last).error.DataLoaderError? ==>
              var w := send(last).error;
              var pr := shouldRetry(w.task, w.error, last);
              && (pr.Failure? ==> r.outcome.value == Failure(pr.error))
              && (pr.Success? ==> !pr.value && r.outcome.value == Failure(w.error)))
    decreases fuel
  {
    if fuel > 0 && send(attempts).Failure? && send(attempts).error.DataLoaderError? {
      var e := send(attempts).error;
      var pr := shouldRetry(e.task, e.error, attempts);
      if pr.Success? && pr.value {
        RetrySurfacesInnerError(send, shouldRetry, attempts + 1, fuel - 1);
      }
    }
  }

  /**
   * When every send throws the wrapper and the policy says yes before attempt
   * `attempts + k - 1` and no at it, `send` runs exactly `k` times and the
   * wrapped error of the last send is thrown.
   */
  lemma {:induction false} RetryRunsExactly<T>(send: nat -> Result<T, Error>, shouldRetry: (Handle, Error, nat) -> Result<bool, Error>, attempts: nat, fuel: nat, k: nat)
    requires 1 <= k <= fuel
    requires forall n :: attempts <= n < attempts + k ==> send(n).Failure? && send(n).error.DataLoaderError?
    requires forall n :: attempts <= n < attempts + k ==>
      shouldRetry(send(n).error.task, send(n).error.error, n) == Success(n < attempts + k - 1)
    ensures var r := Retry(send, shouldRetry, attempts, fuel);
      && r.sends == k
      && |r.asked| == k
      && r.outcome == Some(Failure(send(attempts + k - 1).error.error))
    decreases k
  {
    if k > 1 {
      RetryRunsExactly(send, shouldRetry, attempts + 1, fuel - 1, k - 1);
    }
  }

  /** The default policy never retries: one send, whatever it returns. */
  lemma DefaultPolicySendsOnce<T>(send: nat -> Result<T, Error>, fuel: nat)
    requires fuel > 0
    ensures var r := Retry(send, DefaultDelegate().shouldRetry, 1, fuel);
      r.sends == 1 && r.outcome.Some?
      && (send(1).Failure? && send(1).error.DataLoaderError? ==> r.outcome.value == Failure(send(1).error.error))
  {
  }

  // ---------------------------------------------------------------------------
  // data(for:), upload, download
  // ---------------------------------------------------------------------------

  /**
   * The closure `data(for:)` and `_upload` retry: let the delegate rewrite the
   * request (its error escapes unwrapped), start the attempt's fresh task, and
   * validate the response; an error from starting or validating is wrapped in
   * `DataLoaderError` with this attempt's task.
   */
  function Attempt(delegate: ClientDelegate, request: URLRequest, task: Handle, transfer: URLRequest -> Result<Response<Data>, Error>): (r: Result<Response<Data>, Error>)
    ensures delegate.willSendRequest(request).Failure? ==> r == Failure(delegate.willSendRequest(request).error)
    ensures delegate.willSendRequest(request).Success? ==>
      var started := transfer(delegate.willSendRequest(request).value);
      && (started.Failure? ==> r == Failure(DataLoaderError(task, started.error)))
      && (started.Success? && Validate(delegate, started.value).Failure? ==>
            r == Failure(DataLoaderError(task, Validate(delegate, started.value).error)))
      && (started.Success? && Validate(delegate, started.value).Success? ==> r == started)
  {
    match delegate.willSendRequest(request)
    case Failure(e) => Failure(e)
    case Success(sent) =>
      match transfer(sent)
      case Failure(e) => Failure(DataLoaderError(task, e))
      case Success(response) =>
        match Validate(delegate, response)
        case Failure(e) => Failure(DataLoaderError(task, e))
        case Success(_) => Success(response)
  }

  /**
   * A request-rewrite hook that never throws the library's internal wrapper:
   * `DataLoaderError` is not visible outside the library, so no delegate can.
   */
  ghost predicate KeepsWrapperInternal(rewrite: (nat, URLRequest) -> Result<URLRequest, Error>) {
    forall n, request :: rewrite(n, request).Failure? ==> !rewrite(n, request).error.DataLoaderError?
  }

  /** The delegate as it stands at attempt `n`: its rewrite hook answers as `rewrite(n, _)`. */
  function AtAttempt(delegate: ClientDelegate, rewrite: (nat, URLRequest) -> Result<URLRequest, Error>, n: nat): (d: ClientDelegate)
    ensures forall request :: d.willSendRequest(request) == rewrite(n, request)
    ensures d.validateResponse == delegate.validateResponse && d.shouldRetry == delegate.shouldRetry
  {
    delegate.(willSendRequest := (request: URLRequest) => rewrite(n, request))
  }

  /**
   * `data(for:)` and `_upload`: the request is built once; a failure to build it is
   * thrown without any send; otherwise attempt n runs with the fresh task
   * `tasks(n)` under the delegate's retry policy. The delegate is an object whose
   * `willSendRequest` is called anew on every attempt, so `rewrite(n, _)` is how
   * it answers at attempt n; a stateless delegate has `rewrite(n, r) ==
   * delegate.willSendRequest(r)` for every n.
   */
  function DataFor(
    delegate: ClientDelegate,
    rewrite: (nat, URLRequest) -> Result<URLRequest, Error>,
    urlRequest: Result<URLRequest, Error>,
    tasks: nat -> Handle,
    transfer: (nat, URLRequest) -> Result<Response<Data>, Error>,
    fuel: nat): (r: Retried<Response<Data>>)
    ensures urlRequest.Failure? ==> r == Retried(Some(Failure(urlRequest.error)), 0, [])
    ensures r.sends <= fuel
  {
    match urlRequest
    case Failure(e) => Retried(Some(Failure(e)), 0, [])
    case Success(request) =>
      Retry((n: nat) => Attempt(AtAttempt(delegate, rewrite, n), request, tasks(n), (sent: URLRequest) => transfer(n, sent)),
        delegate.shouldRetry, 1, fuel)
  }

  /**
   * Every time the policy is asked, it is asked about attempt number i + 1 and the
   * task created for exactly that attempt.
   */
  lemma DataForAsksAboutEachAttemptsTask(
    delegate: ClientDelegate,
    rewrite: (nat, URLRequest) -> Result<URLRequest, Error>,
    urlRequest: Result<URLRequest, Error>,
    tasks: nat -> Handle,
    transfer: (nat, URLRequest) -> Result<Response<Data>, Error>,
    fuel: nat)
    requires KeepsWrapperInternal(rewrite)
    ensures var r := DataFor(delegate, rewrite, urlRequest, tasks, transfer, fuel);
      forall i :: 0 <= i < |r.asked| ==> r.asked[i].attempts == i + 1 && r.asked[i].task == tasks(i + 1)
  {
    if urlRequest.Success? {
      var send := (n: nat) => Attempt(AtAttempt(delegate, rewrite, n), urlRequest.value, tasks(n), (sent: URLRequest) => transfer(n, sent));
      var r := Retry(send, delegate.shouldRetry, 1, fuel);
      forall i | 0 <= i < |r.asked|
        ensures r.asked[i].attempts == i + 1 && r.asked[i].task == tasks(i + 1)
      {
        RetryAskedInOrder(send, delegate.shouldRetry, 1, fuel, i);
      }
    }
  }

  /**
   * A rewrite hook may answer differently on a retry: when attempt 1 is rewritten,
   * fails in transfer and the policy asks for another try, and the hook then throws
   * on attempt 2, `data(for:)` throws that error after exactly two sends.
   */
  lemma RewriteMayFailOnRetry(
    delegate: ClientDelegate,
    rewrite: (nat, URLRequest) -> Result<URLRequest, Error>,
    request: URLRequest,
    tasks: nat -> Handle,
    transfer: (nat, URLRequest) -> Result<Response<Data>, Error>,
    fuel: nat)
    requires fuel >= 2
    requires rewrite(1, request).Success? && transfer(1, rewrite(1, request).value).Failure?
    requires delegate.shouldRetry(tasks(1), transfer(1, rewrite(1, request).value).error, 1) == Success(true)
    requires rewrite(2, request).Failure? && !rewrite(2, request).error.DataLoaderError?
    ensures var r := DataFor(delegate, rewrite, Success(request), tasks, transfer, fuel);
      r.sends == 2 && r.outcome == Some(Failure(rewrite(2, request).error))
  {
    var send := (n: nat) => Attempt(AtAttempt(delegate, rewrite, n), request, tasks(n), (sent: URLRequest) => transfer(n, sent));
    var first, second := AtAttempt(delegate, rewrite, 1), AtAttempt(delegate, rewrite, 2);
    assert first.willSendRequest(request) == rewrite(1, request);
    assert send(1) == Attempt(first, request, tasks(1), (sent: URLRequest) => transfer(1, sent));
    assert send(1) == Failure(DataLoaderError(tasks(1), transfer(1, rewrite(1, request).value).error));
    assert second.willSendRequest(request) == rewrite(2, request);
    assert send(2) == Attempt(second, request, tasks(2), (sent: URLRequest) => transfer(2, sent));
    assert send(2) == Failure(rewrite(2, request).error);
    RetryOnceThenThrow(send, delegate.shouldRetry, fuel);
  }

  /**
   * A retryable failure on attempt 1 that the policy retries, followed by a
   * non-retryable failure on attempt 2, ends the loop with that second failure.
   */
  lemma RetryOnceThenThrow<T>(send: nat -> Result<T, Error>, shouldRetry: (Handle, Error, nat) -> Result<bool, Error>, fuel: nat)
    requires fuel >= 2
    requires send(1).Failure? && send(1).error.DataLoaderError?
    requires shouldRetry(send(1).error.task, send(1).error.error, 1) == Success(true)
    requires send(2).Failure? && !send(2).error.DataLoaderError?
    ensures var r := Retry(send, shouldRetry, 1, fuel);
      r.sends == 2 && r.outcome == Some(send(2))
  {
    assert Retry(send, shouldRetry, 2, fuel - 1) == Retried(Some(send(2)), 1, []);
  }

  /** `_startDownloadTask`, also the whole of `download(resumeFrom:)`: start once, then validate; nothing is wrapped. */
  function StartDownload(delegate: ClientDelegate, started: Result<Response<Url>, Error>): (r: Result<Response<Url>, Error>)
    ensures started.Failure? ==> r == started
    ensures started.Success? && Validate(delegate, started.value).Failure? ==>
      r == Failure(Validate(delegate, started.value).error)
    ensures started.Success? && Validate(delegate, started.value).Success? ==> r == started
  {
    match started
    case Failure(e) => Failure(e)
    case Success(response) =>
      match Validate(delegate, response)
      case Failure(e) => Failure(e)
      case Success(_) => Success(response)
  }

  /**
   * `download(for:)`: build the request, let the delegate rewrite it, start one
   * download task. No retry policy is involved and no error is wrapped.
   */
  function Download(delegate: ClientDelegate, urlRequest: Result<URLRequest, Error>, transfer: URLRequest -> Result<Response<Url>, Error>): (r: Result<Response<Url>, Error>)
    ensures urlRequest.Failure? ==> r == Failure(urlRequest.error)
    ensures urlRequest.Success? && delegate.willSendRequest(urlRequest.value).Failure? ==>
      r == Failure(delegate.willSendRequest(urlRequest.value).error)
    ensures urlRequest.Success? && delegate.willSendRequest(urlRequest.value).Success? ==>
      r == StartDownload(delegate, transfer(delegate.willSendRequest(urlRequest.value).value))
  {
    match urlRequest
    case Failure(e) => Failure(e)
    case Success(request) =>
      match delegate.willSendRequest(request)
      case Failure(e) => Failure(e)
      case Success(sent) => StartDownload(delegate, transfer(sent))
  }

  /** A download's result does not depend on the retry policy at all. */
  lemma DownloadIgnoresRetryPolicy(
    delegate: ClientDelegate,
    policy: (Handle, Error, nat) -> Result<bool, Error>,
    urlRequest: Result<URLRequest, Error>,
    transfer: URLRequest -> Result<Response<Url>, Error>)
    ensures Download(delegate.(shouldRetry := policy), urlRequest, transfer) == Download(delegate, urlRequest, transfer)
  {
  }

  /**
   * A data attempt that completes with a non-2xx status under the default
   * delegate fails with the status wrapped with its task, so the retry policy
   * sees a validation failure like a transport failure.
   */
  lemma RejectedStatusIsRetryable(request: URLRequest, task: Handle, transfer: URLRequest -> Result<Response<Data>, Error>)
    requires transfer(request).Success?
    requires transfer(request).value.response.HTTPURLResponse?
    requires !(200 <= transfer(request).value.response.statusCode < 300)
    ensures Attempt(DefaultDelegate(), request, task, transfer)
      == Failure(DataLoaderError(task, UnacceptableStatusCode(transfer(request).value.response.statusCode)))
  {
  }
}
