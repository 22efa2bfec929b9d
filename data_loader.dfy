/**
 * KYDataLoader: the session delegate that keeps one handler per running task,
 * routes the session's callbacks through the per-call delegate, then the
 * session-wide delegate, then a default, and turns each task's completion into
 * exactly one resumption of the caller that started it.
 *
 * The default serial delegate queue is modelled by running each callback as
 * one method call on the loader; starting a task registers its handler before
 * any callback for it can arrive, which the callbacks take as a precondition
 * where the source asserts it.
 */
module KYDataLoader {
  import opened Wrappers
  import opened Foundation
  import opened KYResponse

  // ---------------------------------------------------------------------------
  // Delegates
  // ---------------------------------------------------------------------------

  /**
   * Informational callbacks a delegate may implement. `DownloadCallback` stands
   * for conformance to the download-delegate protocol, whose
   * `didFinishDownloadingTo` is a required method.
   */
  datatype Callback = CompleteCallback | MetricsCallback | DataCallback | DownloadCallback

  datatype ChallengeDisposition = PerformDefaultHandling | UseCredential | CancelAuthenticationChallenge | RejectProtectionSpace
  datatype ChallengeAnswer = ChallengeAnswer(disposition: ChallengeDisposition, credential: Option<Credential>)
  datatype DelayedDisposition = ContinueLoading | UseNewRequest | CancelRequest
  datatype DelayedAnswer = DelayedAnswer(disposition: DelayedDisposition, request: Option<URLRequest>)
  datatype ResponseDisposition = Cancel | Allow | BecomeDownload | BecomeStream

  /**
   * A URLSession delegate object, per call or session-wide: the informational
   * callbacks it implements and, for each callback that asks for a decision,
   * the decision it gives when it implements that callback.
   */
  datatype Observer = Observer(
    observes: set<Callback>,
    redirect: Option<(HTTPResponse, URLRequest) -> Option<URLRequest>>,
    challenge: Option<Challenge -> ChallengeAnswer>,
    delayedRequest: Option<URLRequest -> DelayedAnswer>,
    responseDecision: Option<URLResponse -> ResponseDisposition>,
    cacheDecision: Option<CachedResponse -> Option<CachedResponse>>)

  /** Whether an optional delegate is there and implements `c`. */
  predicate Implements(o: Option<Observer>, c: Callback) {
    o.Some? && c in o.value.observes
  }

  /** The notice an optional delegate receives for an informational callback: one if it implements it, none otherwise. */
  function Forward(o: Option<Observer>, c: Callback, to: Recipient, task: Handle, event: Event): (ns: seq<Notice>)
    ensures |ns| <= 1
    ensures ns != [] <==> Implements(o, c)
    ensures ns != [] ==> ns[0] == Notice(to, task, event)
  {
    if Implements(o, c) then [Notice(to, task, event)] else []
  }

  /**
   * The `a ?? b ?? c` chain of every decision callback: the per-call delegate's
   * answer when it gives one, otherwise the session-wide delegate's, otherwise
   * the default.
   */
  function Resolve<D>(perCall: Option<D>, sessionWide: Option<D>, default: D): (d: D)
    ensures perCall.Some? ==> d == perCall.value
    ensures perCall.None? && sessionWide.Some? ==> d == sessionWide.value
    ensures perCall.None? && sessionWide.None? ==> d == default
  {
    perCall.GetOr(sessionWide.GetOr(default))
  }

  /** A delegate's answer to a redirect, if it implements that callback. */
  function AskRedirect(o: Option<Observer>, response: HTTPResponse, proposed: URLRequest): Option<Option<URLRequest>> {
    if o.Some? && o.value.redirect.Some? then Some(o.value.redirect.value(response, proposed)) else None
  }

  /** A delegate's answer to an authentication challenge, if it implements that callback. */
  function AskChallenge(o: Option<Observer>, challenge: Challenge): Option<ChallengeAnswer> {
    if o.Some? && o.value.challenge.Some? then Some(o.value.challenge.value(challenge)) else None
  }

  /** A delegate's answer to a delayed request, if it implements that callback. */
  function AskDelayed(o: Option<Observer>, request: URLRequest): Option<DelayedAnswer> {
    if o.Some? && o.value.delayedRequest.Some? then Some(o.value.delayedRequest.value(request)) else None
  }

  /** A delegate's answer to a received response, if it implements that callback. */
  function AskResponse(o: Option<Observer>, response: URLResponse): Option<ResponseDisposition> {
    if o.Some? && o.value.responseDecision.Some? then Some(o.value.responseDecision.value(response)) else None
  }

  /** A delegate's answer to a proposed cache entry, if it implements that callback. */
  function AskCache(o: Option<Observer>, proposed: CachedResponse): Option<Option<CachedResponse>> {
    if o.Some? && o.value.cacheDecision.Some? then Some(o.value.cacheDecision.value(proposed)) else None
  }

  // ---------------------------------------------------------------------------
  // Handlers, completions and notices
  // ---------------------------------------------------------------------------

  /**
   * A task's handler: a data (or upload) handler that buffers the bytes
   * received, or a download handler that remembers where the file was moved.
   * Both hold the per-call delegate and the metrics collected so far.
   */
  datatype Handler =
    | DataHandler(delegate: Option<Observer>, metrics: Option<Metrics>, data: Option<Data>)
    | DownloadHandler(delegate: Option<Observer>, metrics: Option<Metrics>, location: Option<Url>)

  /** What a task's continuation is resumed with. */
  datatype Completion =
    | DataCompletion(result: Result<Response<Data>, Error>)
    | DownloadCompletion(download: Result<Response<Url>, Error>)

  /** One resumption of the continuation of `task`. */
  datatype Resumption = Resumption(task: Handle, completion: Completion)

  datatype Recipient = PerCall | SessionWide

  datatype Event =
    | Completed(error: Option<Error>)
    | CollectedMetrics(metrics: Metrics)
    | ReceivedData(chunk: Data)
    | FinishedDownloadingTo(location: Url)

  /** One informational callback forwarded to a delegate. */
  datatype Notice = Notice(recipient: Recipient, task: Handle, event: Event)

  /** The buffer after one chunk: an absent buffer starts empty, then the chunk is appended. */
  function Appended(buffer: Option<Data>, chunk: Data): (b: Option<Data>)
    ensures b.Some?
    ensures |b.value| == |buffer.GetOr([])| + |chunk|
    ensures b.value[..|buffer.GetOr([])|] == buffer.GetOr([])
    ensures b.value[|buffer.GetOr([])|..] == chunk
  {
    Some(buffer.GetOr([]) + chunk)
  }

  /** The buffer after a run of chunks, one `Appended` step each. */
  function AppendedAll(buffer: Option<Data>, chunks: seq<Data>): Option<Data>
    decreases |chunks|
  {
    if chunks == [] then buffer else AppendedAll(Appended(buffer, chunks[0]), chunks[1..])
  }

  /** The in-order concatenation of chunks. */
  function Concat(chunks: seq<Data>): Data
    decreases |chunks|
  {
    if chunks == [] then [] else chunks[0] + Concat(chunks[1..])
  }

  /** Accumulating chunks one by one yields the old bytes followed by their concatenation. */
  lemma {:induction false} AppendedAllIsConcat(buffer: Option<Data>, chunks: seq<Data>)
    ensures AppendedAll(buffer, chunks).GetOr([]) == buffer.GetOr([]) + Concat(chunks)
    decreases |chunks|
  {
    if chunks == [] {
      assert buffer.GetOr([]) + [] == buffer.GetOr([]);
    } else {
      AppendedAllIsConcat(Appended(buffer, chunks[0]), chunks[1..]);
      assert buffer.GetOr([]) + chunks[0] + Concat(chunks[1..]) == buffer.GetOr([]) + (chunks[0] + Concat(chunks[1..]));
    }
  }

  /** Appending one more chunk to an accumulated run is accumulating the longer run. */
  lemma {:induction false} AppendedAllSnoc(buffer: Option<Data>, chunks: seq<Data>, chunk: Data)
    ensures AppendedAll(buffer, chunks + [chunk]) == Appended(AppendedAll(buffer, chunks), chunk)
    decreases |chunks|
  {
    if chunks == [] {
      assert chunks + [chunk] == [chunk];
    } else {
      assert (chunks + [chunk])[1..] == chunks[1..] + [chunk];
      AppendedAllSnoc(Appended(buffer, chunks[0]), chunks[1..], chunk);
    }
  }

  /**
   * The finalizer: what the continuation of a completed task is resumed with,
   * given its handler, the task's response and the error the session reported.
   */
  function Finalize(h: Handler, task: Handle, taskResponse: Option<URLResponse>, error: Option<Error>): (c: Completion)
    ensures h.DataHandler? <==> c.DataCompletion?
    ensures h.DataHandler? ==>
      (c.result.Success? <==> taskResponse.Some? && error.None?)
    ensures h.DataHandler? && c.result.Success? ==>
      c.result.value.value == c.result.value.data == h.data.GetOr([])
      && c.result.value.response == taskResponse.value
      && c.result.value.task == task && c.result.value.metrics == h.metrics
    ensures h.DataHandler? && c.result.Failure? ==> c.result.error == error.GetOr(URLError(Unknown))
    ensures h.DownloadHandler? ==>
      (c.download.Success? <==> h.location.Some? && taskResponse.Some? && error.None?)
    ensures h.DownloadHandler? && c.download.Success? ==>
      c.download.value.value == h.location.value && c.download.value.data == []
      && c.download.value.response == taskResponse.value
      && c.download.value.task == task && c.download.value.metrics == h.metrics
    ensures h.DownloadHandler? && c.download.Failure? ==> c.download.error == error.GetOr(URLError(Unknown))
  {
    match h
    case DataHandler(_, metrics, data) =>
      if taskResponse.Some? && error.None? then
        var bytes := data.GetOr([]);
        DataCompletion(Success(Make(bytes, bytes, taskResponse.value, task, metrics)))
      else
        DataCompletion(Failure(error.GetOr(URLError(Unknown))))
    case DownloadHandler(_, metrics, location) =>
      if location.Some? && taskResponse.Some? && error.None? then
        DownloadCompletion(Success(Make(location.value, [], taskResponse.value, task, metrics)))
      else
        DownloadCompletion(Failure(error.GetOr(URLError(Unknown))))
  }

  /**
   * A data task whose chunks arrived in order completes, when it succeeds, with
   * their concatenation as both value and data (empty if no chunk arrived).
   */
  lemma CompletedDataIsConcat(d: Option<Observer>, m: Option<Metrics>, chunks: seq<Data>, task: Handle, response: URLResponse)
    ensures var c := Finalize(DataHandler(d, m, AppendedAll(None, chunks)), task, Some(response), None);
      c.DataCompletion? && c.result.Success?
      && c.result.value.value == Concat(chunks) && c.result.value.data == Concat(chunks)
  {
    AppendedAllIsConcat(None, chunks);
  }

  // ---------------------------------------------------------------------------
  // Download relocation
  // ---------------------------------------------------------------------------

  const DownloadsFolder: string := "com.github.keyon.get"
  const DownloadsName: string := "Downloads"

  /** "com.github.keyon.get/Downloads/". */
  const DownloadsSubpath: string := DownloadsFolder + "/" + DownloadsName + "/"

  /** `downloadDirectoryURL`: the library's folder under the temporary directory. */
  function DownloadDirectory(temporaryDirectory: Url): (d: Url)
    ensures d.scheme == temporaryDirectory.scheme && d.query == temporaryDirectory.query
    ensures |d.path| >= |temporaryDirectory.path|
    ensures d.path[..|temporaryDirectory.path|] == temporaryDirectory.path
    ensures d.trailingSlash
  {
    assert DownloadsSubpath[|DownloadsSubpath| - 1] == '/';
    AppendingPathComponent(temporaryDirectory, DownloadsSubpath)
  }

  lemma DownloadDirectoryPath(temporaryDirectory: Url)
    ensures DownloadDirectory(temporaryDirectory).path == temporaryDirectory.path + [DownloadsFolder, DownloadsName]
    ensures DownloadDirectory(temporaryDirectory).trailingSlash
  {
    assert '/' !in DownloadsFolder && '/' !in DownloadsName;
    assert DownloadsSubpath == DownloadsFolder + "/" + (DownloadsName + "/");
    ComponentsAfterSegment(DownloadsFolder, DownloadsName + "/");
    assert DownloadsName + "/" == DownloadsName + "/" + "";
    ComponentsAfterSegment(DownloadsName, "");
  }

  /**
   * Where a finished download is moved: the downloads directory's URL with the
   * transient file's name appended as a path extension.
   */
  function Relocated(downloads: Url, transient: Url): (r: Url)
    ensures r.scheme == downloads.scheme && r.query == downloads.query
    ensures |r.path| == |downloads.path|
    ensures downloads.path != [] ==>
      && r.path[..|downloads.path| - 1] == downloads.path[..|downloads.path| - 1]
      && LastPathComponent(r) == LastPathComponent(downloads) + "." + LastPathComponent(transient)
  {
    AppendingPathExtension(downloads, LastPathComponent(transient))
  }

  /**
   * The relocated file is `Downloads.<transient name>` next to the `Downloads`
   * folder, not a file inside it.
   */
  lemma RelocatedIsSibling(temporaryDirectory: Url, transient: Url)
    ensures var r := Relocated(DownloadDirectory(temporaryDirectory), transient);
      r.path == temporaryDirectory.path + [DownloadsFolder, DownloadsName + "." + LastPathComponent(transient)]
      && |r.path| == |DownloadDirectory(temporaryDirectory).path|
  {
    DownloadDirectoryPath(temporaryDirectory);
    var d := DownloadDirectory(temporaryDirectory);
    var r := Relocated(d, transient);
    assert d.path[..|d.path| - 1] == temporaryDirectory.path + [DownloadsFolder];
    assert r.path == r.path[..|r.path| - 1] + [LastPathComponent(r)];
  }

  // ---------------------------------------------------------------------------
  // The loader
  // ---------------------------------------------------------------------------

  class DataLoader {
    /** `handlers`: the handler of every task started and not yet completed. */
    var handlers: map<Handle, Handler>
    /** `userSessionDelegate`: the session-wide delegate. */
    var sessionDelegate: Option<Observer>
    /** `downloadDirectoryURL`. */
    const downloadsURL: Url
    /** Every resumption of a task's continuation, in order. */
    var resumed: seq<Resumption>
    /** Every informational callback forwarded to a delegate, in order. */
    var notices: seq<Notice>

    /** A continuation is resumed at most once, and never while its task still has a handler. */
    ghost predicate Valid()
      reads this
    {
      && (forall i, j :: 0 <= i < j < |resumed| ==> resumed[i].task != resumed[j].task)
      && (forall i :: 0 <= i < |resumed| ==> resumed[i].task !in handlers)
    }

    /** A task that has neither a handler nor a resumption: one the session just created. */
    ghost predicate Unused(task: Handle)
      reads this
    {
      task !in handlers && forall i :: 0 <= i < |resumed| ==> resumed[i].task != task
    }

    constructor (temporaryDirectory: Url, sessionDelegate: Option<Observer>)
      ensures Valid()
      ensures handlers == map[] && resumed == [] && notices == []
      ensures downloadsURL == DownloadDirectory(temporaryDirectory)
      ensures this.sessionDelegate == sessionDelegate
    {
      handlers := map[];
      this.sessionDelegate := sessionDelegate;
      downloadsURL := DownloadDirectory(temporaryDirectory);
      resumed := [];
      notices := [];
    }

    /** The per-call delegate of a task, if it has a handler. */
    function PerCallDelegate(task: Handle): Option<Observer>
      reads this
    {
      if task in handlers then handlers[task].delegate else None
    }

    /** The per-call delegate of a task, if it has a data handler (`as? KYDataTaskHandler`). */
    function PerCallDataDelegate(task: Handle): Option<Observer>
      reads this
    {
      if task in handlers && handlers[task].DataHandler? then handlers[task].delegate else None
    }

    // --- Registration -------------------------------------------------------

    /** `startDataTask`: registers an empty data handler for the task. */
    method StartDataTask(task: Handle, delegate: Option<Observer>)
      requires Valid() && Unused(task)
      modifies this
      ensures Valid()
      ensures handlers == old(handlers)[task := DataHandler(delegate, None, None)]
      ensures resumed == old(resumed) && notices == old(notices) && sessionDelegate == old(sessionDelegate)
    {
      handlers := handlers[task := DataHandler(delegate, None, None)];
    }

    /** `startUploadTask`: an upload is registered like a data task. */
    method StartUploadTask(task: Handle, delegate: Option<Observer>)
      requires Valid() && Unused(task)
      modifies this
      ensures Valid()
      ensures handlers == old(handlers)[task := DataHandler(delegate, None, None)]
      ensures resumed == old(resumed) && notices == old(notices) && sessionDelegate == old(sessionDelegate)
    {
      handlers := handlers[task := DataHandler(delegate, None, None)];
    }

    /** `startDownloadTask`: registers a download handler with no location yet. */
    method StartDownloadTask(task: Handle, delegate: Option<Observer>)
      requires Valid() && Unused(task)
      modifies this
      ensures Valid()
      ensures handlers == old(handlers)[task := DownloadHandler(delegate, None, None)]
      ensures resumed == old(resumed) && notices == old(notices) && sessionDelegate == old(sessionDelegate)
    {
      handlers := handlers[task := DownloadHandler(delegate, None, None)];
    }

    // --- Task events ----------------------------------------------------------

    /**
     * `didCompleteWithError`: removes the task's handler, forwards the event to
     * the per-call then the session-wide delegate, and resumes the task's
     * continuation exactly once with the finalizer's result.
     */
    method DidCompleteWithError(task: Handle, taskResponse: Option<URLResponse>, error: Option<Error>)
      requires Valid() && task in handlers
      modifies this
      ensures Valid()
      ensures handlers == old(handlers) - {task}
      ensures task !in handlers
      ensures forall t :: t in handlers ==> t in old(handlers) && handlers[t] == old(handlers)[t]
      ensures forall i :: 0 <= i < |old(resumed)| ==> old(resumed)[i].task != task
      ensures resumed == old(resumed) + [Resumption(task, Finalize(old(handlers)[task], task, taskResponse, error))]
      ensures notices == old(notices)
        + Forward(old(handlers)[task].delegate, CompleteCallback, PerCall, task, Completed(error))
        + Forward(sessionDelegate, CompleteCallback, SessionWide, task, Completed(error))
      ensures sessionDelegate == old(sessionDelegate)
    {
      var handler := handlers[task];
      handlers := handlers - {task};
      notices := notices + Forward(handler.delegate, CompleteCallback, PerCall, task, Completed(error));
      notices := notices + Forward(sessionDelegate, CompleteCallback, SessionWide, task, Completed(error));
      resumed := resumed + [Resumption(task, Finalize(handler, task, taskResponse, error))];
    }

    /** `didFinishCollecting`: stores the metrics on the task's handler, if any, and forwards them. */
    method DidFinishCollecting(task: Handle, metrics: Metrics)
      requires Valid()
      modifies this
      ensures Valid()
      ensures task in old(handlers) ==> handlers == old(handlers)[task := old(handlers)[task].(metrics := Some(metrics))]
      ensures task !in old(handlers) ==> handlers == old(handlers)
      ensures resumed == old(resumed) && sessionDelegate == old(sessionDelegate)
      ensures notices == old(notices)
        + Forward(old(PerCallDelegate(task)), MetricsCallback, PerCall, task, CollectedMetrics(metrics))
        + Forward(sessionDelegate, MetricsCallback, SessionWide, task, CollectedMetrics(metrics))
    {
      var perCall := PerCallDelegate(task);
      if task in handlers {
        handlers := handlers[task := handlers[task].(metrics := Some(metrics))];
      }
      notices := notices + Forward(perCall, MetricsCallback, PerCall, task, CollectedMetrics(metrics));
      notices := notices + Forward(sessionDelegate, MetricsCallback, SessionWide, task, CollectedMetrics(metrics));
    }

    /**
     * `didReceive data`: for a task with a data handler, forwards the chunk and
     * appends it to the buffer; for any other task, does nothing at all.
     */
    method DidReceiveData(task: Handle, chunk: Data)
      requires Valid()
      modifies this
      ensures Valid()
      ensures task in old(handlers) && old(handlers)[task].DataHandler? ==>
        && handlers == old(handlers)[task := old(handlers)[task].(data := Appended(old(handlers)[task].data, chunk))]
        && notices == old(notices)
          + Forward(old(handlers)[task].delegate, DataCallback, PerCall, task, ReceivedData(chunk))
          + Forward(sessionDelegate, DataCallback, SessionWide, task, ReceivedData(chunk))
      ensures !(task in old(handlers) && old(handlers)[task].DataHandler?) ==>
        handlers == old(handlers) && notices == old(notices)
      ensures resumed == old(resumed) && sessionDelegate == old(sessionDelegate)
    {
      if task in handlers && handlers[task].DataHandler? {
        var handler := handlers[task];
        notices := notices + Forward(handler.delegate, DataCallback, PerCall, task, ReceivedData(chunk));
        notices := notices + Forward(sessionDelegate, DataCallback, SessionWide, task, ReceivedData(chunk));
        handlers := handlers[task := handler.(data := Appended(handler.data, chunk))];
      }
    }

    /**
     * `didFinishDownloadingTo`: computes the relocated URL, records it on the
     * task's download handler, then tells the per-call download delegate and the
     * session-wide download delegate the relocated URL (never the transient one).
     */
    method DidFinishDownloadingTo(task: Handle, location: Url)
      requires Valid()
      modifies this
      ensures Valid()
      ensures var newLocation := Relocated(downloadsURL, location);
        && (task in old(handlers) && old(handlers)[task].DownloadHandler? ==>
             handlers == old(handlers)[task := old(handlers)[task].(location := Some(newLocation))])
        && (!(task in old(handlers) && old(handlers)[task].DownloadHandler?) ==> handlers == old(handlers))
        && notices == old(notices)
          + (if task in old(handlers) && old(handlers)[task].DownloadHandler? && old(handlers)[task].delegate.Some?
             then [Notice(PerCall, task, FinishedDownloadingTo(newLocation))] else [])
          + Forward(sessionDelegate, DownloadCallback, SessionWide, task, FinishedDownloadingTo(newLocation))
      ensures resumed == old(resumed) && sessionDelegate == old(sessionDelegate)
    {
      var newLocation := Relocated(downloadsURL, location);
      if task in handlers && handlers[task].DownloadHandler? {
        var handler := handlers[task].(location := Some(newLocation));
        handlers := handlers[task := handler];
        if handler.delegate.Some? {
          notices := notices + [Notice(PerCall, task, FinishedDownloadingTo(newLocation))];
        }
      }
      notices := notices + Forward(sessionDelegate, DownloadCallback, SessionWide, task, FinishedDownloadingTo(newLocation));
    }

    // --- Decision callbacks ---------------------------------------------------

    /** `willPerformHTTPRedirection`: by default the proposed request is followed. */
    function WillPerformRedirection(task: Handle, response: HTTPResponse, proposed: URLRequest): (r: Option<URLRequest>)
      reads this
      ensures var p, s := AskRedirect(PerCallDelegate(task), response, proposed), AskRedirect(sessionDelegate, response, proposed);
        && (p.Some? ==> r == p.value)
        && (p.None? && s.Some? ==> r == s.value)
        && (p.None? && s.None? ==> r == Some(proposed))
    {
      Resolve(AskRedirect(PerCallDelegate(task), response, proposed), AskRedirect(sessionDelegate, response, proposed), Some(proposed))
    }

    /** `didReceive challenge`: by default `.performDefaultHandling` with no credential. */
    function DidReceiveChallenge(task: Handle, challenge: Challenge): (r: ChallengeAnswer)
      reads this
      ensures var p, s := AskChallenge(PerCallDelegate(task), challenge), AskChallenge(sessionDelegate, challenge);
        && (p.Some? ==> r == p.value)
        && (p.None? && s.Some? ==> r == s.value)
        && (p.None? && s.None? ==> r == ChallengeAnswer(PerformDefaultHandling, None))
    {
      Resolve(AskChallenge(PerCallDelegate(task), challenge), AskChallenge(sessionDelegate, challenge),
        ChallengeAnswer(PerformDefaultHandling, None))
    }

    /** `willBeginDelayedRequest`: by default `.continueLoading` with no new request. */
    function WillBeginDelayedRequest(task: Handle, request: URLRequest): (r: DelayedAnswer)
      reads this
      ensures var p, s := AskDelayed(PerCallDelegate(task), request), AskDelayed(sessionDelegate, request);
        && (p.Some? ==> r == p.value)
        && (p.None? && s.Some? ==> r == s.value)
        && (p.None? && s.None? ==> r == DelayedAnswer(ContinueLoading, None))
    {
      Resolve(AskDelayed(PerCallDelegate(task), request), AskDelayed(sessionDelegate, request),
        DelayedAnswer(ContinueLoading, None))
    }

    /**
     * `didReceive response`: only a data handler's delegate is asked per call; by
     * default the response is allowed.
     */
    function DidReceiveResponse(task: Handle, response: URLResponse): (r: ResponseDisposition)
      reads this
      ensures var p, s := AskResponse(PerCallDataDelegate(task), response), AskResponse(sessionDelegate, response);
        && (p.Some? ==> r == p.value)
        && (p.None? && s.Some? ==> r == s.value)
        && (p.None? && s.None? ==> r == Allow)
    {
      Resolve(AskResponse(PerCallDataDelegate(task), response), AskResponse(sessionDelegate, response), Allow)
    }

    /**
     * `willCacheResponse`: only a data handler's delegate is asked per call; by
     * default the proposed response is cached.
     */
    function WillCacheResponse(task: Handle, proposed: CachedResponse): (r: Option<CachedResponse>)
      reads this
      ensures var p, s := AskCache(PerCallDataDelegate(task), proposed), AskCache(sessionDelegate, proposed);
        && (p.Some? ==> r == p.value)
        && (p.None? && s.Some? ==> r == s.value)
        && (p.None? && s.None? ==> r == Some(proposed))
    {
      Resolve(AskCache(PerCallDataDelegate(task), proposed), AskCache(sessionDelegate, proposed), Some(proposed))
    }
  }

  /**
   * Two data tasks run side by side: chunks c1, c2, c3 of the first are
   * interleaved with a chunk of the second. The first task's continuation is
   * resumed once, with c1 + c2 + c3, and its handler is gone; the second task is
   * still waiting with its own chunk buffered.
   */
  method InterleavedChunks(tmp: Url, t1: Handle, t2: Handle, c1: Data, c2: Data, c3: Data, other: Data, response: URLResponse)
    returns (value: Data, resumptions: nat, stillRegistered: bool, otherBuffer: Option<Data>)
    requires t1 != t2
    ensures value == c1 + c2 + c3
    ensures resumptions == 1
    ensures !stillRegistered
    ensures otherBuffer == Some(other)
  {
    var loader := new DataLoader(tmp, None);
    loader.StartDataTask(t1, None);
    loader.StartDataTask(t2, None);
    loader.DidReceiveData(t1, c1);
    loader.DidReceiveData(t2, other);
    loader.DidReceiveData(t1, c2);
    loader.DidReceiveData(t1, c3);
    loader.DidCompleteWithError(t1, Some(response), None);
    assert loader.resumed == [Resumption(t1, loader.resumed[0].completion)];
    var c := loader.resumed[0].completion;
    assert c.DataCompletion? && c.result.Success?;
    value := c.result.value.value;
    resumptions := |loader.resumed|;
    stillRegistered := t1 in loader.handlers;
    otherBuffer := loader.handlers[t2].data;
    assert [] + other == other;
  }
}
