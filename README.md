# KYNetworkModule core, modelled in Dafny

KYNetworkModule is a small async/await HTTP client written over `URLSession`.
This project models the sequential logic underneath its concurrency plumbing:

- **KYDataLoader** (`data_loader.dfy`, imperative). The session delegate keeps a registry from
  each running task to its handler. A handler is either a data/upload handler with a byte
  buffer or a download handler with a location. Both kinds hold the per-call delegate and
  the collected metrics. The model is a class `DataLoader`:
  - `handlers` is a `map<Handle, Handler>` that the callback methods update in place.
  - `resumed` logs every resumption of a caller's continuation.
  - `notices` logs every informational callback forwarded to a delegate.
  - Decision callbacks (redirect, challenge, delayed request, response, cache) follow one
    rule: the per-call delegate's answer, else the session-wide delegate's answer, else a
    fixed default.
- **KYAPIClient** (`api_client.dfy`, mixed):
  - URL resolution (`makeURL`).
  - Request building with default header fields (`makeURLRequest`, written as a method that
    builds a local request by successive assignments).
  - The retry loop (`performWithRetries`). It is a fuel-bounded recursive specification plus a
    counter loop proved equal to it.
  - The attempt that wraps start and validation errors with its task (`data(for:)`,
    `_upload`).
  - The download paths, which run once.
  - `validate`.
- **KYAPIClientDelegate** (`client_delegate.dfy`, pure): the three default hooks and
  `KYDefaultAPIClientDelegate`.
- **KYRequest** (`request.dfy`) and **KYResponse** (`response.dfy`), pure: the method token
  table, the request initializer and `withResponse`, and the response initializer, `map`,
  `location` and `statusCode`.
- `foundation.dfy` gives stand-ins for the platform types the library is written against:
  - a URL as a record with a scheme, path components, a trailing-slash flag and query items;
  - `appendingPathComponent`, `appendingPathExtension` and `lastPathComponent` on that record;
  - `URLRequest` and `URLResponse`;
  - an `Error` type closed over the errors the core tells apart.

  Tasks (`Handle`), metrics, request bodies, challenges, credentials and cached responses
  are opaque types. `wrappers.dfy` holds `Option` and `Result`.

The core's effects become parameters:
- URL parsing is `parse`.
- Body encoding is `encode`.
- The outcome a started task delivers is `transfer`.
- The sequence of attempt outcomes seen by the retry loop is `send`.
- The client's delegate is a record of three functions, each returning a `Result` because
  each hook may throw.
- The delegate is an object called anew on every attempt, so its `willSendRequest` may answer differently on a retry. For `data(for:)` and `_upload`, attempt n uses `rewrite(n, _)` as that hook.

## Model

| member | source | states |
|---|---|---|
| KYDataLoader.DataLoader.constructor | KYNetworkModule/Core/KYDataLoader.swift:11-29 | The registry and both logs start empty. The downloads directory is the temporary directory followed by `com.github.keyon.get/Downloads/`. |
| KYDataLoader.DataLoader.StartDataTask | KYNetworkModule/Core/KYDataLoader.swift:35-37 | A fresh task gets a data handler with the given delegate, no metrics and no buffer. Nothing else changes. The invariant holds: no resumed task has a handler, and no task is resumed twice. |
| KYDataLoader.DataLoader.StartUploadTask | KYNetworkModule/Core/KYDataLoader.swift:61-63 | An upload is registered with a data handler, like a data task. Nothing else changes. |
| KYDataLoader.DataLoader.StartDownloadTask | KYNetworkModule/Core/KYDataLoader.swift:48-50 | A fresh task gets a download handler with no location. Nothing else changes. |
| KYDataLoader.DataLoader.DidCompleteWithError | KYNetworkModule/Core/KYDataLoader.swift:79-104 | Requires the task to be registered, since an unregistered task is an assertion failure. Exactly that key is removed and every other entry is unchanged. The task had never been resumed before, and its continuation is resumed exactly once with the finalizer's result. The per-call delegate is notified first, then the session-wide delegate. |
| KYDataLoader.Finalize | KYNetworkModule/Core/KYDataLoader.swift:85-100 | A data completion succeeds iff a response exists and there is no error. Then value and data both equal the buffer, or the empty string if no chunk arrived. A download completion succeeds iff there is a location, a response and no error. Then the value is the location and the data is empty. Every failure carries the reported error, or `URLError(.unknown)` when there is none. |
| KYDataLoader.CompletedDataIsConcat | KYNetworkModule/Core/KYDataLoader.swift:86-90 | A data task whose chunks were appended in order completes with their concatenation as both value and data. |
| KYDataLoader.DataLoader.DidReceiveData | KYNetworkModule/Core/KYDataLoader.swift:154-162 | For a data handler the chunk is forwarded, then appended to the buffer. An absent buffer starts empty. For an unregistered task or a download handler nothing changes, including the notices. |
| KYDataLoader.Appended | KYNetworkModule/Core/KYDataLoader.swift:158-161 | One chunk event on a buffer: an absent buffer starts empty, then the chunk is appended. The property the source relies on, that the buffer is the in-order concatenation of all chunks, is `AppendedAllIsConcat`. |
| KYDataLoader.AppendedAllIsConcat | KYNetworkModule/Core/KYDataLoader.swift:158-161 | Appending chunks one by one yields the earlier bytes followed by the in-order concatenation of the chunks. |
| KYDataLoader.AppendedAllSnoc | KYNetworkModule/Core/KYDataLoader.swift:158-161 | One more chunk event on an accumulated run gives the same buffer as accumulating the longer run. |
| KYDataLoader.DataLoader.DidFinishCollecting | KYNetworkModule/Core/KYDataLoader.swift:106-111 | The metrics are stored on the task's handler when it has one. Otherwise the registry is unchanged. The event is forwarded to both delegates in that order. |
| KYDataLoader.DataLoader.DidFinishDownloadingTo | KYNetworkModule/Core/KYDataLoader.swift:179-188 | A download handler records the relocated URL. The per-call download delegate (when the task has a download handler with a delegate) and the session-wide download delegate are told that same relocated URL, never the transient one. A task without a download handler leaves the registry unchanged, and the session-wide delegate is still told. |
| KYDataLoader.DownloadDirectory | KYNetworkModule/Core/KYDataLoader.swift:26 | The downloads directory lies under the temporary directory, with its scheme and query, marked as a directory. Its exact path is `DownloadDirectoryPath`. |
| KYDataLoader.DownloadDirectoryPath | KYNetworkModule/Core/KYDataLoader.swift:26 | The downloads directory's path is the temporary directory's path followed by `com.github.keyon.get` and `Downloads`, marked as a directory. |
| KYDataLoader.Relocated | KYNetworkModule/Core/KYDataLoader.swift:183 | The new location has as many path components as the downloads directory. Only its last component changes, gaining `.` and the transient file's name. Where that puts the file is `RelocatedIsSibling`. |
| KYDataLoader.RelocatedIsSibling | KYNetworkModule/Core/KYDataLoader.swift:183 | The relocated file is `Downloads.<transient name>` beside the `Downloads` folder, because the name is appended as a path extension and not as a path component. |
| KYDataLoader.Forward | KYNetworkModule/Core/KYDataLoader.swift:82-83 | A delegate receives a forwarded callback iff it is present and implements that callback. It then receives exactly one notice. |
| KYDataLoader.Resolve | KYNetworkModule/Core/KYDataLoader.swift:114-116 | The `??` chain takes the per-call answer when there is one, otherwise the session-wide answer, otherwise the default. |
| KYDataLoader.DataLoader.WillPerformRedirection | KYNetworkModule/Core/KYDataLoader.swift:113-117 | The per-call delegate decides first, then the session-wide delegate. With neither, the proposed request is followed. |
| KYDataLoader.DataLoader.DidReceiveChallenge | KYNetworkModule/Core/KYDataLoader.swift:135-139 | The same order applies. The default is `.performDefaultHandling` with no credential. |
| KYDataLoader.DataLoader.WillBeginDelayedRequest | KYNetworkModule/Core/KYDataLoader.swift:141-145 | The same order applies. The default is `.continueLoading` with no new request. |
| KYDataLoader.DataLoader.DidReceiveResponse | KYNetworkModule/Core/KYDataLoader.swift:148-152 | Only a data handler's delegate is asked per call, then the session-wide delegate. The default is `.allow`. |
| KYDataLoader.DataLoader.WillCacheResponse | KYNetworkModule/Core/KYDataLoader.swift:172-176 | Only a data handler's delegate is asked per call, then the session-wide delegate. The default caches the proposed response. |
| KYDataLoader.InterleavedChunks | KYNetworkModule/Core/KYDataLoader.swift:79-104 | Two data tasks receive interleaved chunks. The first completes with exactly its own chunks in order and is resumed once, and its handler is gone. The second still holds only its own chunk. |
| KYAPIClient.ClientDelegateOf | KYNetworkModule/Core/KYAPIClient.swift:62 | A client without a configured delegate uses `KYDefaultAPIClientDelegate`. |
| KYAPIClient.MakeURL | KYNetworkModule/Core/KYAPIClient.swift:249-269 | An empty path gives the base URL plus `/`. A path that parses with a scheme is used as it is. A schemeless path is appended to the base URL. A missing base or an unparseable path throws `badURL`. Query items replace the query only when the list is non-empty. |
| KYAPIClient.WithQuery | KYNetworkModule/Core/KYAPIClient.swift:262-264 | The query items replace the URL's query only when the list is present and non-empty; otherwise the URL is unchanged. What this means for `makeURL` is `MakeURLAttachesQuery`. |
| KYAPIClient.MakeURLAttachesQuery | KYNetworkModule/Core/KYAPIClient.swift:259-268 | Query items never change whether a URL can be built, nor its scheme, path or trailing slash. A non-empty list becomes the query; an absent or empty list leaves the URL exactly as built without it. |
| KYAPIClient.EmptyPathIsBaseDirectory | KYNetworkModule/Core/KYAPIClient.swift:251-253 | For an empty path the resulting URL has the base URL's path, scheme and query, marked as a directory. |
| KYAPIClient.DefaultedHeaders | KYNetworkModule/Core/KYAPIClient.swift:235-245 | The request's own fields are never overwritten, and only `Content-Type` and `Accept` are ever added, both as `application/json`. `Content-Type` is present iff the request set it, or a body exists and the session does not set it. `Accept` is present iff the request set it or the session does not. |
| KYAPIClient.MakeURLRequest | KYNetworkModule/Core/KYAPIClient.swift:228-247 | A bad URL or an encoder error is thrown. Otherwise the request has the resolved URL, the method token, the encoded body, and exactly the defaulted header fields. |
| KYAPIClient.Validate | KYNetworkModule/Core/KYAPIClient.swift:290-293 | A non-HTTP response always passes. An HTTP response is judged by the delegate's validator on its data and task. |
| KYAPIClient.ValidateWithDefault | KYNetworkModule/Core/KYAPIClient.swift:290-293 | With the default delegate a response passes iff it is not HTTP or its status is 2xx. Otherwise the thrown error carries that status. |
| KYAPIClient.Retry | KYNetworkModule/Core/KYAPIClient.swift:273-288 | A run never sends more often than its bound and never asks the policy more often than it sends. A run without an outcome used up the whole bound. |
| KYAPIClient.PerformWithRetries | KYNetworkModule/Core/KYAPIClient.swift:273-288 | The counter loop produces exactly the outcome, number of sends and sequence of policy questions of the recursive definition. |
| KYAPIClient.RetryOnce | KYNetworkModule/Core/KYAPIClient.swift:277-286 | One pass of the loop makes one send. Either the run ends there with the whole outcome of the recursive definition, or the sends and questions so far are a prefix of that run, which continues from the next attempt. |
| KYAPIClient.RetrySucceedsAtOnce | KYNetworkModule/Core/KYAPIClient.swift:277-278 | A successful send is returned after one send, and the policy is never asked. |
| KYAPIClient.RetryRethrowsOtherErrors | KYNetworkModule/Core/KYAPIClient.swift:280-282 | An error other than `DataLoaderError` is rethrown unchanged after one send, and the policy is never asked. |
| KYAPIClient.RetryAskedInOrder | KYNetworkModule/Core/KYAPIClient.swift:274-286 | The i-th policy question carries attempt count `attempts + i`. It asks about the task and inner error of the wrapper thrown by that attempt's send. |
| KYAPIClient.RetrySurfacesInnerError | KYNetworkModule/Core/KYAPIClient.swift:277-286 | The outcome comes from the last send. A success is returned as is, and an unwrapped error is rethrown. For a wrapper, either the policy's own error is thrown, or the policy declined and the inner error is thrown, never the wrapper. |
| KYAPIClient.RetryRunsExactly | KYNetworkModule/Core/KYAPIClient.swift:283-286 | Suppose every send throws a wrapper and the policy says yes before attempt k and no at attempt k. Then `send` runs exactly k times, the policy is asked k times, and the last inner error is thrown. |
| KYAPIClient.DefaultPolicySendsOnce | KYNetworkModule/Core/KYAPIClientDelegate.swift:48-50 | Under the default policy the retry loop sends exactly once, and a wrapped failure surfaces as its inner error. |
| KYAPIClient.Attempt | KYNetworkModule/Core/KYAPIClient.swift:113-123 | An error from `willSendRequest` escapes unwrapped. An error from starting the task or from validation is wrapped in `DataLoaderError` with this attempt's task. A validated response is returned. |
| KYAPIClient.RejectedStatusIsRetryable | KYNetworkModule/Core/KYAPIClient.swift:117-122 | Under the default delegate, a non-2xx response fails as a wrapper with its task and the status. It is therefore offered to the retry policy like a transport error. |
| KYAPIClient.AtAttempt | KYNetworkModule/Core/KYAPIClient.swift:113-114 | The delegate as it stands at attempt n: its `willSendRequest` answers exactly as `rewrite(n, _)`, and its validator and retry policy are unchanged. |
| KYAPIClient.DataFor | KYNetworkModule/Core/KYAPIClient.swift:108-125 | A request that cannot be built is thrown before any send. `send` runs at most as often as the bound. Attempt n calls the rewrite hook as it answers at attempt n. |
| KYAPIClient.DataForAsksAboutEachAttemptsTask | KYNetworkModule/Core/KYAPIClient.swift:108-125 | For `data(for:)`, and for `_upload` whose retried closure is the same (KYAPIClient.swift lines 205-223), the i-th policy question is about attempt i + 1 and the task created for exactly that attempt. It requires that `willSendRequest` never throws `DataLoaderError` at any attempt, which holds because that type is internal to the library and a delegate outside it cannot construct it. |
| KYAPIClient.RewriteMayFailOnRetry | KYNetworkModule/Core/KYAPIClient.swift:108-125 | The rewrite hook is called again on a retry, so it may throw there. Suppose attempt 1 is rewritten, fails in transfer and is retried by the policy, and then the hook throws on attempt 2. `data(for:)` then throws that error after exactly two sends. |
| KYAPIClient.RetryOnceThenThrow | KYNetworkModule/Core/KYAPIClient.swift:273-288 | Suppose attempt 1 fails with a retryable error that the policy retries, and attempt 2 fails with an error that is not retryable. The loop then ends with that second error after two sends. |
| KYAPIClient.StartDownload | KYNetworkModule/Core/KYAPIClient.swift:152-167 | A resumed or fresh download task runs once. Its start error or validation error is thrown unwrapped. A validated response is returned. |
| KYAPIClient.Download | KYNetworkModule/Core/KYAPIClient.swift:138-146 | Build, let the delegate rewrite, and start once. Each step's error is thrown as it is. |
| KYAPIClient.DownloadIgnoresRetryPolicy | KYNetworkModule/Core/KYAPIClient.swift:138-167 | A download's result is the same whatever the retry policy, so downloads never go through the retry loop. |
| KYAPIClientDelegate.DefaultValidateResponse | KYNetworkModule/Core/KYAPIClientDelegate.swift:52-56 | Accepts iff `200 <= status < 300`, the Successful class of section 15.3 of RFC 9110. Otherwise throws `unacceptableStatusCode` with that exact status. |
| KYAPIClientDelegate.DefaultValidateIgnoresBody | KYNetworkModule/Core/KYAPIClientDelegate.swift:52-56 | The default verdict depends only on the status, not on the body or the task. |
| KYAPIClientDelegate.DefaultShouldRetry | KYNetworkModule/Core/KYAPIClientDelegate.swift:48-50 | Never retries, for every task, error and attempt count. |
| KYAPIClientDelegate.DefaultWillSendRequest | KYNetworkModule/Core/KYAPIClientDelegate.swift:44-46 | Leaves the request unchanged. |
| KYAPIClientDelegate.DefaultDelegate | KYNetworkModule/Core/KYAPIClientDelegate.swift:59 | `KYDefaultAPIClientDelegate` has exactly the three default behaviours, for all inputs: the request is sent unchanged, retry is never asked for, and a response is accepted iff its status is 2xx, a rejection throwing `unacceptableStatusCode` with that status. |
| KYRequest.HTTPMethod.Token | KYNetworkModule/Core/KYRequest.swift:20-39 | Every method token is 3 to 7 upper-case letters. |
| KYRequest.ParseToken | KYNetworkModule/Core/KYRequest.swift:20-39 | Reading a token back gives a method whose token it is. |
| KYRequest.TokenRoundTrip | KYNetworkModule/Core/KYRequest.swift:20-39 | Reading back a method's token gives that method. |
| KYRequest.TokenInjective | KYNetworkModule/Core/KYRequest.swift:20-39 | Distinct methods have distinct tokens. |
| KYRequest.Make | KYNetworkModule/Core/KYRequest.swift:55-67 | The initializer stores every argument unchanged. |
| KYRequest.MakeDefaults | KYNetworkModule/Core/KYRequest.swift:55-61 | By default the method is GET, and query, body and headers are absent. |
| KYRequest.Request.WithResponse | KYNetworkModule/Core/KYRequest.swift:70-72 | The new request has the same method, url, query, body and headers. |
| KYResponse.Make | KYNetworkModule/Core/KYResponse.swift:29-35 | The initializer stores every field, and metrics default to absent. |
| KYResponse.Response.Map | KYNetworkModule/Core/KYResponse.swift:38-40 | For a closure that cannot throw, the value is `f` of the old value. Data, response, task and metrics are kept exactly. |
| KYResponse.Response.TryMap | KYNetworkModule/Core/KYResponse.swift:38-40 | `rethrows`: when the closure throws, `map` throws that error. Otherwise the value is the closure's result and data, response, task and metrics are kept exactly. |
| KYResponse.TryMapOfTotal | KYNetworkModule/Core/KYResponse.swift:38-40 | With a closure that never throws, the throwing form always succeeds with `Map`'s result. |
| KYResponse.MapIdentity | KYNetworkModule/Core/KYResponse.swift:38-40 | Mapping with the identity gives an equal response. |
| KYResponse.MapCompose | KYNetworkModule/Core/KYResponse.swift:38-40 | Mapping with `f` then `g` equals mapping with their composition. |
| KYResponse.MapKeepsStatusCode | KYNetworkModule/Core/KYResponse.swift:16 | Mapping never changes the status code. |
| KYResponse.Response.StatusCode | KYNetworkModule/Core/KYResponse.swift:16 | The status code is present iff the response is an HTTP response, and then it is that response's status. |
| KYResponse.Location | KYNetworkModule/Core/KYResponse.swift:43-45 | The location of a URL-valued response is its value. |

## Left out

- Concurrency is not modelled:
  - Swift concurrency: `withTaskCancellationHandler`, continuations, the hop onto the delegate queue, and `task.cancel()`.
  - Each callback is one method call on the loader, and resuming a continuation is an entry in `resumed`. Registration is a precondition of completion only, where the source asserts it; the other callbacks accept an unregistered task and behave as the source does for one.
  - This matches the default serial delegate queue (`configuration.sessionDelegateQueue ?? .serial()`, KYAPIClient.swift line 58). A caller-supplied concurrent delegate queue, on which callbacks could interleave, is out of scope.
- Task creation, `resume()` and the network transport are left out: the outcome of a started task is the parameter `transfer` (or `send` for the retry loop).
- FileManager calls are left out: removing the downloads directory, creating it, and moving the file. They are filesystem I/O whose failures the library ignores. Only the relocated URL is modelled.
- JSON encoding and decoding (`encode`, `decode`, and the typed `send`/`upload` overloads that decode the body and then `map` the value) are left out. Encoding is the parameter `encode`, and the final `map` is `KYResponse.Response.Map`.
- URL parsing and percent-encoding belong to Foundation and are not modelled. `URL(string:)` is the parameter `parse`.
- KYAPIClient.MakeURL: assumes `URLComponents` accepts every resolved URL and always yields a URL, so the two `badURL` throws that depend on `URLComponents` alone are not modelled.
- KYAPIClient.DefaultedHeaders: header names are compared exactly, whereas `value(forHTTPHeaderField:)` ignores case.
- KYAPIClient.Retry: the recursion is bounded by `fuel`, so a policy that keeps saying yes ends with no outcome after `fuel` sends rather than looping for ever.
- KYAPIClient.PerformWithRetries: the same bound applies as for `Retry`.
- KYAPIClient.DataFor: only the rewrite hook may answer differently from attempt to attempt. The validator and the retry policy are functions of their arguments, so a delegate that keeps its own state between attempts is captured only through the attempt count the policy receives.
- KYDataLoader.DataLoader.constructor: the session-wide delegate is given at construction. The `didSet` that splits it into task, data and download delegates is a delegate's set of implemented callbacks (`Observer.observes`) plus its decision functions.
- Callbacks that only forward to delegates and touch no state are not modelled: `didBecomeInvalidWithError`, `urlSessionDidFinishEvents`, `taskIsWaitingForConnectivity`, `didCreateTask`, both `didBecome`, `didWriteData` and `didResumeAtOffset`.
- KYRequest.Make: `KYRequest` is a class whose method, query and headers are mutable; the model is an immutable record, so later mutation of a request and sharing of one request object between callers are not captured.
- The metrics, request body, authentication challenge, credential and cached response are opaque.
- `originalRequest` and `currentRequest` of a response just read the task, which is opaque here.
- The demo and UI files are not part of this model: `ViewController.swift`, `JYAPIClientDelegate.swift` and `Demo/Demo/APIClientDelegate.swift`.
- The relocation of a finished download is modelled as written. The finished file is named `Downloads.<name>` next to the `Downloads` folder rather than placed inside it (`RelocatedIsSibling`). The directory is still created, and the file still moves and is reported, so this is recorded as behaviour, not as a defect.
