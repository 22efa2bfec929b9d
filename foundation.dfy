/**
 * Stand-ins for the platform types the client library is written against
 * (URLSessionTask, URL, URLRequest, URLResponse, Data, Error). Only the parts
 * the library inspects are modelled; everything else is an opaque type.
 */
module Foundation {
  import opened Wrappers

  /** A URLSessionTask, used by the library only as an identity: the registry's key. */
  type Handle(==, !new)

  /** URLSessionTaskMetrics; the library stores and forwards it without looking inside. */
  type Metrics

  /** An `Encodable` request body; encoding is done by a JSON coder outside this model. */
  type Body

  /** URLAuthenticationChallenge, URLCredential, CachedURLResponse: passed through, never inspected. */
  type Challenge
  type Credential
  type CachedResponse

  type Byte = b: int | 0 <= b < 256

  /** Foundation's `Data`. */
  type Data = seq<Byte>

  datatype QueryItem = QueryItem(name: string, value: Option<string>)

  /**
   * A parsed URL: its scheme (absent for a relative reference), its path as a list
   * of components, whether the path ends in '/', and its query items.
   */
  datatype Url = Url(scheme: Option<string>, path: seq<string>, trailingSlash: bool, query: Option<seq<QueryItem>>)

  /** Number of leading characters of `s` before the first '/'. */
  function SegmentLength(s: string): (n: nat)
    ensures n <= |s|
    ensures forall i :: 0 <= i < n ==> s[i] != '/'
    ensures n < |s| ==> s[n] == '/'
  {
    if s == [] || s[0] == '/' then 0 else 1 + SegmentLength(s[1..])
  }

  /** The path components of `s`: the maximal runs of characters other than '/'. */
  function Components(s: string): (cs: seq<string>)
    ensures forall i :: 0 <= i < |cs| ==> cs[i] != [] && '/' !in cs[i]
    decreases |s|
  {
    if s == [] then []
    else if s[0] == '/' then Components(s[1..])
    else
      var n := SegmentLength(s);
      [s[..n]] + Components(s[n..])
  }

  /** A segment followed by a separator contributes exactly that segment. */
  lemma {:induction false} ComponentsAfterSegment(seg: string, rest: string)
    requires seg != [] && '/' !in seg
    ensures Components(seg + "/" + rest) == [seg] + Components(rest)
  {
    var s := seg + "/" + rest;
    SegmentLengthOfSegment(seg, "/" + rest);
    assert s == seg + ("/" + rest);
    assert s[..|seg|] == seg;
    assert s[|seg|..] == "/" + rest;
    assert ("/" + rest)[1..] == rest;
  }

  lemma {:induction false} SegmentLengthOfSegment(seg: string, rest: string)
    requires '/' !in seg
    requires rest != [] && rest[0] == '/'
    ensures SegmentLength(seg + rest) == |seg|
    decreases |seg|
  {
    if seg == [] {
      assert seg + rest == rest;
    } else {
      assert (seg + rest)[1..] == seg[1..] + rest;
      SegmentLengthOfSegment(seg[1..], rest);
    }
  }

  /** `URL.appendingPathComponent(_:)`. */
  function AppendingPathComponent(u: Url, c: string): (r: Url)
    ensures r.scheme == u.scheme && r.query == u.query
    ensures r.path == u.path + Components(c)
    ensures c != [] ==> r.trailingSlash == (c[|c| - 1] == '/')
  {
    u.(path := u.path + Components(c),
       trailingSlash := if c == [] then u.trailingSlash else c[|c| - 1] == '/')
  }

  /** `URL.lastPathComponent`. */
  function LastPathComponent(u: Url): string {
    if u.path == [] then "" else u.path[|u.path| - 1]
  }

  /**
   * `URL.appendingPathExtension(_:)`: the last path component gets "." and the
   * extension appended; the number of components does not change.
   */
  function AppendingPathExtension(u: Url, ext: string): (r: Url)
    ensures r.scheme == u.scheme && r.query == u.query && r.trailingSlash == u.trailingSlash
    ensures |r.path| == |u.path|
    ensures u.path != [] ==> r.path[..|u.path| - 1] == u.path[..|u.path| - 1]
    ensures u.path != [] ==> LastPathComponent(r) == LastPathComponent(u) + "." + ext
  {
    if u.path == [] then u
    else u.(path := u.path[..|u.path| - 1] + [u.path[|u.path| - 1] + "." + ext])
  }

  /** URLResponse; an HTTPURLResponse is abstracted to its status code. */
  datatype URLResponse = HTTPURLResponse(statusCode: int) | OtherResponse

  type HTTPResponse = r: URLResponse | r.HTTPURLResponse? witness HTTPURLResponse(200)

  /** URLRequest: target, method token, header fields and body. */
  datatype URLRequest = URLRequest(url: Url, httpMethod: string, headers: map<string, string>, httpBody: Option<Data>)

  /** `URLRequest(url:)`: a GET with no header fields and no body. */
  function NewURLRequest(url: Url): (r: URLRequest)
    ensures r.url == url && r.httpMethod == "GET" && r.headers == map[] && r.httpBody.None?
  {
    URLRequest(url, "GET", map[], None)
  }

  datatype URLErrorCode = Unknown | BadURL

  /**
   * Swift's `Error` existential, closed over the errors the core distinguishes:
   * URLError, KYAPIError.unacceptableStatusCode (KYAPIClient.swift), the internal
   * wrapper DataLoaderError (KYDataLoader.swift), and any other error thrown by a
   * collaborator (transport, coder, delegate), told apart by an identifier.
   */
  datatype Error =
    | URLError(code: URLErrorCode)
    | UnacceptableStatusCode(statusCode: int)
    | DataLoaderError(task: Handle, error: Error)
    | Thrown(id: nat)
}
