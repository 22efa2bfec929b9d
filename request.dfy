/** KYRequest and KYHTTPMethod: the typed request descriptor a caller hands to the client. */
module KYRequest {
  import opened Wrappers
  import opened Foundation

  datatype HTTPMethod = Get | Post | Put | Patch | Delete | Options | Head | Trace
  {
    /** `string`: the method token written on the request line. */
    function Token(): (s: string)
      ensures 3 <= |s| <= 7
      ensures forall i :: 0 <= i < |s| ==> 'A' <= s[i] <= 'Z'
    {
      match this
      case Get => "GET"
      case Post => "POST"
      case Put => "PUT"
      case Patch => "PATCH"
      case Delete => "DELETE"
      case Options => "OPTIONS"
      case Head => "HEAD"
      case Trace => "TRACE"
    }
  }

  /** Reads a method token back; the left inverse of `Token`. */
  function ParseToken(s: string): (m: Option<HTTPMethod>)
    ensures m.Some? ==> m.value.Token() == s
  {
    if s == "GET" then Some(Get)
    else if s == "POST" then Some(Post)
    else if s == "PUT" then Some(Put)
    else if s == "PATCH" then Some(Patch)
    else if s == "DELETE" then Some(Delete)
    else if s == "OPTIONS" then Some(Options)
    else if s == "HEAD" then Some(Head)
    else if s == "TRACE" then Some(Trace)
    else None
  }

  lemma TokenRoundTrip(m: HTTPMethod)
    ensures ParseToken(m.Token()) == Some(m)
  {
  }

  /** Distinct methods have distinct tokens. */
  lemma TokenInjective(m: HTTPMethod, n: HTTPMethod)
    ensures m.Token() == n.Token() ==> m == n
  {
    if m.Token() == n.Token() {
      TokenRoundTrip(m);
      TokenRoundTrip(n);
    }
  }

  /**
   * A request whose decoded response type is `R` (a phantom parameter): method,
   * resource URL (absolute or relative), query items, body and header fields.
   */
  datatype Request<R> = Request(
    httpMethod: HTTPMethod,
    url: string,
    query: Option<seq<QueryItem>>,
    body: Option<Body>,
    headers: Option<map<string, string>>)
  {
    /** `withResponse(_:)`: the same request, decoded as another type. */
    function WithResponse<T>(): (r: Request<T>)
      ensures r.httpMethod == httpMethod && r.url == url && r.query == query
      ensures r.body == body && r.headers == headers
    {
      Request(httpMethod, url, query, body, headers)
    }
  }

  /** `init`: method defaults to GET; query, body and headers default to nil. */
  function Make<R>(
    m: HTTPMethod := Get,
    url: string,
    query: Option<seq<QueryItem>> := None,
    body: Option<Body> := None,
    headers: Option<map<string, string>> := None): (r: Request<R>)
    ensures r.httpMethod == m && r.url == url && r.query == query && r.body == body && r.headers == headers
  {
    Request(m, url, query, body, headers)
  }

  /** A request built from a URL alone is a GET with nothing else set. */
  lemma MakeDefaults<R>(url: string)
    ensures var r: Request<R> := Make(url := url);
      r.httpMethod == Get && r.query.None? && r.body.None? && r.headers.None?
  {
  }
}
