/**
 * Scrapy's request and response objects as values. Only the attributes the
 * crawler reads or writes are kept; `meta` keeps its known keys as named
 * fields and every other key in `other`.
 */
module Http {
  import opened Wrappers

  /** The body of a request: none for the spider's GETs, the proxy's JSON command otherwise. */
  datatype RequestBody = NoBody | ProxyCommand(targetUrl: string, cmd: string)

  /**
   * `request.meta`. A key the code reads with `.get` and treats as a flag is a
   * `bool` (an absent key reads as false); `flaresolverr_retry_count` and
   * `download_slot` keep their absence.
   */
  datatype Meta = Meta(
    originalRequest: Option<Request>,  // "original_request"
    redirectedToProxy: bool,           // "redirected_to_flare_solverr"
    retryCount: Option<int>,           // "flaresolverr_retry_count"
    dontFilter: bool,                  // "dont_filter"
    dontRedirect: bool,                // "dont_redirect"
    handleHttpStatusAll: bool,         // "handle_httpstatus_all"
    downloadSlot: Option<string>,      // "download_slot"
    other: map<string, string>)        // every other key

  /** `scrapy.Request`; `dontFilter` is the request's own `dont_filter` attribute. */
  datatype Request = Request(
    url: string,
    verb: string,                      // the HTTP method
    headers: map<string, string>,
    body: RequestBody,
    priority: int,
    dontFilter: bool,
    meta: Meta)

  const EmptyMeta: Meta := Meta(None, false, None, false, false, false, None, map[])

  /** `Request(url=url, priority=priority)` with Scrapy's defaults for everything else. */
  function NewRequest(url: string, priority: int): Request {
    Request(url, "GET", map[], NoBody, priority, false, EmptyMeta)
  }

  /** What `json.loads(body)` gives: not JSON at all, or an object whose "solution" may be missing. */
  datatype Payload = NotJson | Json(solution: Option<Solution>)

  /** The proxy's "solution": the URL it ended on and the page it fetched there. */
  datatype Solution = Solution(url: string, response: Document)

  /** A response body as the crawler looks at it: its HTML title and its JSON reading. */
  datatype Document = Document(title: string, payload: Payload)

  /** `scrapy.http.Response`. */
  datatype Response = Response(
    url: string,
    status: int,
    headers: map<string, string>,
    body: Document,
    request: Option<Request>)
}
