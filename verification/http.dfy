/** The HTTP values the service worker handles: the request it intercepts,
    the response it serves or stores, and what the network does with a fetch. */
module Http {
  import opened Wrappers

  /** An absolute request URL, used as the cache key. */
  type Url = string

  /** An intercepted request: its method (`verb`), its absolute URL and its
      `accept` header, which may be absent. */
  datatype Request = Request(verb: string, url: Url, accept: Option<string>)

  /** A response: status line, `Content-Type` header (if any) and body text. */
  datatype Response = Response(status: int, statusText: string, contentType: Option<string>, body: string)

  /** What a `fetch` does: it resolves with a response (whatever its status)
      or rejects with a network error. */
  datatype NetOutcome = Delivered(response: Response) | NetworkError

  /** 200 OK (section 15.3.1 of RFC 9110). */
  const StatusOk: int := 200

  /** 206 Partial Content (section 15.3.7 of RFC 9110). */
  const StatusPartialContent: int := 206

  /** 503 Service Unavailable (section 15.6.4 of RFC 9110). */
  const StatusServiceUnavailable: int := 503

  /** The Fetch standard's "ok status": the range 200 to 299. */
  predicate IsOkStatus(status: int) {
    200 <= status <= 299
  }
}
