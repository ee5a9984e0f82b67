/** The parts of an HTTP exchange that the retry logic looks at. */
module Http {
  import opened Options

  /** Request method tokens (the members of Python's `http.HTTPMethod`). */
  datatype Method = GET | HEAD | POST | PUT | DELETE | CONNECT | OPTIONS | TRACE | PATCH

  type Url = string

  /** A request: its method (`verb`, as `method` is a keyword) and its target. Requests are re-sendable as they are. */
  datatype Request = Request(verb: Method, url: Url)

  /** A response as the retry logic sees it: the status code and the value of its
      `Retry-After` header, `None` when the header is absent. */
  datatype Response = Response(status: int, retryAfter: Option<string>)
}
