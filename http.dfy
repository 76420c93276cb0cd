/** The outcome of a write request (POST or DELETE) as the client code sees it. */
module Http {

  /** `response.ok`: the status is in the 2xx range. */
  predicate Ok(status: int) {
    200 <= status <= 299
  }

  /** Either the server answered with a status, or `fetch` itself rejected
      (network unreachable, CORS, aborted). */
  datatype WriteResponse = Answered(status: int) | NetworkError

  /** The branch the client takes: only an answered 2xx request counts as done remotely. */
  predicate Succeeded(r: WriteResponse) {
    r.Answered? && Ok(r.status)
  }
}
