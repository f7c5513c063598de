/**
 * The fetch-layer values the service worker handles: requests, responses and
 * the outcome of a network fetch. The real `fetch` is not modelled; its result
 * is passed in as an `Outcome`.
 */
module Http {

  /** `Response.type` of the Fetch standard. */
  datatype ResponseType = Basic | Cors | Default | Error | Opaque | OpaqueRedirect

  /**
   * An intercepted request; `verb` is its HTTP method. `host` stands for `new URL(url).hostname`;
   * URL parsing itself is not part of this model.
   */
  datatype Request = Request(verb: string, url: string, host: string)

  datatype Response = Response(
    status: int,
    statusText: string,
    kind: ResponseType,
    headers: map<string, string>,
    body: string)
  {
    /** `response.ok`: the status is in the range 200-299. */
    predicate OkStatus() {
      200 <= status <= 299
    }
  }

  /**
   * What a fetch delivers: a response (whatever its status), or a rejection
   * because the network could not be reached.
   */
  datatype Outcome = Ok(response: Response) | NetErr
}
