/** Outcomes of calls the console makes into code outside this model. */
module Outcomes {

  /** An optional value: `None` stands for JavaScript's `null` or `undefined`. */
  datatype Option<+T> = None | Some(value: T)

  /**
   * The outcome of one request through the `api` client: the response payload
   * when the request resolved, `Failure` when the awaited promise rejected
   * (a non-2xx status, a network error, a timeout).  The transport itself is
   * not part of this model; every handler receives the outcome as an input.
   */
  datatype ApiResult<+T> = Success(payload: T) | Failure
}
