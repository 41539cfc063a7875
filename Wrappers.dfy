/** Option, and the outcome of one call to the remote REST API. */
module Wrappers {

  datatype Option<+T> = None | Some(value: T)

  /** What an awaited service call produced: the resolved body, or the rejected
      request's HTTP status (0 when no response arrived at all) together with the
      `message` field of the error body ("" when the body carried none). */
  datatype Remote<+T> = Ok(value: T) | Failed(status: int, message: string)

  /** `err.response?.data?.message || fallback`: the server's message when it is a
      non-empty string, else the view's own fallback text. */
  function MessageOr<T>(r: Remote<T>, fallback: string): (m: string)
    requires r.Failed?
    ensures m == r.message || m == fallback
    ensures m == fallback <==> r.message == "" || r.message == fallback
  {
    if r.message != "" then r.message else fallback
  }
}
