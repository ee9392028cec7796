/** Option and Result values used across the model, and the outcome of one HTTP exchange. */
module Wrappers {

  /** A value that may be missing. For an Odoo field, `None` is the `False` an unset field reads as. */
  datatype Option<+T> = None | Some(value: T)

  /** A computation that either returns a value or raises; `error` is the text `str(e)` of the exception. */
  datatype Result<+T> = Success(value: T) | Failure(error: string)

  /**
   * The outcome of one `requests.post(...)` followed by `raise_for_status()` and `.json()`:
   * either the decoded body, or an exception (connection error, timeout, non-2xx status,
   * a body that is not JSON) with its text.
   */
  datatype Reply<+T> = Replied(body: T) | Raised(error: string)
}
