/** Option and Result: JavaScript's `null`/`undefined` slots and the `{ data, error }`
    pairs returned by the backend SDK, as values. */
module Wrappers {

  /** A value that may be absent (`null` or `undefined` in the source). */
  datatype Option<+T> = None | Some(value: T) {

    /** The value, or `default` when absent: JavaScript's `x || default` on an object slot. */
    function GetOr(default: T): (r: T)
      ensures Some? ==> r == value
      ensures None? ==> r == default
    {
      match this
      case Some(v) => v
      case None => default
    }
  }

  /** The outcome of a backend query: rows on success, the error's message on failure. */
  datatype Result<+R> = Ok(value: R) | Err(message: string)
}
