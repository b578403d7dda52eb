/** The Option and Outcome datatypes shared by the model. */
module Wrappers {

  /** A value that may be absent: Python's `Optional[T]`, where `None` is a missing value. */
  datatype Option<+T> = None | Some(value: T) {
    /** The carried value, or `default` when there is none. */
    function GetOr(default: T): (r: T)
      ensures Some? ==> r == value
      ensures None? ==> r == default
    {
      match this
      case Some(v) => v
      case None => default
    }
  }

  /** The result of an operation that either completes or fails with an error value. */
  datatype Outcome<+E> = Pass | Fail(error: E)
}
