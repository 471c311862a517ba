/** Absent-or-present values, used wherever the pages read a field that may be
    `undefined`, a response that may have failed, or a lookup that may find nothing. */
module Wrappers {

  datatype Option<+T> = None | Some(value: T) {

    /** The wrapped value, or `default` when there is none. */
    function GetOr(default: T): T {
      match this
      case Some(v) => v
      case None => default
    }
  }

  /** The outcome of an action that either succeeds with a value or is refused
      with an error. */
  datatype Result<+R, +E> = Success(value: R) | Failure(error: E)
}
