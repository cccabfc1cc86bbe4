/** Shared result shapes: a value that may be absent, and a backend answer that may be an error. */
module Wrappers {
  datatype Option<+T> = None | Some(value: T) {
    function GetOr(default: T): (r: T) {
      if Some? then value else default
    }
  }

  datatype Answer<+T, +E> = Success(value: T) | Failure(code: E)

  /** An answer whose error codes are plain strings. */
  type Reply<+T> = Answer<T, string>
}
