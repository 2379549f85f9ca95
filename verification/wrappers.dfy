/** Go's `value, error` returns and nil pointers, as datatypes. */
module Wrappers {

  /** A pointer that may be nil (`*string` and friends in the AWS SDK types). */
  datatype Option<T> = None | Some(value: T) {
    /** `lo.FromPtr`: the pointed-to value, or the given zero value when nil. */
    function GetOr(zero: T): T {
      match this
      case Some(v) => v
      case None => zero
    }
  }

  /** A result or a Go `error`, the error carried as its `Error()` text. */
  datatype Result<T> = Ok(value: T) | Err(error: string)
}
