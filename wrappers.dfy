/** Optional values and results, standing for Go's nil-able pointers and (value, error) returns. */
module Wrappers {

  /** A Go pointer field: `None` is nil, "unset"; `Some(v)` is an explicitly set value. */
  datatype Option<+T> = None | Some(value: T) {

    /** Go's `fi.ValueOf(p)`: the pointed-to value, or the zero value when nil. */
    function GetOr(zero: T): T {
      match this
      case Some(v) => v
      case None => zero
    }
  }

  /** A Go `(value, error)` pair where exactly one side is meaningful. */
  datatype Result<+T, +E> = Ok(value: T) | Err(error: E)
}
