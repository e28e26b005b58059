// Absent values and failing operations.

module Wrappers {

  datatype Option<+T> = None | Some(value: T) {
    function GetOr(default: T): (r: T) {
      match this
      case Some(v) => v
      case None => default
    }
  }

  datatype Result<+T, +E> = Ok(value: T) | Err(error: E)

  /** A `required` String field of a Mongoose schema: absent and empty both fail
      validation. */
  predicate PresentText(f: Option<string>) {
    f.Some? && f.value != ""
  }
}
