/** Small failure-carrying datatypes shared by all the modules. */
module Wrappers {

  /** An optional value: a many-to-one field that may be empty, a search with `limit=1`. */
  datatype Option<+T> = None | Some(value: T) {
    function GetOr(default: T): T {
      match this
      case Some(v) => v
      case None => default
    }
  }

  /** A value or the error that aborted the operation computing it. */
  datatype Result<+T, +E> = Ok(value: T) | Err(error: E)

  /** The outcome of a check or of an action whose only product is a state change. */
  datatype Outcome<+E> = Pass | Fail(error: E)
}
