/** Option and Result, the shapes used for Python's None and for raised exceptions. */
module Wrappers {

  /** `None` stands for Python's None (or a NaN in a numeric column). */
  datatype Option<+T> = None | Some(value: T) {
    /** The value, or `default` when there is none. */
    function GetOr(default: T): T {
      match this
      case Some(v) => v
      case None => default
    }
  }

  /** A value, or the exception the source raises instead of returning it. */
  datatype Result<+T, +E> = Ok(value: T) | Err(error: E)
}
