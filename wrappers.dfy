/** Option and Result values used throughout the model: `None` stands for a Java `null`,
    `Err` for a request ended by an exception (a `RestletException` or a null dereference). */
module Wrappers {

  datatype Option<+T> = None | Some(value: T) {
    /** The value, or `default` when absent. */
    function GetOr(default: T): T {
      match this
      case Some(v) => v
      case None => default
    }
  }

  datatype Result<+T, +E> = Ok(value: T) | Err(error: E)
}
