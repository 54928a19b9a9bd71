/** The wrappers used throughout the model: an optional value, a value-or-error
    result and a pass-or-error outcome. */
module Results {

  datatype Option<+T> = None | Some(value: T) {
    /** The wrapped value, or `default` when there is none (Rust's `unwrap_or`). */
    function GetOr(default: T): T {
      match this
      case Some(v) => v
      case None => default
    }
  }

  datatype Result<+T, +E> = Ok(value: T) | Err(error: E)

  /** The result of an operation that returns `()` on success. */
  datatype Outcome<+E> = Pass | Fail(error: E)
}
