/** Optional values and results shared by every module of the model. */
module Common {

  /** A value that may be absent: JavaScript's `null`/`undefined` are `None`. */
  datatype Option<+T> = None | Some(value: T) {
    /** The value, or `default` when absent (a JavaScript default parameter). */
    function GetOr(default: T): T {
      match this
      case Some(v) => v
      case None => default
    }
  }

  /** The outcome of an operation that may fail (a thrown exception is `Err`). */
  datatype Result<+T, +E> = Ok(value: T) | Err(error: E)
}
