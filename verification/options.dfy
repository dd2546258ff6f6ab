/** Wrappers used throughout the model: `Option` for a
    preference key that may never have been written (or a Java reference
    that may be null), and `Result` for an operation that may throw. */
module Options {

  /** A value that may be absent. */
  datatype Option<+T> = None | Some(value: T) {

    /** The held value, or `default` when absent: the shape of every
        `SharedPreferences.getXxx(key, default)` lookup. */
    function GetOr(default: T): T {
      match this
      case Some(v) => v
      case None => default
    }
  }

  /** Either a value or the error the Java method would throw instead. */
  datatype Result<+R, +E> = Success(value: R) | Failure(error: E)
}
