/** Optional values (nullable columns) and outcomes of operations that can be refused. */
module Results {

  datatype Option<+T> = None | Some(value: T) {
    /** The value, or `default` when absent (PHP's `$x ?? $default`). */
    function GetOr(default: T): T {
      match this
      case Some(v) => v
      case None => default
    }
  }

  datatype Result<+T, +E> = Ok(value: T) | Err(error: E)
}
