/** Optional values and results with an error, as used throughout the model. */
module Results {

  datatype Option<T> = None | Some(value: T) {
    /** Python's `d.get(k, default)` / `x or default` shape: the value, or the default when absent. */
    function GetOr(default: T): T {
      if Some? then value else default
    }
  }

  datatype Result<T, E> = Ok(value: T) | Err(error: E)
}
