/** Option and Result, the shapes of Rust's `Option<T>` and `Result<T, String>`. */
module Wrappers {

  datatype Option<T> = None | Some(value: T) {
    /** Applies `f` to the value, if there is one. */
    function Map<U>(f: T -> U): Option<U>
    {
      match this
      case Some(v) => Some(f(v))
      case None => None
    }
  }

  /** Every error in the bridge is carried as a string, as in `Result<T, String>`. */
  datatype Result<T> = Ok(value: T) | Err(error: string)
}
