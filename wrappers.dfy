/** Option and Result, the two failure-carrying shapes the model uses. */
module Wrappers {

  datatype Option<+T> = None | Some(value: T)
  {
    /** Applies `f` to the carried value, if any (Rust's `Option::map`). */
    function Map<U>(f: T -> U): Option<U>
    {
      match this
      case None => None
      case Some(v) => Some(f(v))
    }
  }

  datatype Result<+R, +E> = Ok(value: R) | Err(error: E)
}
