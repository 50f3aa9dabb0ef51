/** Option and Result, the two failure-carrying shapes the Rust code uses. */
module Wrappers {

  datatype Option<+T> = None | Some(value: T)

  datatype Result<+T, +E> = Ok(value: T) | Err(error: E)

  /** `opt.unwrap_or(default)`. */
  function UnwrapOr<T>(opt: Option<T>, default: T): (r: T)
    ensures opt.Some? ==> r == opt.value
    ensures opt.None? ==> r == default
  {
    match opt
    case Some(v) => v
    case None => default
  }
}
