/** Option and Result values. The client reports every failure as a
    human-readable message, so the error side of a Result is a string. */
module Wrappers {

  datatype Option<+T> = None | Some(value: T)

  datatype Result<+T> = Ok(value: T) | Err(error: string)

  /** The first present value, as Rust's `Option::or_else`. */
  function OrElse<T>(first: Option<T>, second: Option<T>): (r: Option<T>)
    ensures first.Some? ==> r == first
    ensures first.None? ==> r == second
  {
    if first.Some? then first else second
  }
}
