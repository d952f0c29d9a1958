/** The optional and failure values shared by every module. A Python `None` is `None`;
    a raised exception is `Err`. */
module Wrappers {
  datatype Option<+T> = None | Some(value: T)

  datatype Result<+T, +E> = Ok(value: T) | Err(error: E)

  /** `x or otherwise`, where no value of x is falsy but None. */
  function Or<T>(x: Option<T>, otherwise: T): T {
    if x.Some? then x.value else otherwise
  }

  function Min(a: nat, b: nat): nat {
    if a < b then a else b
  }
}
