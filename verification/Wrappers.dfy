/** Optional values, failure-carrying results and a counter's increment, shared by every module. */
module Wrappers {
  datatype Option<+T> = None | Some(value: T)

  datatype Result<+T, +E> = Ok(value: T) | Err(error: E)

  function Bit(b: bool): nat {
    if b then 1 else 0
  }
}
