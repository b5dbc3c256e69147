/** Optional values and the outcome of a call that may throw. */
module Wrappers {

  datatype Option<+T> = None | Some(value: T)

  /** The outcome of a JavaScript call that may throw: `Err` carries the text
      the thrown value converts to when it is concatenated to a string. */
  datatype Result<+T> = Ok(value: T) | Err(error: string)

  function Min(a: nat, b: nat): nat {
    if a <= b then a else b
  }
}
