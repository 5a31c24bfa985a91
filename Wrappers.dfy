/** Optional values and success-or-error results, used where the source has
    `undefined`-able fields and thrown errors. */
module Wrappers {

  datatype Option<+T> = None | Some(value: T)

  /** `Ok(v)` is a returned value; `Err(message)` is a thrown `Error` carrying its message. */
  datatype Result<+T> = Ok(value: T) | Err(message: string)
}
