/** Optional values and the abstract result of a call into the identity provider. */
module Wrappers {

  /** A value that may be absent (`null`/`undefined` in the source). */
  datatype Option<+T> = None | Some(value: T)

  /** What an awaited provider call produces: a value, or a rejection carrying
      the provider's error code (for example "auth/invalid-email"). */
  datatype Outcome<+T> = Ok(value: T) | Err(code: string)
}
