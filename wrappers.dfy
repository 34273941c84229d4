/** Optional values and the `{ success } | { error }` results that every server action returns. */
module Wrappers {

  datatype Option<+T> = None | Some(value: T)

  /** What a server action returns to its caller: `{ success: true }` or `{ error: message }`. */
  datatype Outcome = Success | Failure(error: string)

  /** A computed value or an error message. */
  datatype Result<+T> = Ok(value: T) | Err(error: string)
}
