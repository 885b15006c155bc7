/** The Option and Result types shared by every module of the model. */
module Wrappers {

  /** A value that may be absent: TypeScript's `T | null` / `T | undefined`. */
  datatype Option<+T> = None | Some(value: T)

  /** Either a computed value or an error description. */
  datatype Result<+R, +E> = Success(value: R) | Failure(error: E)
}
