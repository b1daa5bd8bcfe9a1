/** Generic wrappers for the three ways a call in the client can end:
    a value that may be missing, a value-or-error outcome, and the
    normal-or-throw completion of a JavaScript call. */
module Outcomes {

  /** `T | null`: the `Maybe<T>` of the client. */
  datatype Option<+T> = None | Some(value: T)

  /** The `Outcome`/`Result` record of the client: exactly one of a
      response and an error is present. */
  datatype Result<+R, +E> = Success(value: R) | Failure(error: E)

  /** How a JavaScript call ends: it returns a value, or an exception
      escapes from it. */
  datatype Completion<+T, +E> = Returned(value: T) | Threw(exception: E)
}
