/** Failure-carrying result types used where the source throws. */
module Wrappers {

  datatype Option<+T> = None | Some(value: T)

  /** `Failure` carries the message of the error the source throws. */
  datatype Result<+T> = Success(value: T) | Failure(error: string)

  /** The outcome of an operation that returns nothing but may throw. */
  datatype Outcome = Pass | Fail(error: string)

  /** What JavaScript throws when code reads a property of `undefined`. */
  const UndefinedError: string := "TypeError: Cannot read properties of undefined"

  /** What JavaScript throws when code assigns a property of `undefined`. */
  const UndefinedWriteError: string := "TypeError: Cannot set properties of undefined"
}
