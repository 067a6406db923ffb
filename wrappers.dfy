/** Kotlin's nullable values and `kotlin.Result`, as datatypes. */
module Wrappers {

  /** A value of a nullable Kotlin type: `None` stands for `null`. */
  datatype Option<+T> = None | Some(value: T)

  /** `kotlin.Result`: a success value or the exception that was caught. */
  datatype Result<+T, +E> = Success(value: T) | Failure(error: E)
}
