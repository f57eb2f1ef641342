/** Option and Result, the two shapes the model uses for "maybe a value" and
    "a value or an error" (JavaScript's `undefined` and the AppError returns). */
module Wrappers {

  datatype Option<+T> = None | Some(value: T)

  datatype Result<+R, +E> = Success(value: R) | Failure(error: E)
}
