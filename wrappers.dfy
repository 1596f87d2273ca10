/** Option and Result: error paths that the JavaScript source expresses with
    `undefined`, `null` or `throw`. */
module Wrappers {

  datatype Option<+T> = None | Some(value: T)

  datatype Result<+T, +E> = Success(value: T) | Failure(error: E)
}
