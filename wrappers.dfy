/** Option and Result, the two shapes every other module uses for "maybe absent" and "failed with a message". */
module Wrappers {

  datatype Option<+T> = None | Some(value: T)

  datatype Result<+R, +E> = Success(value: R) | Failure(error: E)
}
