/** Optional values (Java `null`) and results with an error side (thrown exceptions). */
module Wrappers {

  /** `None` stands for a Java `null` reference. */
  datatype Option<+T> = None | Some(value: T)

  /** The outcome of an operation that either answers or fails with an error. */
  datatype Result<+R, +E> = Success(value: R) | Failure(error: E)
}
