/** Wrappers shared by the whole model.
    - Option<T> stands both for java.util.Optional and for a nullable Java reference
      (None is null / Optional.empty()).
    - Result<T, E> stands for a call that either returns a value or throws E.
 */
module Wrappers {

  datatype Option<+T> = None | Some(value: T)

  datatype Result<+T, +E> = Success(value: T) | Failure(error: E)
}
