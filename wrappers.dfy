/** Optional values and success-or-error results, used where the migrator's
    Python code reads a key that may be absent or raises an exception. */
module Wrappers {

  datatype Option<+T> = None | Some(value: T)

  datatype Result<+T, +E> = Success(value: T) | Failure(error: E)
}
