/** Optional values and results of calls that may fail. A collaborator that throws
    (or whose promise rejects) is modelled as returning `Failure(error)`. */
module Wrappers {

  datatype Option<+T> = None | Some(value: T)

  datatype Result<+T, +E> = Success(value: T) | Failure(error: E)
}
