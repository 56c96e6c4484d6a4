/** Failure-carrying results for the places where the simulation raises
    (a missing key, an index past the end, a division by zero). */
module Wrappers {

  datatype Option<+T> = None | Some(value: T)

  datatype Result<+T> = Success(value: T) | Failure(error: string)
}
