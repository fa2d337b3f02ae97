/** Option and Result, used for absent timeline durations, parse failures and
    the scheduler's error path. */
module Wrappers {

  datatype Option<T> = None | Some(value: T)

  datatype Result<T, E> = Success(value: T) | Failure(error: E)
}
