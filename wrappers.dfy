/** Failure-carrying results, standing in for the C++ exceptions thrown by
    the allocator and the factories. */
module Wrappers {

  datatype Option<+T> = None | Some(value: T)

  datatype Result<+T, +E> = Ok(value: T) | Err(error: E)
}
