/** Failure-carrying values shared by the model: where the Python code
    raises an exception or holds `None`, these carry `Failure` or `None`. */
module Wrappers {

  datatype Option<+T> = None | Some(value: T)

  datatype Result<+R, +E> = Success(value: R) | Failure(error: E)
}
