/** Failure-carrying results: a JavaScript call that can throw is modelled as a
    function or method returning one of these. */
module Wrappers {

  datatype Option<+T> = None | Some(value: T)

  datatype Result<+R, +E> = Success(value: R) | Failure(error: E)
}
