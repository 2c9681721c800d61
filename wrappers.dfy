/** Option and Result, used for values the source may lack and for the
    exceptions and error dialogs it raises. */
module Wrappers {

  datatype Option<+T> = None | Some(value: T)

  datatype Result<+R, +E> = Success(value: R) | Failure(error: E)
}
