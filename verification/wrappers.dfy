/** Option and Result shared by the model. `Option<int>.None` also
    stands for the JavaScript value `NaN` wherever a number may fail to exist. */
module Wrappers {

  datatype Option<+T> = None | Some(value: T)

  datatype Result<+R, +E> = Success(value: R) | Failure(error: E)
}
