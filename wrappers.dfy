/** Option and Result values shared by the model: `None` stands for Java's null,
    `Failure` for an exception thrown with the given message. */
module Wrappers {

  datatype Option<+T> = None | Some(value: T)

  datatype Result<+R, +E> = Success(value: R) | Failure(error: E)
}
