/** The optional value and the success-or-error result shared by the
    model's modules. */
module Wrappers {

  datatype Option<T> = None | Some(value: T)

  /** A value, or the exception the library raises instead. */
  datatype Result<T, E> = Ok(value: T) | Err(error: E)
}
