/** Failure-carrying values shared by the other modules: a Python exception
    raised by the modelled code becomes an `Err`, a normal return an `Ok`. */
module Wrappers {

  datatype Option<+T> = None | Some(value: T)

  datatype Result<+T, +E> = Ok(value: T) | Err(error: E)
}
