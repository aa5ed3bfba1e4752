/** Failure-carrying types shared by the modules of the model. */
module Wrappers {

  datatype Option<+T> = None | Some(value: T)

  /** The value of a computation in which a Python exception may be raised. */
  datatype Result<+T, +E> = Ok(value: T) | Err(error: E)

  /** The Python exceptions the engine can raise: a missing dictionary key,
      and an argument outside what `random.randint` or `decimal.Context`
      accept. */
  datatype Error = KeyError | ValueError
}
