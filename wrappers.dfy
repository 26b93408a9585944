/** Failure-carrying results used by the model: an AVM `assert` or a failing
    opcode aborts the call, which the model returns as an error value. */
module Wrappers {

  datatype Option<+T> = None | Some(value: T)

  /** The outcome of a call that returns a value or aborts with an error. */
  datatype Result<+T, +E> = Ok(value: T) | Err(error: E)

  /** The outcome of a call that returns nothing or aborts with an error. */
  datatype Outcome<+E> = Pass | Fail(error: E)
}
