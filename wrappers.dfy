/** Failure-carrying values used across the model: an optional value and the
    outcome of a step that can raise one of the backend's exceptions. */
module Wrappers {

  datatype Option<+T> = None | Some(value: T)

  /** The exceptions the backend can raise while generating a project. */
  datatype Error =
    | MesonException(message: string)  // a configuration error raised on purpose
    | KeyError(key: string)            // a dictionary lookup of a missing key
    | NameError(name: string)          // a local variable read before any assignment
    | TypeError(operand: string)       // a path join handed something that is not a string

  datatype Result<+T> = Ok(value: T) | Err(error: Error)

  datatype Outcome = Pass | Fail(error: Error)
}
