/** Option, Result and the error value shared by every part of the model. */
module Wrappers {

  datatype Option<+T> = None | Some(value: T)

  /** A Go `error`. Only the outermost constructor is visible to a type assertion
      such as `err.(*exec.ExitError)`: `fmt.Errorf("...: %v", err)` builds a new
      error that is never an ExitError, which `Wrapped` keeps visible. */
  datatype Error =
    | ExitError(code: int)                   // the process ran and exited with a non-zero code
    | Failed(what: string)                   // an error returned by the OS, a library or a service
    | Wrapped(context: string, inner: Error) // fmt.Errorf("<context>: %v", inner)

  datatype Result<+T> = Success(value: T) | Failure(error: Error)
}
