/** Failure-compatible result types used across the model. */
module Wrappers {

  datatype Option<T> = None | Some(value: T)

  /**
   * An exception: the `name`/`message` pair that src/lib/util.ts `exception`
   * builds, or that a collaborator (the file system, a parser, Handlebars) throws.
   */
  datatype Error = Error(name: string, message: string)

  /** A settled promise: resolved with a value, or rejected with an error. */
  datatype Result<T> = Ok(value: T) | Fail(error: Error) {
    predicate IsFailure() { Fail? }

    function PropagateFailure<U>(): Result<U>
      requires Fail?
    {
      Fail(error)
    }

    function Extract(): T
      requires Ok?
    {
      value
    }
  }

  function RuntimeError(message: string): Error { Error("RuntimeError", message) }
  function SyntaxError(message: string): Error { Error("SyntaxError", message) }
}
