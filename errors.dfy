/**
 * Errors as the Go code builds them: a cause (the failing command, a message
 * raised by the code itself, or an error from library code outside the model)
 * and the chain of `fmt.Errorf` / `errors.Wrap` labels put around it, outermost
 * first.
 */
module Errors {
  import opened Commands

  datatype Option<+T> = None | Some(value: T)

  /** A value or the error a Go function returned instead of it. */
  datatype Result<+T> = Success(value: T) | Failure(error: Error)

  /** A command as issued: where it runs (a node, the build container, or the host as "") and what it is. */
  datatype Issued = Issued(node: string, command: Command)

  datatype Cause =
    | CommandFailed(command: Issued, output: string)  // non-zero exit, with the captured output; the innermost
                                                      // message is the command's own `Label`
    | Plain                                           // the message is the innermost context prefix
    | Collaborator(what: string)                      // an error returned by library code outside the model

  datatype Error = Error(context: seq<string>, cause: Cause)

  /** `nil` or an error, as a Go function returning `error` reports it. */
  datatype Status = Ok | Fail(error: Error)

  /** `fmt.Errorf("<prefix>: %v", e)` and `errors.Wrap(e, "<prefix>")`. */
  function Wrap(e: Error, prefix: string): Error
  {
    Error([prefix] + e.context, e.cause)
  }

  /** The status with `prefix` put around its error, if any. */
  function WrapStatus(s: Status, prefix: string): Status
  {
    match s
    case Ok => Ok
    case Fail(e) => Fail(Wrap(e, prefix))
  }

  /** `errors.New(message)` / `fmt.Errorf(message)` without a wrapped cause. */
  function Message(message: string): Error
  {
    Error([message], Plain)
  }
}
