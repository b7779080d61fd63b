/**
 * Results and errors shared by every service module.
 *
 * The services throw typed errors (`Argument`, `Forbidden`, `NotFound`,
 * `AlreadyInUse`), plain `Error`s, and — where they read a property of an
 * undefined value — the runtime's `TypeError`. Each throw becomes an `Err`.
 */
module Base {

  datatype Option<+T> = None | Some(value: T) {
    function GetOr(default: T): T {
      match this
      case Some(v) => v
      case None => default
    }
  }

  datatype Error =
    | Argument(field: string)
    | Forbidden
    | NotFound(entity: string)
    | AlreadyInUse(entity: string, fields: seq<string>)
    /** A plain `Error` thrown with a message (a missing setting, an unknown report category). */
    | Failure(message: string)
    /** The runtime error raised when the code reads a property of `undefined`. */
    | TypeError

  datatype Result<+T> = Ok(value: T) | Err(error: Error) {
    predicate IsFailure() {
      Err?
    }

    function PropagateFailure<U>(): Result<U>
      requires Err?
    {
      Err(error)
    }

    function Extract(): T
      requires Ok?
    {
      value
    }
  }
}
