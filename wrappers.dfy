/** The optional value of a TypeScript field declared `x?: T` or `T | null`. */
module Wrappers {
  datatype Option<T> = None | Some(value: T)
  {
    /** `a ?? b`: the held value, else the fallback. */
    function GetOr(default: T): (r: T)
      ensures this.Some? ==> r == value
      ensures this.None? ==> r == default
    {
      match this
      case None => default
      case Some(v) => v
    }
  }

  /** The outcome of an operation that either returns a value or throws an `Error` with a message. */
  datatype Outcome<T> = Ok(value: T) | Thrown(message: string)

  /** The verdict of a form check: the value to emit, or the error to show. */
  datatype Checked<T, E> = Accepted(value: T) | Rejected(error: E)
}
