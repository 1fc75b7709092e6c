/** Option and Result, the two ways the backend reports an absent value or a thrown error. */
module Wrappers {

  datatype Option<T> = None | Some(value: T)
  {
    predicate IsSome() { this.Some? }

    function GetOr(default: T): T
    {
      match this
      case Some(v) => v
      case None => default
    }
  }

  /** A computation that either returns a value or throws an Error carrying its message. */
  datatype Result<T> = Ok(value: T) | Failure(message: string)
  {
    predicate IsOk() { this.Ok? }
  }
}
