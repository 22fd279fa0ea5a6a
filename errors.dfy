/** Errors as the interception operator sees them.
    Swift's open `Error` protocol and dynamic casts (`error as? Target`) become a
    closed datatype and a total match predicate over target kinds. */
module Errors {

  datatype Option<T> = None | Some(value: T)

  /** An error value: its concrete type, whether that type adopts
      `RetriableError` (and then its `canRetry` flag), and whether it adopts
      `DescribableError`. */
  datatype Error = Error(typeId: nat, canRetry: Option<bool>, describable: bool)

  /** The type a stage is willing to handle: `Error` itself, one concrete
      error type, or one of the two trait protocols. */
  datatype Target = AnyError | OfType(id: nat) | Retriable | Describable

  /** `error as? Target` succeeds. */
  predicate Matches(t: Target, e: Error)
  {
    match t
    case AnyError => true
    case OfType(id) => e.typeId == id
    case Retriable => e.canRetry.Some?
    case Describable => e.describable
  }

  /** The flag a `RetriableError` exposes; false for errors that do not adopt it. */
  predicate CanRetry(e: Error)
  {
    e.canRetry == Some(true)
  }
}
