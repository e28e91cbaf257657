/** Option and the outcome of an operation that may raise past its own handlers. */
module Wrappers {

  datatype Option<+T> = None | Some(value: T)

  /** What a Python call does from its caller's point of view: it returns a value
      (possibly `None`) or an exception escapes it. */
  datatype Outcome<+T> = Returned(value: Option<T>) | Raised(reason: string)
}
