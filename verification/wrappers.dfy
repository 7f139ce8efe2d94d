/** Failure-carrying wrappers shared by the storefront model. */
module Wrappers {

  /** A value that may be absent: JavaScript's `undefined` or a find that found nothing. */
  datatype Option<+T> = None | Some(value: T)

  /** The outcome of a call into a foreign service: it either resolves or rejects with an error text. */
  datatype Outcome<+E> = Pass | Fail(error: E)
}
