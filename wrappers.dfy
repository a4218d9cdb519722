/** Small value types shared by every screen: an optional value and the
    outcome of an awaited backend call (a resolved or a rejected promise). */
module Wrappers {

  datatype Option<+T> = None | Some(value: T)

  /** The result of one awaited Firebase call: it either resolves, or it
      rejects with an error whose `message` the screens show or log. */
  datatype Outcome = Success | Failure(message: string)
}
