/** Requests, errors and basic types shared by the modules. */
module Requests {

  /** The ID of a node. */
  type ID = nat

  datatype Option<+T> = None | Some(value: T)

  predicate Distinct<T(==)>(s: seq<T>) {
    forall i, j | 0 <= i < j < |s| :: s[i] != s[j]
  }

  /** The error classes the stream layer distinguishes. Every other status is an `Other`. */
  datatype Err =
    | EndOfStream
    | Refusal(code: nat)
    | ResourceExhausted
    | NodeClosed
    | StreamDown
    | SendQueueFull
    | ContextEnded
    | Other(code: nat)

  /**
   * A message to send together with how to report its outcome. `id` is the message ID of a
   * two-way call; for other requests it only tells requests apart.
   */
  datatype Request = Request(id: nat, streaming: bool, oneway: bool, hasChannel: bool) {
    predicate WantServerResponse() {
      hasChannel && !oneway
    }
  }
}
