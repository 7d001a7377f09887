/** The background-error channel of radar.go and way.go: a channel of capacity one that is
    read and written without blocking. */
module Mailbox {
  import opened Wrappers

  /** sendError: a send into a full slot is dropped. */
  function Send(slot: Option<Error>, e: Error): (r: Option<Error>)
    ensures slot.None? ==> r == Some(e)
    ensures slot.Some? ==> r == slot
  {
    if slot.None? then Some(e) else slot
  }

  /** The first error sent is the one kept until it is read: later errors are dropped. */
  lemma {:induction false} FirstErrorKept(errors: seq<Error>)
    requires errors != []
    ensures SendAll(None, errors) == Some(errors[0])
    decreases |errors|
  {
    if |errors| > 1 {
      FirstErrorKept(errors[..|errors| - 1]);
    }
  }

  /** A run of sends, in order. */
  function SendAll(slot: Option<Error>, errors: seq<Error>): Option<Error>
    decreases |errors|
  {
    if errors == [] then slot else Send(SendAll(slot, errors[..|errors| - 1]), errors[|errors| - 1])
  }
}
