/**
 * WithPanicsAsErrors: the wrapped runFunc runs the inner one; a deferred
 * recover turns a panic into the error "panic: <payload>" stored in a
 * captured variable, and the wrapper returns the inner function's own error
 * when there is one and the captured error otherwise.
 */
module WithPanicsAsErrors {
  import opened Errors

  /** The wrapped runFunc's result, given what the inner runFunc did. */
  function Convert(o: Outcome): (err: Option<Error>)
    ensures o.Returned? ==> err == o.err
    ensures o.Panicked? ==> err == Some(PanicError(o.payload))
  {
    // innerRun returns the inner error, or nil when the deferred recover fired
    var errDirect := if o.Returned? then o.err else None;
    // the captured err is only set by the deferred recover
    var captured := if o.Panicked? then Some(PanicError(o.payload)) else None;
    if errDirect.Some? then errDirect else captured
  }

  /** A panic always becomes a non-nil error whose text is "panic: " followed by the payload. */
  lemma PanicMessage(p: Payload)
    ensures Convert(Panicked(p)).Some?
    ensures Message(Convert(Panicked(p)).value) == "panic: " + p
  {
  }
}
