/**
 * WithRecoverer: like WithPanicsAsErrors, and on a recovered panic it also
 * prints the stack through a stack printer and reports the raw payload to a
 * reporter, each only when it is non-nil.
 */
module WithRecoverer {
  import opened Errors
  import WithPanicsAsErrors

  /** The reporter handed to WithRecoverer. */
  datatype Reporter =
    | NilReporter     // nil: never called
    | NoopReporter    // NoopReporter: Report does nothing
    | LogReporter     // a reporter that appends each payload to its log

  /** The stack printer handed to WithRecoverer. */
  datatype StackPrinter = NilPrinter | Printer

  /**
   * What the wrapped runFunc does for one outcome of the inner runFunc: the
   * error it returns, the payloads passed to the reporter's Report, and how
   * many times the stack printer's Print was called.
   */
  datatype Recovery = Recovery(err: Option<Error>, reports: seq<Payload>, stackPrints: nat)

  function Recover(o: Outcome, reporter: Reporter, printer: StackPrinter): (rc: Recovery)
    ensures o.Returned? ==> rc == Recovery(o.err, [], 0)
    ensures o.Panicked? ==> rc.err == Some(PanicError(o.payload))
    ensures o.Panicked? ==> rc.stackPrints == (if printer == NilPrinter then 0 else 1)
    ensures o.Panicked? ==> rc.reports == (if reporter == NilReporter then [] else [o.payload])
  {
    match o
    case Returned(e) =>
      // no panic: the deferred function does nothing and innerRun's error is returned
      Recovery(e, [], 0)
    case Panicked(p) =>
      var printed := if printer != NilPrinter then 1 else 0;
      var reported := if reporter != NilReporter then [p] else [];
      Recovery(Some(PanicError(p)), reported, printed)
  }

  /** The reporter's log after its Report was called with each of `payloads`. */
  function Report(reporter: Reporter, payloads: seq<Payload>, log: seq<Payload>): (r: seq<Payload>)
    ensures reporter != LogReporter ==> r == log
    ensures reporter == LogReporter ==> r == log + payloads
  {
    if reporter == LogReporter then log + payloads else log
  }

  /** The recoverer and WithPanicsAsErrors return the same error for every outcome. */
  lemma RecoverMatchesPanicsAsErrors(o: Outcome, reporter: Reporter, printer: StackPrinter)
    ensures Recover(o, reporter, printer).err == WithPanicsAsErrors.Convert(o)
  {
  }
}
