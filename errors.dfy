/**
 * Error values of the runnable library.
 *
 * Go's `error` is a nullable interface; here an absent error (nil) is `None`
 * and a present one is `Some(e)`. The package-level sentinels and the context
 * errors become constructors that are compared by equality, which is what
 * `errors.Is` does for unwrapped errors.
 */
module Errors {

  datatype Option<+T> = None | Some(value: T)

  /** A recovered panic value, formatted with `%v`. */
  type Payload = string

  datatype Error =
    | AlreadyRunning           // ErrAlreadyRunning
    | NotRunning               // ErrNotRunning
    | Canceled                 // context.Canceled
    | DeadlineExceeded         // context.DeadlineExceeded
    | PanicError(payload: Payload)  // fmt.Errorf("panic: %v", payload)
    | WorkError(code: nat)     // any other error returned by the work function

  /** The text of an error, as `Error()` would give it. */
  function Message(e: Error): string
  {
    match e
    case AlreadyRunning => "already running"
    case NotRunning => "not running"
    case Canceled => "context canceled"
    case DeadlineExceeded => "context deadline exceeded"
    case PanicError(p) => "panic: " + p
    case WorkError(_) => "work error"
  }

  /** `errors.Is(err, context.Canceled) || errors.Is(err, context.DeadlineExceeded)` */
  predicate IsContextError(e: Error)
  {
    e == Canceled || e == DeadlineExceeded
  }

  /**
   * What one invocation of a work function does: it returns an error (or nil),
   * or it panics with a payload.
   */
  datatype Outcome = Returned(err: Option<Error>) | Panicked(payload: Payload)

  /** A context handed to Run or Stop; `None` stands for a nil context. */
  datatype Ctx =
    | Background     // never done
    | WithCancel     // done when cancelled; Err() is Canceled
    | WithTimeout    // done when the deadline passes; Err() is DeadlineExceeded

  /** `ctx.Err()` once `ctx.Done()` has fired. */
  function DoneErr(c: Ctx): (e: Error)
    requires c != Background
    ensures IsContextError(e)
  {
    if c == WithCancel then Canceled else DeadlineExceeded
  }

  /** Run and Stop treat a nil context as `context.Background()`. */
  function OrBackground(ctx: Option<Ctx>): (c: Ctx)
    ensures ctx == None ==> c == Background
    ensures ctx.Some? ==> c == ctx.value
  {
    if ctx.Some? then ctx.value else Background
  }
}
