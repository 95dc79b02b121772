/**
 * Decorator composition and what a decorated runFunc does.
 *
 * A runnable holds a bundle of three closures: runFunc, onStart and onStop.
 * Each option's apply replaces some of them with a closure that captures the
 * previous one. Here a closure is a term that names the decorator and the
 * closure it captured, and `Eval` says what calling it does to the world the
 * runnable lives in: the work function's script, the clock, the stores, and
 * the reporter's log.
 */
module Decorators {
  import opened Errors
  import opened Tables
  import WithPanicsAsErrors
  import opened WithRecoverer

  /** Which store (status store or stats collector) a decorator writes to. */
  type StoreRef = nat

  /** `ResetNever`: a reset window of zero disables the reset. */
  const ResetNever: int := 0

  /** The options accepted by New. */
  datatype Decorator =
    | Retry(maxRetries: int, resetAfter: int)          // WithRetry
    | Status(id: Id, store: StoreRef)                  // WithStatus
    | Stats(id: Id, stats: StoreRef)                   // WithStats
    | PanicsAsErrors                                   // WithPanicsAsErrors
    | Recoverer(reporter: Reporter, printer: StackPrinter)  // WithRecoverer

  /** A runFunc closure. */
  datatype Func =
    | UserFunc                                          // the function given to New
    | RetryFunc(maxRetries: int, resetAfter: int, inner: Func)
    | StatusFunc(id: Id, store: StoreRef, inner: Func)  // WithStatus and WithStats
    | PanicsAsErrorsFunc(inner: Func)
    | RecovererFunc(reporter: Reporter, printer: StackPrinter, inner: Func)

  /** An onStart or onStop closure; NoHook is nil. */
  datatype Hook = NoHook | StatusHook(id: Id, store: StoreRef, prev: Hook)

  datatype Bundle = Bundle(runFunc: Func, onStart: Hook, onStop: Hook)

  /** The fields of a runnable right after `&runnable{runFunc: runFunc}`. */
  const Plain: Bundle := Bundle(UserFunc, NoHook, NoHook)

  /** One option's apply. */
  function Apply(d: Decorator, b: Bundle): (r: Bundle)
    ensures !r.runFunc.UserFunc? && r.runFunc.inner == b.runFunc
    ensures !d.Status? && !d.Stats? ==> r.onStart == b.onStart && r.onStop == b.onStop
    ensures d.Status? || d.Stats? ==>
      r.onStart.StatusHook? && r.onStart.prev == b.onStart &&
      r.onStop.StatusHook? && r.onStop.prev == b.onStop
  {
    match d
    case Retry(m, ra) => b.(runFunc := RetryFunc(m, ra, b.runFunc))
    case Status(id, s) => Bundle(StatusFunc(id, s, b.runFunc), StatusHook(id, s, b.onStart), StatusHook(id, s, b.onStop))
    case Stats(id, s) => Bundle(StatusFunc(id, s, b.runFunc), StatusHook(id, s, b.onStart), StatusHook(id, s, b.onStop))
    case PanicsAsErrors => b.(runFunc := PanicsAsErrorsFunc(b.runFunc))
    case Recoverer(rep, pr) => b.(runFunc := RecovererFunc(rep, pr, b.runFunc))
  }

  /** The bundle after applying `opts` in argument order: later options wrap earlier ones. */
  function Build(opts: seq<Decorator>): Bundle
    decreases |opts|
  {
    if opts == [] then Plain else Apply(opts[|opts| - 1], Build(opts[..|opts| - 1]))
  }

  /** How many closures are wrapped around the user function. */
  function Depth(f: Func): nat
  {
    if f.UserFunc? then 0 else 1 + Depth(f.inner)
  }

  /** The decorators that replace the hooks. */
  function HookLayers(opts: seq<Decorator>): nat
    decreases |opts|
  {
    if opts == [] then 0
    else HookLayers(opts[..|opts| - 1]) + (if opts[|opts| - 1].Status? || opts[|opts| - 1].Stats? then 1 else 0)
  }

  function ChainLength(h: Hook): nat
  {
    if h.NoHook? then 0 else 1 + ChainLength(h.prev)
  }

  /**
   * Every option adds exactly one layer around runFunc, and every status or
   * stats option adds one link to each hook chain.
   */
  lemma {:induction false} BuildLayers(opts: seq<Decorator>)
    ensures Depth(Build(opts).runFunc) == |opts|
    ensures ChainLength(Build(opts).onStart) == HookLayers(opts)
    ensures ChainLength(Build(opts).onStop) == HookLayers(opts)
    decreases |opts|
  {
    if opts != [] {
      BuildLayers(opts[..|opts| - 1]);
    }
  }

  /** Building with one more option applies it to the bundle built so far. */
  lemma BuildSnoc(opts: seq<Decorator>, d: Decorator)
    ensures Build(opts + [d]) == Apply(d, Build(opts))
  {
    assert (opts + [d])[..|opts + [d]| - 1] == opts;
  }

  // ---------------------------------------------------------------------------
  // The world a runnable's closures act on.

  datatype World = World(
    script: seq<Outcome>,   // what the user function does on each later invocation
    elapsed: seq<bool>,     // per retry attempt: whether more than the window passed since the last attempt
    clock: Time,            // the next reading of time.Now
    stores: map<StoreRef, Tables>,
    invoked: nat,           // invocations of the user function so far
    starts: nat,            // calls of a non-nil onStart so far
    stops: nat,             // calls of a non-nil onStop so far
    log: seq<Payload>,      // the reporter's log
    stackPrints: nat)       // calls of the stack printer so far

  datatype Step = Step(out: Outcome, world: World)

  function StoreOf(w: World, s: StoreRef): Tables
  {
    if s in w.stores then w.stores[s] else Empty
  }

  /** One lock-protected store update stamped with the current time. */
  function Stamp(w: World, s: StoreRef, id: Id, start: bool): (u: World)
    ensures OnlyStores(w, u) && u.starts == w.starts && u.stops == w.stops
    ensures u.clock == w.clock + 1
    ensures u.stores == w.stores[s := if start then Started(StoreOf(w, s), id, w.clock)
                                           else Stopped(StoreOf(w, s), id, w.clock)]
  {
    var t := StoreOf(w, s);
    w.(stores := w.stores[s := if start then Started(t, id, w.clock) else Stopped(t, id, w.clock)],
       clock := w.clock + 1)
  }

  /** The store, clock and hook counters are all that a hook may change. */
  predicate OnlyStores(w: World, u: World)
  {
    && u.script == w.script && u.elapsed == w.elapsed && u.invoked == w.invoked
    && u.log == w.log && u.stackPrints == w.stackPrints
  }

  /** Running a chain of hooks: each link updates its store, then calls the previous hook. */
  function Chain(h: Hook, start: bool, w: World): (u: World)
    ensures OnlyStores(w, u) && u.starts == w.starts && u.stops == w.stops
  {
    match h
    case NoHook => w
    case StatusHook(id, s, prev) => Chain(prev, start, Stamp(w, s, id, start))
  }

  /** `if r.onStart != nil { r.onStart() }` */
  function FireStart(h: Hook, w: World): (u: World)
    ensures OnlyStores(w, u) && u.stops == w.stops
    ensures u.starts == w.starts + (if h.NoHook? then 0 else 1)
  {
    if h.NoHook? then w else Chain(h, true, w.(starts := w.starts + 1))
  }

  /** `if r.onStop != nil { r.onStop() }` */
  function FireStop(h: Hook, w: World): (u: World)
    ensures OnlyStores(w, u) && u.starts == w.starts
    ensures u.stops == w.stops + (if h.NoHook? then 0 else 1)
  {
    if h.NoHook? then w else Chain(h, false, w.(stops := w.stops + 1))
  }

  /**
   * Calling the runFunc closure `f` of the runnable whose final bundle is `r`.
   * A call that does not return nil consumed at least one step of the script.
   */
  function Eval(f: Func, r: Bundle, w: World): (st: Step)
    ensures |st.world.script| <= |w.script|
    ensures st.out != Returned(None) ==> |st.world.script| < |w.script|
    ensures st.world.invoked >= w.invoked
    decreases f, 0, 0
  {
    match f
    case UserFunc =>
      // once its script is exhausted, the user function returns nil
      var w1 := w.(invoked := w.invoked + 1);
      if w.script == [] then Step(Returned(None), w1)
      else Step(w.script[0], w1.(script := w.script[1..]))
    case RetryFunc(m, ra, inner) =>
      RetryLoop(m, ra, inner, r, 0, None, w)
    case StatusFunc(id, s, inner) =>
      var st := Eval(inner, r, w);
      var w1 := if st.out.Returned? && st.out.err.Some?
        then st.world.(stores := st.world.stores[s := Failed(StoreOf(st.world, s), id, st.out.err.value)])
        else st.world;
      // the deferred update runs on every exit path, a panic included
      Step(st.out, Stamp(w1, s, id, false))
    case PanicsAsErrorsFunc(inner) =>
      var st := Eval(inner, r, w);
      Step(Returned(WithPanicsAsErrors.Convert(st.out)), st.world)
    case RecovererFunc(rep, pr, inner) =>
      var st := Eval(inner, r, w);
      var rc := Recover(st.out, rep, pr);
      Step(Returned(rc.err),
           st.world.(log := Report(rep, rc.reports, st.world.log),
                     stackPrints := st.world.stackPrints + rc.stackPrints))
  }

  /** Whether the next retry attempt sees more than the window elapsed, and the world after that reading. */
  function ReadElapsed(w: World): (bool, World)
  {
    if w.elapsed == [] then (false, w) else (w.elapsed[0], w.(elapsed := w.elapsed[1..]))
  }

  /**
   * The retry loop from index `i`, `err` being the error of the previous
   * attempt: reset the index when the window elapsed, call onStart before a
   * retry (index > 0), stop on nil or on a context error, call onStop after a
   * failed retry, and return the last error once the budget is spent.
   */
  function RetryLoop(maxRetries: int, resetAfter: int, inner: Func, r: Bundle,
                     i: nat, err: Option<Error>, w: World): (st: Step)
    ensures |st.world.script| <= |w.script|
    ensures st.out == Returned(None) || st.out == Returned(err) || |st.world.script| < |w.script|
    ensures st.world.invoked >= w.invoked
    decreases inner, 1, |w.script|
  {
    if i >= maxRetries then Step(Returned(err), w)
    else
      var (elapsed, w0) := ReadElapsed(w);
      var j := if resetAfter != ResetNever && elapsed then 0 else i;
      var w1 := if j > 0 then FireStart(r.onStart, w0) else w0;
      var st := Eval(inner, r, w1);
      if st.out.Panicked? || st.out.err == None || IsContextError(st.out.err.value) then st
      else
        var w2 := if j > 0 then FireStop(r.onStop, st.world) else st.world;
        RetryLoop(maxRetries, resetAfter, inner, r, j + 1, st.out.err, w2)
  }

  /**
   * Run's body once it has entered the running state: onStart, then runFunc,
   * then (deferred) onStop.
   */
  function RunBody(r: Bundle, w: World): (st: Step)
    ensures var inner := Eval(r.runFunc, r, FireStart(r.onStart, w));
      && st.out == inner.out
      && st.world.script == inner.world.script
      && st.world.stops == inner.world.stops + (if r.onStop.NoHook? then 0 else 1)
  {
    var st := Eval(r.runFunc, r, FireStart(r.onStart, w));
    Step(st.out, FireStop(r.onStop, st.world))
  }
}
