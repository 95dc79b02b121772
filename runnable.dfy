/**
 * The runnable: a two-state machine (idle, running) around a bundle of
 * closures.
 *
 * Run is split into the atomic steps it takes under the mutex, and the code
 * between them: Enter (check-and-set of the running flag, a fresh cancellable
 * scope and a fresh stop signal), Body (onStart, then runFunc) and Exit (the
 * deferred onStop, then clearing the flag and closing the signal). Stop is
 * split the same way: BeginStop (check the flag, capture the signal, cancel
 * the scope) and AwaitStop (the select between the caller's context and the
 * run's stop signal). Steps of a Run and of a Stop running at the same time
 * interleave between these calls.
 */
module Lifecycle {
  import opened Errors
  import opened Decorators

  /** The cancellable scope (`runCtx`, `runCancel`) derived for one run. */
  datatype Scope = Scope(id: nat, parent: Ctx, canceled: bool)

  /** The stop signal (`runStop`) of one run. */
  datatype Signal = Signal(id: nat, closed: bool)

  /** What the first half of Stop leaves behind. */
  datatype StopRequest =
    | Rejected(err: Error)                // returned at once
    | Waiting(signal: nat, caller: Ctx)   // waiting in the select

  /** What the select of Stop has done so far. */
  datatype StopResult = Blocked | Finished(err: Option<Error>)

  class Runnable {
    var runFunc: Func
    var onStart: Hook
    var onStop: Hook

    var runCtx: Option<Scope>
    var runStop: Option<Signal>
    var isRunning: bool

    /** How many runs have entered; it gives each run's scope and signal their identity. */
    var runs: nat

    function Closures(): Bundle
      reads this
    {
      Bundle(runFunc, onStart, onStop)
    }

    ghost predicate Valid()
      reads this
    {
      && (runStop.None? ==> runs == 0 && runCtx.None? && !isRunning)
      && (runStop.Some? ==> runCtx.Some? && runStop.value.id == runs && runCtx.value.id == runs)
      && (runStop.Some? ==> (runStop.value.closed <==> !isRunning))
    }

    /** Whether the stop signal of run number `signal` has been closed. */
    function SignalClosed(signal: nat): bool
      reads this
    {
      signal < runs || (runStop.Some? && runStop.value.id == signal && runStop.value.closed)
    }

    /** New: a runnable around the user function, with `options` applied in argument order. */
    constructor New(options: seq<Decorator>)
      ensures Valid() && !isRunning
      ensures Closures() == Build(options)
      ensures runs == 0 && runCtx == None && runStop == None
    {
      runFunc, onStart, onStop := UserFunc, NoHook, NoHook;
      runCtx, runStop, isRunning, runs := None, None, false, 0;
      new;
      for k := 0 to |options|
        invariant Valid() && !isRunning
        invariant runs == 0 && runCtx == None && runStop == None
        invariant Closures() == Build(options[..k])
      {
        BuildSnoc(options[..k], options[k]);
        assert options[..k + 1] == options[..k] + [options[k]];
        ApplyOption(options[k]);
      }
      assert options[..|options|] == options;
    }

    /** `option.apply(r)`: rewire the closures; the lifecycle fields are untouched. */
    method ApplyOption(d: Decorator)
      modifies this
      ensures Closures() == Apply(d, old(Closures()))
      ensures runCtx == old(runCtx) && runStop == old(runStop)
      ensures isRunning == old(isRunning) && runs == old(runs)
    {
      match d
      case Retry(m, ra) =>
        runFunc := RetryFunc(m, ra, runFunc);
      case Status(id, s) =>
        runFunc, onStart, onStop := StatusFunc(id, s, runFunc), StatusHook(id, s, onStart), StatusHook(id, s, onStop);
      case Stats(id, s) =>
        runFunc, onStart, onStop := StatusFunc(id, s, runFunc), StatusHook(id, s, onStart), StatusHook(id, s, onStop);
      case PanicsAsErrors =>
        runFunc := PanicsAsErrorsFunc(runFunc);
      case Recoverer(rep, pr) =>
        runFunc := RecovererFunc(rep, pr, runFunc);
    }

    /**
     * The locked entry of Run: a runnable already running is left exactly as
     * it was and ErrAlreadyRunning is returned; otherwise it becomes running
     * with a fresh, uncancelled scope derived from the caller's context (nil
     * meaning Background) and a fresh, open stop signal.
     */
    method Enter(ctx: Option<Ctx>) returns (err: Option<Error>)
      requires Valid()
      modifies this
      ensures Valid()
      ensures old(isRunning) ==> err == Some(AlreadyRunning) && unchanged(this)
      ensures !old(isRunning) ==>
        && err == None
        && isRunning
        && runs == old(runs) + 1
        && runCtx == Some(Scope(runs, OrBackground(ctx), false))
        && runStop == Some(Signal(runs, false))
        && Closures() == old(Closures())
    {
      var parent := if ctx.Some? then ctx.value else Background;
      if isRunning {
        return Some(AlreadyRunning);
      }
      isRunning := true;
      runs := runs + 1;
      runCtx := Some(Scope(runs, parent, false));
      runStop := Some(Signal(runs, false));
      err := None;
    }

    /**
     * The code of Run between the two locked steps: onStart, then runFunc with
     * the run's scope. Its result is the run's result, and with the deferred
     * onStop after it, it is the whole body of a run.
     */
    method Body(w: World) returns (st: Step)
      requires isRunning
      ensures st.out == RunBody(Closures(), w).out
      ensures st.world.script == RunBody(Closures(), w).world.script
      ensures Step(st.out, FireStop(onStop, st.world)) == RunBody(Closures(), w)
    {
      var w1 := FireStart(onStart, w);
      st := Eval(runFunc, Closures(), w1);
    }

    /**
     * The deferred exit of Run: onStop, then, under the mutex, the flag is
     * cleared and the run's stop signal is closed (exactly once, since it was
     * open).
     */
    method Exit(w: World) returns (w': World)
      requires Valid() && isRunning
      modifies this
      ensures Valid() && !isRunning
      ensures w' == FireStop(onStop, w)
      ensures runStop == Some(Signal(old(runStop).value.id, true)) && !old(runStop).value.closed
      ensures runCtx == old(runCtx) && runs == old(runs) && Closures() == old(Closures())
    {
      w' := FireStop(onStop, w);
      isRunning := false;
      runStop := Some(runStop.value.(closed := true));
    }

    /**
     * Run with no Stop interleaved: the result is exactly runFunc's, and the
     * runnable is idle again afterwards.
     */
    method Run(ctx: Option<Ctx>, w: World) returns (out: Outcome, w': World)
      requires Valid()
      modifies this
      ensures Valid()
      ensures old(isRunning) ==> out == Returned(Some(AlreadyRunning)) && w' == w && unchanged(this)
      ensures !old(isRunning) ==>
        && Step(out, w') == RunBody(old(Closures()), w)
        && !isRunning
        && runs == old(runs) + 1
        && runCtx == Some(Scope(runs, OrBackground(ctx), false))
        && runStop == Some(Signal(runs, true))
        && Closures() == old(Closures())
    {
      var err := Enter(ctx);
      if err.Some? {
        return Returned(err), w;
      }
      var st := Body(w);
      w' := Exit(st.world);
      out := st.out;
    }

    /**
     * The first half of Stop: an idle runnable is left as it was and
     * ErrNotRunning is returned; a running one has its scope cancelled and
     * stays running, since only Run's exit clears the flag.
     */
    method BeginStop(ctx: Option<Ctx>) returns (req: StopRequest)
      requires Valid()
      modifies this
      ensures Valid()
      ensures isRunning == old(isRunning)
      ensures !old(isRunning) ==> req == Rejected(NotRunning) && unchanged(this)
      ensures old(isRunning) ==>
        && req == Waiting(runs, OrBackground(ctx))
        && runCtx == Some(old(runCtx).value.(canceled := true))
        && runCtx.value.id == req.signal
        && runStop == old(runStop) && runs == old(runs) && Closures() == old(Closures())
    {
      var caller := if ctx.Some? then ctx.value else Background;
      if !isRunning {
        return Rejected(NotRunning);
      }
      req := Waiting(runStop.value.id, caller);
      runCtx := Some(runCtx.value.(canceled := true));
    }

    /**
     * The locked part of Stop as written: check the flag and capture the stop
     * signal, changing nothing. The cancellation follows after the mutex is
     * released (CancelCurrent).
     */
    method StopCapture(ctx: Option<Ctx>) returns (req: StopRequest)
      requires Valid()
      ensures !isRunning ==> req == Rejected(NotRunning)
      ensures isRunning ==> req == Waiting(runs, OrBackground(ctx))
    {
      var caller := if ctx.Some? then ctx.value else Background;
      if !isRunning {
        return Rejected(NotRunning);
      }
      req := Waiting(runStop.value.id, caller);
    }

    /**
     * `r.runCancel()` as written: called outside the mutex, it cancels the
     * scope of whichever run is current at that moment.
     */
    method CancelCurrent()
      requires Valid() && runCtx.Some?
      modifies this
      ensures Valid()
      ensures runCtx == Some(old(runCtx).value.(canceled := true))
      ensures isRunning == old(isRunning) && runStop == old(runStop) && runs == old(runs)
      ensures Closures() == old(Closures())
    {
      runCtx := Some(runCtx.value.(canceled := true));
    }

    /**
     * The select of Stop. `callerFirst` says that the caller's context was
     * done before the run's stop signal was closed; Background is never done.
     * Stop returns that context's error, or nil once the signal is closed, and
     * blocks otherwise.
     */
    method AwaitStop(req: StopRequest, callerFirst: bool) returns (res: StopResult)
      requires req.Waiting?
      ensures callerFirst && req.caller != Background ==> res == Finished(Some(DoneErr(req.caller)))
      ensures !(callerFirst && req.caller != Background) ==>
        (res == Finished(None) <==> SignalClosed(req.signal)) &&
        (res == Blocked <==> !SignalClosed(req.signal))
    {
      if callerFirst && req.caller != Background {
        res := Finished(Some(if req.caller == WithCancel then Canceled else DeadlineExceeded));
      } else if req.signal < runs || (runStop.Some? && runStop.value.id == req.signal && runStop.value.closed) {
        res := Finished(None);
      } else {
        res := Blocked;
      }
    }

    /** IsRunning: the flag, read without changing anything. */
    method IsRunning() returns (b: bool)
      ensures b == isRunning
    {
      b := isRunning;
    }
  }
}
