/**
 * Decorators combined: what the status decorator does around any inner
 * runFunc, and the behaviours pinned by the library's tests, derived from the
 * model.
 */
module Composition {
  import opened Errors
  import opened Tables
  import opened WithRecoverer
  import opened Decorators
  import opened WithRetry
  import opened Lifecycle

  /**
   * The status decorator's runFunc returns the inner result unchanged; on
   * exit its id is marked not running with an end time, a non-nil error
   * becomes its last error and any other result leaves the last error as it
   * was; no other id and no other store changes.
   */
  lemma StatusWrapsRunFunc(id: Id, s: StoreRef, inner: Func, r: Bundle, w: World)
    ensures var before := Eval(inner, r, w);
      var after := Eval(StatusFunc(id, s, inner), r, w);
      var t0 := StoreOf(before.world, s);
      var t := StoreOf(after.world, s);
      && after.out == before.out
      && id in t.running && !t.running[id] && id in t.endTime
      && (before.out.Returned? && before.out.err.Some? ==>
            id in t.lastError && t.lastError[id] == before.out.err.value)
      && (!(before.out.Returned? && before.out.err.Some?) ==> t.lastError == t0.lastError)
      && t.restarts == t0.restarts && t.startTime == t0.startTime
      && AgreeOutside(t0, t, id)
      && (forall s' :: s' != s ==> StoreOf(after.world, s') == StoreOf(before.world, s'))
  {
    hide Eval;
    var tf, now := StatusExit(id, s, inner, r, w);
    var before := Eval(inner, r, w);
    if before.out.Returned? && before.out.err.Some? {
      UpdateOnlyTouchesId(StoreOf(before.world, s), id, Fail(before.out.err.value));
    }
    UpdateOnlyTouchesId(tf, id, Stop(now));
  }

  /** The exit of the status decorator's runFunc as updates of its store: the failure, if any, then the stop. */
  lemma StatusExit(id: Id, s: StoreRef, inner: Func, r: Bundle, w: World) returns (tf: Tables, now: Time)
    ensures var before := Eval(inner, r, w);
      var after := Eval(StatusFunc(id, s, inner), r, w);
      && after.out == before.out
      && tf == (if before.out.Returned? && before.out.err.Some?
                then Update(StoreOf(before.world, s), id, Fail(before.out.err.value))
                else StoreOf(before.world, s))
      && now == before.world.clock
      && StoreOf(after.world, s) == Update(tf, id, Stop(now))
      && (forall s' :: s' != s ==> StoreOf(after.world, s') == StoreOf(before.world, s'))
  {
    var before := Eval(inner, r, w);
    var after := Eval(StatusFunc(id, s, inner), r, w);
    var t0 := StoreOf(before.world, s);
    var failed := before.out.Returned? && before.out.err.Some?;
    var w1 := if failed
      then before.world.(stores := before.world.stores[s := Failed(t0, id, before.out.err.value)])
      else before.world;
    assert after == Step(before.out, Stamp(w1, s, id, false));
    hide Eval;
    tf, now := StoreOf(w1, s), w1.clock;
  }

  // ---------------------------------------------------------------------------
  // The tests of the retry decorator.

  const AnError: Error := WorkError(1)

  /** A single option applied to the plain runnable. */
  lemma BuildOne(d: Decorator)
    ensures Build([d]) == Apply(d, Plain)
  {
    BuildSnoc([], d);
    assert [] + [d] == [d];
  }

  /** A hook chain of one status link is one stamped store update. */
  lemma OneHook(id: Id, s: StoreRef, start: bool, w: World)
    ensures Chain(StatusHook(id, s, NoHook), start, w) == Stamp(w, s, id, start)
  {
    assert Chain(StatusHook(id, s, NoHook), start, w) == Chain(NoHook, start, Stamp(w, s, id, start));
  }

  /** Two options, the second wrapping the first. */
  lemma BuildTwo(d: Decorator, e: Decorator)
    ensures Build([d, e]) == Apply(e, Apply(d, Plain))
  {
    BuildOne(d);
    BuildSnoc([d], e);
    assert [d] + [e] == [d, e];
  }

  /** Fails once, then succeeds, under WithRetry(3, ResetNever): nil after two invocations. */
  lemma RetryOnceThenSucceed(w: World)
    requires w.script == [Returned(Some(AnError)), Returned(None)]
    ensures var st := RunBody(Build([Retry(3, ResetNever)]), w);
      st.out == Returned(None) && st.world.invoked == w.invoked + 2
  {
    var b := Build([Retry(3, ResetNever)]);
    BuildOne(Retry(3, ResetNever));
    SucceedsWithinBudget(3, b, 0, None, w, 1);
  }

  /** Always fails under WithRetry(3, ResetNever): the error after exactly three invocations. */
  lemma RetryAlwaysFails(w: World)
    requires |w.script| >= 3
    requires forall k :: 0 <= k < |w.script| ==> w.script[k] == Returned(Some(AnError))
    ensures var st := RunBody(Build([Retry(3, ResetNever)]), w);
      st.out == Returned(Some(AnError)) && st.world.invoked == w.invoked + 3
  {
    var b := Build([Retry(3, ResetNever)]);
    BuildOne(Retry(3, ResetNever));
    ExhaustsBudget(3, b, 0, None, w);
  }

  /**
   * Five failures spaced beyond a 100 ms window, then a success, under
   * WithRetry(3, 100ms): the budget never runs out; nil after six invocations.
   */
  lemma RetryResetWindow(w: World)
    requires |w.script| == 6
    requires forall k :: 0 <= k < 5 ==> w.script[k] == Returned(Some(AnError))
    requires w.script[5] == Returned(None)
    requires |w.elapsed| >= 6 && forall k :: 0 <= k < 6 ==> w.elapsed[k]
    ensures var st := RunBody(Build([Retry(3, 100_000_000)]), w);
      st.out == Returned(None) && st.world.invoked == w.invoked + 6
  {
    var b := Build([Retry(3, 100_000_000)]);
    BuildOne(Retry(3, 100_000_000));
    ResetKeepsRetrying(3, 100_000_000, b, 0, None, w, 5);
  }

  // ---------------------------------------------------------------------------
  // The tests of the status and stats decorators.

  /**
   * A run under WithStatus that returns nil: while the function runs the
   * snapshot shows it running with restart counter 0 and no end time; once
   * Run has returned it shows it stopped with an end time and no last error.
   */
  lemma StatusWhileRunning(w: World, useStats: bool)
    requires w.script == [Returned(None)]
    requires StoreOf(w, 0) == Empty
    ensures var b := Build([if useStats then Stats("test", 0) else Status("test", 0)]);
      var during := Snapshot(StoreOf(FireStart(b.onStart, w), 0));
      var after := Snapshot(StoreOf(RunBody(b, w).world, 0));
      && "test" in during && during["test"] == Record(true, 0, w.clock, None, None)
      && RunBody(b, w).out == Returned(None)
      && "test" in after && !after["test"].running && after["test"].endTime.Some?
      && after["test"].lastError == None
  {
    var d := if useStats then Stats("test", 0) else Status("test", 0);
    BuildOne(d);
    hide RunBody;
    hide FireStart;
    StatusRunSucceeds(Build([d]), w);
  }

  /** The run of the bundle that WithStatus("test", store 0) builds around a function that returns nil. */
  lemma StatusRunSucceeds(b: Bundle, w: World)
    requires b == Bundle(StatusFunc("test", 0, UserFunc), StatusHook("test", 0, NoHook), StatusHook("test", 0, NoHook))
    requires w.script == [Returned(None)]
    requires StoreOf(w, 0) == Empty
    ensures var after := StoreOf(RunBody(b, w).world, 0);
      && StoreOf(FireStart(b.onStart, w), 0) == Started(Empty, "test", w.clock)
      && RunBody(b, w).out == Returned(None)
      && "test" in after.running && !after.running["test"] && "test" in after.endTime
      && "test" !in after.lastError
  {
    var w1 := FireStart(b.onStart, w);
    assert StoreOf(w1, 0) == Started(Empty, "test", w.clock) by {
      OneHook("test", 0, true, w.(starts := w.starts + 1));
    }
    var st := Eval(b.runFunc, b, w1);
    assert st.out == Returned(None) && "test" !in StoreOf(st.world, 0).lastError by {
      StatusWrapsRunFunc("test", 0, UserFunc, b, w1);
      var user := Eval(UserFunc, b, w1);
      assert user.out == Returned(None) && user.world.stores == w1.stores;
    }
    hide Eval;
    var u := StoreOf(FireStop(b.onStop, st.world), 0);
    assert u == Stopped(StoreOf(st.world, 0), "test", st.world.clock) by {
      OneHook("test", 0, false, st.world.(stops := st.world.stops + 1));
    }
  }

  /** A failing run under WithStatus: Running is false and LastError is the error returned. */
  lemma StatusRecordsFailure(w: World, useStats: bool)
    requires w.script == [Returned(Some(AnError))]
    requires StoreOf(w, 0) == Empty
    ensures var st := RunBody(Build([if useStats then Stats("test", 0) else Status("test", 0)]), w);
      var sm := Snapshot(StoreOf(st.world, 0));
      && st.out == Returned(Some(AnError))
      && "test" in sm && !sm["test"].running && sm["test"].lastError == Some(AnError)
  {
    var d := if useStats then Stats("test", 0) else Status("test", 0);
    BuildOne(d);
    var b := Build([d]);
    assert Eval(UserFunc, b, FireStart(b.onStart, w)).out == Returned(Some(AnError));
    StatusRunRecordsError("test", 0, UserFunc, b, w);
  }

  /**
   * WithStatus then WithRetry(3, ResetNever), failing once then succeeding:
   * nil, Running false and Restarts 1 (the retry calls the status onStart
   * once more).
   */
  lemma StatusWithRetryCountsRestart(w: World, useStats: bool)
    requires w.script == [Returned(Some(AnError)), Returned(None)]
    requires StoreOf(w, 0) == Empty
    ensures var st := RunBody(Build([if useStats then Stats("test", 0) else Status("test", 0), Retry(3, ResetNever)]), w);
      var sm := Snapshot(StoreOf(st.world, 0));
      && st.out == Returned(None)
      && "test" in sm && !sm["test"].running && sm["test"].restarts == 1
  {
    var d := if useStats then Stats("test", 0) else Status("test", 0);
    BuildTwo(d, Retry(3, ResetNever));
    RetriedStatusRun(Build([d, Retry(3, ResetNever)]), w);
  }

  /** The run of the bundle that WithStatus then WithRetry(3, ResetNever) build. */
  lemma RetriedStatusRun(b: Bundle, w: World)
    requires b == Bundle(RetryFunc(3, ResetNever, StatusFunc("test", 0, UserFunc)),
                         StatusHook("test", 0, NoHook), StatusHook("test", 0, NoHook))
    requires w.script == [Returned(Some(AnError)), Returned(None)]
    requires StoreOf(w, 0) == Empty
    ensures var st := RunBody(b, w);
      var sm := Snapshot(StoreOf(st.world, 0));
      && st.out == Returned(None)
      && "test" in sm && !sm["test"].running && sm["test"].restarts == 1
  {
    hide RetryLoop;
    var hook := StatusHook("test", 0, NoHook);
    var inner := StatusFunc("test", 0, UserFunc);
    // Run's onStart: the counter appears at 0
    var w1 := FireStart(hook, w);
    assert "test" in StoreOf(w1, 0).restarts && StoreOf(w1, 0).restarts["test"] == 0 && w1.script == w.script by {
      OneHook("test", 0, true, w.(starts := w.starts + 1));
    }
    // the failed attempt, then the retry
    var st0 := Eval(inner, b, ReadElapsed(w1).1);
    var st1 := RetryLoop(3, ResetNever, inner, b, 1, Some(AnError), st0.world);
    assert Eval(b.runFunc, b, w1) == st1
        && st1.out == Returned(None)
        && "test" in StoreOf(st1.world, 0).restarts && StoreOf(st1.world, 0).restarts["test"] == 1 by {
      FailedFirstAttempt(b, w1);
      SucceededRetry(b, st0.world);
    }
    // Run's onStop
    var w2 := FireStop(hook, st1.world);
    assert RunBody(b, w) == Step(st1.out, w2);
    var u := StoreOf(w2, 0);
    assert u == Stopped(StoreOf(st1.world, 0), "test", st1.world.clock) by {
      OneHook("test", 0, false, st1.world.(stops := st1.world.stops + 1));
    }
    assert "test" in u.running && RecordOf(u, "test").restarts == 1;
  }

  /** The first attempt under status then retry fails at index 0: no hook, the counter stays at 0. */
  lemma FailedFirstAttempt(b: Bundle, w: World)
    requires b == Bundle(RetryFunc(3, ResetNever, StatusFunc("test", 0, UserFunc)),
                         StatusHook("test", 0, NoHook), StatusHook("test", 0, NoHook))
    requires w.script == [Returned(Some(AnError)), Returned(None)]
    requires "test" in StoreOf(w, 0).restarts && StoreOf(w, 0).restarts["test"] == 0
    ensures var st0 := Eval(b.runFunc.inner, b, ReadElapsed(w).1);
      && st0.world.script == [Returned(None)]
      && "test" in StoreOf(st0.world, 0).restarts && StoreOf(st0.world, 0).restarts["test"] == 0
      && RetryLoop(3, ResetNever, b.runFunc.inner, b, 0, None, w)
         == RetryLoop(3, ResetNever, b.runFunc.inner, b, 1, Some(AnError), st0.world)
  {
    hide RetryLoop;
    var w0 := ReadElapsed(w).1;
    var st0 := Eval(b.runFunc.inner, b, w0);
    assert st0.out == Returned(Some(AnError)) && st0.world.script == [Returned(None)]
        && StoreOf(st0.world, 0).restarts == StoreOf(w0, 0).restarts by {
      StatusWrapsRunFunc("test", 0, UserFunc, b, w0);
      var user := Eval(UserFunc, b, w0);
      assert user.out == Returned(Some(AnError)) && user.world.stores == w0.stores;
      assert user.world.script == [Returned(None)];
    }
    hide Eval;
    assert RetryLoop(3, ResetNever, b.runFunc.inner, b, 0, None, w)
        == RetryLoop(3, ResetNever, b.runFunc.inner, b, 1, Some(AnError), st0.world) by {
      assert AttemptIndex(ResetNever, 0, w) == 0;
      FailedAttempt(3, ResetNever, b.runFunc.inner, b, 0, None, w);
    }
  }

  /** The retry at index 1: onStart adds 1 to the counter, then the attempt returns nil. */
  lemma SucceededRetry(b: Bundle, w: World)
    requires b == Bundle(RetryFunc(3, ResetNever, StatusFunc("test", 0, UserFunc)),
                         StatusHook("test", 0, NoHook), StatusHook("test", 0, NoHook))
    requires w.script == [Returned(None)]
    requires "test" in StoreOf(w, 0).restarts && StoreOf(w, 0).restarts["test"] == 0
    ensures var st := RetryLoop(3, ResetNever, b.runFunc.inner, b, 1, Some(AnError), w);
      && st.out == Returned(None)
      && "test" in StoreOf(st.world, 0).restarts && StoreOf(st.world, 0).restarts["test"] == 1
  {
    hide RetryLoop;
    var w2 := ReadElapsed(w).1;
    var w3 := FireStart(b.onStart, w2);
    assert "test" in StoreOf(w3, 0).restarts && StoreOf(w3, 0).restarts["test"] == 1 && w3.script == w.script by {
      OneHook("test", 0, true, w2.(starts := w2.starts + 1));
    }
    var st := Eval(b.runFunc.inner, b, w3);
    assert st.out == Returned(None) && StoreOf(st.world, 0).restarts == StoreOf(w3, 0).restarts by {
      StatusWrapsRunFunc("test", 0, UserFunc, b, w3);
      var user := Eval(UserFunc, b, w3);
      assert user.out == Returned(None) && user.world.stores == w3.stores;
    }
    hide Eval;
    assert RetryLoop(3, ResetNever, b.runFunc.inner, b, 1, Some(AnError), w) == st by {
      assert AttemptIndex(ResetNever, 1, w) == 1;
      FinalAttempt(3, ResetNever, b.runFunc.inner, b, 1, Some(AnError), w);
    }
  }

  // ---------------------------------------------------------------------------
  // The tests of the panic decorators.

  const Boom: Payload := "something went wrong"

  /** A panicking function under WithPanicsAsErrors returns a non-nil error. */
  lemma PanicBecomesError(w: World)
    requires w.script == [Panicked(Boom)]
    ensures RunBody(Build([PanicsAsErrors]), w).out == Returned(Some(PanicError(Boom)))
  {
    assert Build([PanicsAsErrors]) == Bundle(PanicsAsErrorsFunc(UserFunc), NoHook, NoHook);
  }

  /** A function that returns nil under WithPanicsAsErrors: Run returns nil. */
  lemma NoPanicUnaffected(w: World)
    requires w.script == [Returned(None)]
    ensures RunBody(Build([PanicsAsErrors]), w).out == Returned(None)
  {
    assert Build([PanicsAsErrors]) == Bundle(PanicsAsErrorsFunc(UserFunc), NoHook, NoHook);
  }

  /** WithPanicsAsErrors then WithStatus: a panic is recorded as a non-nil LastError, Running false. */
  lemma PanicRecordedByStatus(w: World)
    requires w.script == [Panicked(Boom)]
    requires StoreOf(w, 0) == Empty
    ensures var st := RunBody(Build([PanicsAsErrors, Status("test", 0)]), w);
      var sm := Snapshot(StoreOf(st.world, 0));
      && st.out.Returned? && st.out.err.Some?
      && "test" in sm && !sm["test"].running && sm["test"].lastError.Some?
  {
    BuildTwo(PanicsAsErrors, Status("test", 0));
    var b := Build([PanicsAsErrors, Status("test", 0)]);
    var w1 := FireStart(b.onStart, w);
    assert Eval(PanicsAsErrorsFunc(UserFunc), b, w1).out == Returned(Some(PanicError(Boom)));
    StatusRunRecordsError("test", 0, PanicsAsErrorsFunc(UserFunc), b, w);
  }

  /**
   * The run of a bundle whose outermost option is WithStatus or WithStats,
   * over any earlier options: when the wrapped function returns an error, the
   * snapshot of the option's store shows it as the id's LastError and Running
   * is false, whatever the earlier options' onStop hooks do afterwards.
   */
  lemma StatusRunRecordsError(id: Id, s: StoreRef, inner: Func, b: Bundle, w: World)
    requires b.runFunc == StatusFunc(id, s, inner)
    requires b.onStop.StatusHook? && b.onStop.id == id && b.onStop.store == s
    requires var o := Eval(inner, b, FireStart(b.onStart, w)).out; o.Returned? && o.err.Some?
    ensures var st := RunBody(b, w);
      var sm := Snapshot(StoreOf(st.world, s));
      && st.out == Eval(inner, b, FireStart(b.onStart, w)).out
      && id in sm && !sm[id].running
      && sm[id].lastError == st.out.err
  {
    var w1 := FireStart(b.onStart, w);
    var st := Eval(b.runFunc, b, w1);
    StatusWrapsRunFunc(id, s, inner, b, w1);
    var u := Stamp(st.world.(stops := st.world.stops + 1), s, id, false);
    assert StoreOf(u, s) == Stopped(StoreOf(st.world, s), id, st.world.clock);
    StopChainKeeps(b.onStop.prev, s, id, u);
    assert RunBody(b, w).world == Chain(b.onStop.prev, false, u);
  }

  /** A chain of onStop links never marks an id running again and never changes a last error. */
  lemma {:induction false} StopChainKeeps(h: Hook, s: StoreRef, id: Id, w: World)
    requires id in StoreOf(w, s).running && !StoreOf(w, s).running[id]
    ensures var t := StoreOf(Chain(h, false, w), s);
      && id in t.running && !t.running[id]
      && t.lastError == StoreOf(w, s).lastError
    decreases h
  {
    match h
    case NoHook =>
    case StatusHook(id', s', prev) =>
      var u := Stamp(w, s', id', false);
      assert id in StoreOf(u, s).running && !StoreOf(u, s).running[id];
      assert StoreOf(u, s).lastError == StoreOf(w, s).lastError;
      StopChainKeeps(prev, s, id, u);
  }

  /**
   * WithRecoverer(reporter, nil): a panic runs the function once, returns an
   * error, and the reporter's log holds exactly the payload.
   */
  lemma RecovererReportsOnce(w: World)
    requires w.script == [Panicked(Boom)] && w.log == []
    ensures var st := RunBody(Build([Recoverer(LogReporter, NilPrinter)]), w);
      && st.out.Returned? && st.out.err.Some?
      && st.world.invoked == w.invoked + 1
      && st.world.log == [Boom]
      && st.world.stackPrints == w.stackPrints
  {
    assert Build([Recoverer(LogReporter, NilPrinter)]) == Bundle(RecovererFunc(LogReporter, NilPrinter, UserFunc), NoHook, NoHook);
  }

  /** WithRecoverer then WithStatus: a panic is recorded as a non-nil LastError, Running false. */
  lemma RecovererRecordedByStatus(w: World)
    requires w.script == [Panicked(Boom)]
    requires StoreOf(w, 0) == Empty
    ensures var st := RunBody(Build([Recoverer(LogReporter, NilPrinter), Status("test", 0)]), w);
      var sm := Snapshot(StoreOf(st.world, 0));
      && st.out.Returned? && st.out.err.Some?
      && "test" in sm && !sm["test"].running && sm["test"].lastError.Some?
  {
    BuildTwo(Recoverer(LogReporter, NilPrinter), Status("test", 0));
    var b := Build([Recoverer(LogReporter, NilPrinter), Status("test", 0)]);
    var w1 := FireStart(b.onStart, w);
    assert Eval(RecovererFunc(LogReporter, NilPrinter, UserFunc), b, w1).out == Returned(Some(PanicError(Boom)));
    StatusRunRecordsError("test", 0, RecovererFunc(LogReporter, NilPrinter, UserFunc), b, w);
  }

  // ---------------------------------------------------------------------------
  // The tests of the lifecycle, as sequences of atomic steps.

  /** Stop before any Run: ErrNotRunning, and the runnable stays idle. */
  method StopBeforeRun() returns (req: StopRequest, running: bool)
    ensures req == Rejected(NotRunning) && !running
  {
    var r := new Runnable.New([]);
    req := r.BeginStop(Some(WithTimeout));
    running := r.IsRunning();
  }

  /**
   * A run that returns within the stop caller's deadline: running while the
   * function runs; Stop returns nil once the run has exited, and the
   * runnable is idle.
   */
  method StopWithinDeadline(w: World) returns (out: Outcome, during: bool, res: StopResult, after: bool)
    requires w.script != []
    ensures out == w.script[0] && during && res == Finished(None) && !after
  {
    var r := new Runnable.New([]);
    var err := r.Enter(Some(WithTimeout));
    during := r.IsRunning();
    var req := r.BeginStop(Some(WithTimeout));
    var st := r.Body(w);
    var w' := r.Exit(st.world);
    res := r.AwaitStop(req, false);
    after := r.IsRunning();
    out := st.out;
  }

  /**
   * The stop caller's deadline passes first: Stop returns
   * context.DeadlineExceeded and the runnable is still running until its
   * function returns.
   */
  method StopDeadlineFirst(w: World) returns (res: StopResult, duringStop: bool, afterExit: bool)
    ensures res == Finished(Some(DeadlineExceeded)) && duringStop && !afterExit
  {
    var r := new Runnable.New([]);
    var err := r.Enter(Some(Background));
    var req := r.BeginStop(Some(WithTimeout));
    res := r.AwaitStop(req, true);
    duringStop := r.IsRunning();
    var st := r.Body(w);
    var w' := r.Exit(st.world);
    afterExit := r.IsRunning();
  }

  /** A second Run while the first is running gets ErrAlreadyRunning and leaves the first run's scope alone. */
  method RunWhileRunning() returns (second: Option<Error>, sameScope: bool, running: bool)
    ensures second == Some(AlreadyRunning) && sameScope && running
  {
    var r := new Runnable.New([]);
    var first := r.Enter(None);
    var scope := r.runCtx;
    second := r.Enter(Some(WithCancel));
    sameScope := r.runCtx == scope;
    running := r.IsRunning();
  }

  /**
   * Stop as written, interleaved with two runs: Stop captures the first run's
   * signal, the first run exits and a second run enters before Stop calls
   * runCancel. Stop then returns nil, the second run is running, and it is
   * the second run's scope that was cancelled.
   */
  method LateCancelHitsNextRun(w: World) returns (res: StopResult, running: bool, cancelled: Option<Scope>)
    ensures res == Finished(None) && running
    ensures cancelled == Some(Scope(2, Background, true))
  {
    var r := new Runnable.New([]);
    var first := r.Enter(None);
    var req := r.StopCapture(Some(Background));
    var st := r.Body(w);
    var w' := r.Exit(st.world);
    var second := r.Enter(None);
    r.CancelCurrent();
    res := r.AwaitStop(req, false);
    running := r.IsRunning();
    cancelled := r.runCtx;
  }

  /**
   * The same interleaving with the cancellation made under the mutex
   * (BeginStop): the first run's scope is the one cancelled, and the second
   * run starts with a scope nobody cancelled.
   */
  method CancelUnderLockSparesNextRun(w: World) returns (res: StopResult, firstScope: Option<Scope>, secondScope: Option<Scope>)
    ensures res == Finished(None)
    ensures firstScope == Some(Scope(1, Background, true))
    ensures secondScope == Some(Scope(2, Background, false))
  {
    var r := new Runnable.New([]);
    var first := r.Enter(None);
    var req := r.BeginStop(Some(Background));
    firstScope := r.runCtx;
    var st := r.Body(w);
    var w' := r.Exit(st.world);
    var second := r.Enter(None);
    secondScope := r.runCtx;
    res := r.AwaitStop(req, false);
  }
}
