# runnable — a Dafny model

The Go package `runnable` wraps a work function `runFunc(ctx) error` in a
small lifecycle object. `Run` moves it from idle to running and calls the
function. `Stop` cancels the run's context and waits for the run to exit.
`IsRunning` reads the flag. Options given to `New` decorate the runnable:

- `WithRetry(maxRetries, resetAfter)` calls the function again after an error,
  with an optional window after which the attempt counter resets.
- `WithStatus(id, store)` and `WithStats(id, stats)` record running, restart
  count, start and end times and the last error in a shared store.
- `WithPanicsAsErrors()` turns a panic into the error `panic: <value>`.
- `WithRecoverer(reporter, printer)` does the same, and also prints the stack
  and reports the panic value when those are non-nil.

Each option's `apply` replaces `runFunc`, and the status options also replace
`onStart` and `onStop`, with closures that capture the previous ones. So
options apply in argument order and later ones wrap earlier ones.

The model has these modules:

- `Errors`: error values, a nil error as `None`, contexts, and `Outcome` (an
  invocation returns an error or panics).
- `Tables`: the five maps of a status store as a value, the three
  lock-protected updates, the snapshot `Get` returns, and lemmas about
  histories of updates.
- `WithStatus.StatusStore` and `WithStats.Stats`: classes whose map fields
  are updated in place. Each method is proved to perform the matching pure
  update; `Get` builds the snapshot in a loop.
- `WithPanicsAsErrors` and `WithRecoverer`: what the wrapper returns for each
  outcome of the inner function, and what it reports.
- `Decorators`: closures as terms (`Func`, `Hook`, `Bundle`), `Apply` and
  `Build` for option application, and `Eval`, which says what calling a
  decorated `runFunc` does to a `World`. The world holds:
  - the work function's script of outcomes;
  - the retry clock readings;
  - the clock;
  - the stores;
  - counters;
  - the reporter's log.
- `WithRetry`: the retry loop as an imperative method, proved equal to
  `Eval`, and its properties.
- `Lifecycle.Runnable`: the lifecycle state machine as a class. `Run` is split
  into its locked entry, its body and its deferred exit, and `Stop` into its
  locked part and its select. Steps of concurrent calls interleave between
  these methods.
- `Composition`: what the status decorator does around any function, and the
  library's test scenarios derived from the model.

## Model

| member | source | states |
|---|---|---|
| Errors.DoneErr | runnable.go:141-143 | once a non-background context is done, its error is `context.Canceled` or `context.DeadlineExceeded` |
| Errors.OrBackground | runnable.go:126-128 | a nil context is treated as `context.Background()`, any other is kept |
| Tables.UpdateOnlyTouchesId | with_status.go:82-127 | each store update of a decorated runnable changes only the entries of its own id |
| Tables.ReplayOnlyTouchesId | with_status.go:82-127 | any sequence of updates by one runnable leaves every other id's entries unchanged |
| Tables.ReplayRestarts | with_status.go:105-109 | the restart counter is absent until the first start, which sets it to 0; every later start adds exactly 1 |
| Tables.ReplayLastError | with_status.go:90-95 | the last error is sticky: only an error result replaces it, and otherwise it keeps its earlier value or stays absent |
| Tables.ReplayRunning | with_status.go:85-121 | the running flag is the value set by the last start or stop update, or unchanged if there was none |
| WithStatus.StatusStore.constructor | with_status.go:29-37 | a new store has five empty maps |
| WithStatus.StatusStore.MarkStarted | with_status.go:101-111 | marks the id running at `now`, and starts its restart counter at 0 or adds 1; the end time and last error are unchanged |
| WithStatus.StatusStore.MarkStopped | with_status.go:119-122 | marks the id not running with end time `now`; restarts, start time and last error are unchanged |
| WithStatus.StatusStore.RecordError | with_status.go:92-94 | sets the id's last error; the other four maps are unchanged |
| WithStatus.StatusStore.Get | with_status.go:39-70 | returns exactly one record per id of the running map. Restarts, start time and last error are copied when present and zero otherwise. EndTime is set if and only if an end time was recorded |
| WithStats.Stats.constructor | with_stats.go:31-39 | a new collector has five empty maps |
| WithStats.Stats.MarkStarted | with_stats.go:103-114 | same update as the status store's onStart |
| WithStats.Stats.MarkStopped | with_stats.go:121-125 | same update as the status store's onStop |
| WithStats.Stats.RecordError | with_stats.go:94-98 | sets the id's last error and nothing else |
| WithStats.Stats.Get | with_stats.go:41-73 | the view holds one record per id of the running map, with the same fields as the status snapshot |
| WithPanicsAsErrors.Convert | with_panics_as_errors.go:15-33 | a returned error (or nil) passes through unchanged; a panic becomes the error `panic: <payload>` |
| WithPanicsAsErrors.PanicMessage | with_panics_as_errors.go:20-24 | a panic always yields a non-nil error whose text is `panic: ` followed by the payload |
| WithRecoverer.Recover | with_recoverer.go:35-63 | no panic: the inner error is returned and nothing is printed or reported. A panic: the error is `panic: <payload>`, the stack is printed once if the printer is non-nil, and the payload is reported once if the reporter is non-nil |
| WithRecoverer.Report | with_recoverer.go:17-21 | the no-op reporter (and a nil one) leaves the log unchanged; a logging reporter appends the payloads in order |
| WithRecoverer.RecoverMatchesPanicsAsErrors | with_recoverer.go:35-63 | for every outcome, the recoverer returns the same error as WithPanicsAsErrors |
| Decorators.Apply | with_status.go:77-128 | every option wraps the current runFunc (also with_retry.go:25-27, with_panics_as_errors.go:15-17, with_recoverer.go:35-37 and with_stats.go:80-131). Only the status and stats options replace onStart and onStop, each with a hook that chains to the previous one |
| Decorators.BuildLayers | runnable.go:56-66 | New with n options wraps runFunc exactly n deep, and each hook chain has one link per status or stats option |
| Decorators.BuildSnoc | runnable.go:61-63 | options apply in argument order: one more option wraps the bundle built from the earlier ones |
| Decorators.Stamp | with_status.go:101-121 | a store update reads the clock once and advances it, and changes only that store; the script, readings, invocations, log, prints and hook counters are unchanged |
| Decorators.Chain | with_status.go:100-127 | a hook chain changes only the stores and the clock; the script, invocations, log and call counters are unchanged |
| Decorators.FireStart | runnable.go:108-110 | onStart is called exactly when it is non-nil, and only the stores, clock and start counter change |
| Decorators.FireStop | runnable.go:97-101 | onStop is called exactly when it is non-nil, and only the stores, clock and stop counter change |
| Decorators.Eval | with_status.go:82-98 | calling a decorated runFunc, of any of the five kinds (also with_retry.go:27-56, with_panics_as_errors.go:17-33, with_recoverer.go:37-62, with_stats.go:85-101), never grows the script or lowers the invocation count. A call that does not return nil has consumed at least one invocation outcome |
| Decorators.RetryLoop | with_retry.go:29-55 | the loop returns nil, the error it entered with, or an outcome of an attempt that consumed at least one script step; the script never grows and invocations never decrease |
| Decorators.RunBody | runnable.go:97-111 | Run returns exactly what runFunc returns; onStop runs once more after it when non-nil, and the script is not touched by the hooks |
| WithRetry.RetryRun | with_retry.go:25-57 | the imperative retry loop computes the same result and world as the retry closure's specification |
| WithRetry.FailedTurn | with_retry.go:29-54 | one failed attempt of the user function consumes one outcome and one invocation, calls onStart before and onStop after it only at a positive index (after the reset check), and continues at the next index with that failure as the previous error |
| WithRetry.FinalTurn | with_retry.go:29-47 | an attempt of the user function that returns nil or a context error ends the loop with that outcome, after one invocation, onStart only at a positive index and no onStop |
| WithRetry.FailedAttempt | with_retry.go:35-53 | an attempt of any inner function that fails with a non-context error moves to the next index, after onStop at a positive index |
| WithRetry.FinalAttempt | with_retry.go:41-47 | an attempt that returns nil, a context error or panics ends the loop with that attempt's result |
| WithRetry.BudgetSpent | with_retry.go:29-55 | once the index reaches maxRetries the loop returns the previous attempt's error and changes nothing |
| WithRetry.NoBudget | with_retry.go:29-55 | with maxRetries ≤ 0 the function is never called and nil is returned |
| WithRetry.FirstSuccessStops | with_retry.go:41-44 | a first attempt returning nil ends the loop after one invocation, with no hook calls |
| WithRetry.ContextErrorStops | with_retry.go:45-47 | with or without a reset window, a context error is returned at once, unchanged, after one invocation, with no onStop call and onStart only at a positive index |
| WithRetry.FailingTurns | with_retry.go:29-54 | without reset, failures at every index from i up to n reach index n with the last failure as the previous error, after n − i invocations, with onStart and onStop once per attempt at a positive index |
| WithRetry.ExhaustsBudget | with_retry.go:29-55 | without reset and with every attempt failing, the function runs once per remaining index and the last error is returned. onStart and onStop are each called once per retry, never for index 0 |
| WithRetry.SucceedsWithinBudget | with_retry.go:29-55 | without reset, k failures then a success within the budget give nil after k+1 invocations. onStart is called before each attempt at a positive index (k times from index 0) and onStop after each failed one (k−1 times from index 0) |
| WithRetry.ResetKeepsRetrying | with_retry.go:30-32 | when every attempt comes after the window, the index is reset each time. Any number of failures followed by a success gives nil, and no hook is called |
| Lifecycle.Runnable.New | runnable.go:56-66 | a new runnable is idle and its closures are exactly the options applied in order |
| Lifecycle.Runnable.ApplyOption | runnable.go:61-63 | one option's apply rewires the closures as `Apply` says and leaves the lifecycle fields alone |
| Lifecycle.Runnable.Enter | runnable.go:84-95 | if already running: ErrAlreadyRunning, nothing changes. Otherwise: running, with a fresh uncancelled scope from the caller's context and a fresh open stop signal |
| Lifecycle.Runnable.Body | runnable.go:108-111 | onStart, then runFunc with the final closures: its outcome is the run's result, the script afterwards is the run's, and with the deferred onStop it is exactly the body of a run (`RunBody`) |
| Lifecycle.Runnable.Exit | runnable.go:97-106 | onStop, then the flag is cleared and the run's stop signal, which was open, is closed |
| Lifecycle.Runnable.Run | runnable.go:79-112 | Run with no Stop interleaved: while running it returns ErrAlreadyRunning and changes nothing. Otherwise it returns exactly the body's result and ends idle with its signal closed and its closures unchanged |
| Lifecycle.Runnable.BeginStop | runnable.go:125-139 | idle: ErrNotRunning, nothing changes. Running: it waits on this run's signal, cancels exactly this run's scope, and stays running |
| Lifecycle.Runnable.StopCapture | runnable.go:130-137 | the locked part of Stop as written: ErrNotRunning when idle, otherwise the current run's signal; nothing changes |
| Lifecycle.Runnable.CancelCurrent | runnable.go:139 | `runCancel` as written cancels whichever run's scope is current when it executes |
| Lifecycle.Runnable.AwaitStop | runnable.go:141-146 | a done caller context wins with its error. Otherwise Stop returns nil if and only if the run's signal is closed, and blocks if and only if it is open |
| Lifecycle.Runnable.IsRunning | runnable.go:150-154 | returns the flag without changing anything |
| Composition.StatusWrapsRunFunc | with_status.go:82-98 | the status runFunc returns the inner result unchanged. On exit the id is not running and has an end time. An error becomes the last error; any other result leaves it as it was. Restarts, start time, other ids and other stores are unchanged |
| Composition.StatusExit | with_status.go:82-98 | on exit the status runFunc returns the inner result unchanged; its store receives the failure (only for an error result) and then the stop update stamped with the clock reading after the inner call, and other stores are unchanged |
| Composition.StopChainKeeps | with_status.go:118-127 | the onStop links of earlier status options only mark ids stopped: an id already stopped stays stopped, and no last error changes |
| Composition.StatusRunRecordsError | with_status.go:82-98 | for any id, store and earlier options, a run whose outermost option is WithStatus or WithStats and whose inner function returns an error shows that error as the id's LastError, with Running false |
| Composition.RetryOnceThenSucceed | with_retry_test.go:14-30 | fail once then succeed under WithRetry(3, ResetNever): nil after 2 invocations |
| Composition.RetryAlwaysFails | with_retry_test.go:32-43 | always fail under WithRetry(3, ResetNever): the error after exactly 3 invocations |
| Composition.RetryResetWindow | with_retry_test.go:45-60 | five failures spaced beyond the window, then a success, under WithRetry(3, 100ms): nil after 6 invocations |
| Composition.StatusWhileRunning | with_status_test.go:14-39 | during the run the snapshot shows Running with restarts 0 and no end time. After it, Running is false with an end time and no last error |
| Composition.StatusRunSucceeds | with_status_test.go:14-39 | for the test's runnable: onStart marks "test" started at the current time, Run returns nil, and afterwards "test" is not running, has an end time and no last error |
| Composition.StatusRecordsFailure | with_status_test.go:41-54 | a failing run under WithStatus or WithStats: the error is returned, Running is false and LastError is that error |
| Composition.StatusWithRetryCountsRestart | with_status_test.go:56-74 | WithStatus then WithRetry(3, ResetNever), failing once: nil, Running false, Restarts 1 |
| Composition.RetriedStatusRun | with_stats_test.go:56-74 | the same run over the built bundle of WithStats then WithRetry |
| Composition.PanicBecomesError | with_panics_as_errors_test.go:12-29 | a panicking function under WithPanicsAsErrors returns `panic: something went wrong` |
| Composition.NoPanicUnaffected | with_panics_as_errors_test.go:31-47 | a function returning nil under WithPanicsAsErrors: Run returns nil |
| Composition.PanicRecordedByStatus | with_panics_as_errors_test.go:49-71 | WithPanicsAsErrors then WithStatus: a panic yields an error, Running false, LastError set |
| Composition.RecovererReportsOnce | with_recoverer_test.go:21-36 | WithRecoverer(reporter, nil) and a panic: an error, one invocation, the log is exactly the payload, and nothing is printed |
| Composition.RecovererRecordedByStatus | with_recoverer_test.go:77-100 | WithRecoverer then WithStatus: a panic yields an error, Running false, LastError set |
| Composition.StopBeforeRun | runnable_test.go:70-82 | Stop before any Run: ErrNotRunning, and the runnable stays idle |
| Composition.StopWithinDeadline | runnable_test.go:14-38 | running while the function runs; Stop returns nil once the run has exited; afterwards idle |
| Composition.StopDeadlineFirst | runnable_test.go:84-106 | the stop caller's deadline passes first: DeadlineExceeded, still running until the function returns, then idle |
| Composition.RunWhileRunning | runnable.go:84-88 | a second Run while running gets ErrAlreadyRunning and leaves the first run's scope and flag alone |
| Composition.LateCancelHitsNextRun | runnable.go:136-139 | Stop as written, with a second Run entering before `runCancel`: Stop returns nil and the second run's scope is the one cancelled |
| Composition.CancelUnderLockSparesNextRun | runnable.go:125-146 | with the cancellation under the mutex, the same interleaving cancels only the first run's scope; the second run starts uncancelled |

## Findings

| source | as written | input that shows it | evidently intended | confidence | as-written member | corrected member |
|---|---|---|---|---|---|---|
| runnable.go:136-139 | Stop captures `runStop` under the mutex but calls `r.runCancel()` after releasing it, reading the field again | run 1 enters; Stop captures run 1's signal; run 1 exits; run 2 enters; Stop calls `runCancel` and returns nil | Stop cancels the run whose signal it waits on (capture `runCancel` under the mutex together with `runStop`) | medium; not executed | Composition.LateCancelHitsNextRun | Composition.CancelUnderLockSparesNextRun |

`Lifecycle.Runnable.BeginStop`, which the rest of the model uses, takes the
corrected form: the check, the capture and the cancellation happen in one
locked step.

## Left out

- `runnable_group.go` (the group runner) is not part of this model.
- Goroutines, the mutex and channels are not modelled as such. Each locked
  block is one method of `Runnable`; concurrent calls are sequences of those
  methods. The select in Stop is decided by the `callerFirst` input of
  `AwaitStop`, including the case where both sides are ready.
- Contexts are reduced to their kind (`Background`, `WithCancel`,
  `WithTimeout`) and a cancelled flag. The work function does not observe its
  context; what it returns on each call is given by the world's script.
- Once the script is exhausted, the user function returns nil. This keeps
  retry with a reset window terminating.
- `time.Now`, `time.Since` and `withRetry.lastTime` are not modelled as a
  clock. Each retry attempt consumes one boolean reading, "more than the reset
  window has passed since the previous attempt". The store timestamps come
  from a counter that advances on each reading. `lastTime` being shared by
  every Run of the same option is therefore not captured.
- Go's panic and recover mechanics and `debug.Stack` are not modelled. A
  panic is the `Panicked` outcome, which propagates through wrappers that do
  not recover. A stack print is counted, not produced.
- Error formatting (`fmt.Errorf`, `%v`) is modelled by `Message`. Any other
  error returned by the work function is `WorkError(code)`, and `errors.Is`
  is equality, so wrapped context errors are not recognised.
- Reporters and stack printers are the kinds the package and its tests use:
  nil, `NoopReporter`, and a reporter that appends to a log. Arbitrary
  user-defined implementations are not modelled.
- WithStats and WithStatus build the same closures (`StatusFunc`,
  `StatusHook`) over a store reference. The two classes are separate and
  proved to perform the same updates as the pure `Tables` functions that the
  closures use. The composed runs work on store values, not on the class
  instances, so aliasing between stores is not captured.
- JSON struct tags and the exported `Runnable`, `Option` and `StatusMap`
  declarations have no behaviour and are not modelled.
- RetryLoop: its own contract only bounds the result (nil, the entering error, or an attempt's outcome). That the result is the last attempt's outcome is stated turn by turn by `FinalAttempt`, `FailedAttempt` and `BudgetSpent`, and for whole runs by `ExhaustsBudget` and `SucceedsWithinBudget`.
- Store references are one namespace of numbers for status stores and stats collectors, so `Status(id, 0)` and `Stats(id, 0)` write to the same store value. In Go a `*StatusStore` and a `*Stats` are different objects and never alias.
- Lifecycle.Runnable.Run: states the result only when no Stop is
  interleaved; interleavings are stated with the split methods.
