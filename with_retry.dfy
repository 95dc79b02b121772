/**
 * WithRetry: the retry loop that replaces runFunc, and what it promises.
 *
 * The clock enters only through the per-attempt reading "more than the reset
 * window has passed since the previous attempt" (World.elapsed).
 */
module WithRetry {
  import opened Errors
  import opened Decorators

  /**
   * The wrapped runFunc of WithRetry(maxRetries, resetAfter) around `inner`,
   * for the runnable whose final bundle is `r`.
   */
  method RetryRun(maxRetries: int, resetAfter: int, inner: Func, r: Bundle, w0: World) returns (st: Step)
    ensures st == Eval(RetryFunc(maxRetries, resetAfter, inner), r, w0)
  {
    hide Chain;
    var err: Option<Error> := None;
    var w := w0;
    var i: nat := 0;
    while i < maxRetries
      invariant RetryLoop(maxRetries, resetAfter, inner, r, i, err, w)
             == Eval(RetryFunc(maxRetries, resetAfter, inner), r, w0)
      decreases |w.script|
    {
      var elapsed;
      elapsed, w := ReadElapsed(w).0, ReadElapsed(w).1;
      if resetAfter != ResetNever && elapsed {
        i := 0;
      }
      if i > 0 {
        w := FireStart(r.onStart, w);
      }
      var attempt := Eval(inner, r, w);
      w := attempt.world;
      if attempt.out.Panicked? {
        // the panic leaves the loop
        return attempt;
      }
      err := attempt.out.err;
      if err == None {
        return Step(Returned(None), w);
      }
      if IsContextError(err.value) {
        return Step(Returned(err), w);
      }
      if i > 0 {
        w := FireStop(r.onStop, w);
      }
      i := i + 1;
    }
    st := Step(Returned(err), w);
  }

  /** An attempt that fails with an error other than a context error. */
  predicate Failing(o: Outcome)
  {
    o.Returned? && o.err.Some? && !IsContextError(o.err.value)
  }

  /** Calls of a hook guarded by `index > 0` over `n` attempts with indices i, i+1, ... */
  function Retries(i: nat, n: nat): nat
  {
    if n == 0 then 0 else if i == 0 then n - 1 else n
  }

  function HookCalls(h: Hook, calls: nat): nat
  {
    if h.NoHook? then 0 else calls
  }

  /** The world after one attempt of the user function, and its index after the reset check. */
  function AttemptIndex(resetAfter: int, i: nat, w: World): nat
  {
    if resetAfter != ResetNever && ReadElapsed(w).0 then 0 else i
  }

  function AfterAttempt(resetAfter: int, r: Bundle, i: nat, w: World): World
    requires w.script != []
  {
    var w0 := ReadElapsed(w).1;
    var w1 := if AttemptIndex(resetAfter, i, w) > 0 then FireStart(r.onStart, w0) else w0;
    w1.(invoked := w1.invoked + 1, script := w1.script[1..])
  }

  /** The world after a failed attempt of the user function: onStop follows at a positive index. */
  function AfterFailure(resetAfter: int, r: Bundle, i: nat, w: World): World
    requires w.script != []
  {
    var wa := AfterAttempt(resetAfter, r, i, w);
    if AttemptIndex(resetAfter, i, w) > 0 then FireStop(r.onStop, wa) else wa
  }

  /** A failed turn of the loop around the user function, with its effect on the world. */
  lemma FailedTurn(maxRetries: int, resetAfter: int, r: Bundle, i: nat, err: Option<Error>, w: World)
    returns (j: nat, w2: World)
    requires i < maxRetries && w.script != [] && Failing(w.script[0])
    ensures j == AttemptIndex(resetAfter, i, w)
    ensures RetryLoop(maxRetries, resetAfter, UserFunc, r, i, err, w)
         == RetryLoop(maxRetries, resetAfter, UserFunc, r, j + 1, w.script[0].err, w2)
    ensures w2.script == w.script[1..]
    ensures w2.elapsed == ReadElapsed(w).1.elapsed
    ensures w2.invoked == w.invoked + 1
    ensures w2.starts == w.starts + (if j > 0 then HookCalls(r.onStart, 1) else 0)
    ensures w2.stops == w.stops + (if j > 0 then HookCalls(r.onStop, 1) else 0)
  {
    j := AttemptIndex(resetAfter, i, w);
    var w0 := ReadElapsed(w).1;
    var w1 := if j > 0 then FireStart(r.onStart, w0) else w0;
    assert w1.script == w.script;
    var wa := AfterAttempt(resetAfter, r, i, w);
    assert Eval(UserFunc, r, w1) == Step(w.script[0], wa);
    w2 := AfterFailure(resetAfter, r, i, w);
  }

  /** A turn of the loop around the user function whose outcome ends the loop. */
  lemma FinalTurn(maxRetries: int, resetAfter: int, r: Bundle, i: nat, err: Option<Error>, w: World)
    returns (wa: World)
    requires i < maxRetries && w.script != [] && !Failing(w.script[0])
    ensures RetryLoop(maxRetries, resetAfter, UserFunc, r, i, err, w) == Step(w.script[0], wa)
    ensures wa.script == w.script[1..]
    ensures wa.invoked == w.invoked + 1
    ensures wa.starts == w.starts + (if AttemptIndex(resetAfter, i, w) > 0 then HookCalls(r.onStart, 1) else 0)
    ensures wa.stops == w.stops
  {
    var j := AttemptIndex(resetAfter, i, w);
    var w0 := ReadElapsed(w).1;
    var w1 := if j > 0 then FireStart(r.onStart, w0) else w0;
    assert w1.script == w.script;
    wa := AfterAttempt(resetAfter, r, i, w);
    assert Eval(UserFunc, r, w1) == Step(w.script[0], wa);
  }

  /** An attempt of any inner runFunc that fails at a positive index: onStop, then the next index. */
  lemma FailedAttempt(maxRetries: int, resetAfter: int, inner: Func, r: Bundle, i: nat, err: Option<Error>, w: World)
    requires i < maxRetries
    requires var j := AttemptIndex(resetAfter, i, w);
      var w1 := if j > 0 then FireStart(r.onStart, ReadElapsed(w).1) else ReadElapsed(w).1;
      Failing(Eval(inner, r, w1).out)
    ensures var j := AttemptIndex(resetAfter, i, w);
      var w1 := if j > 0 then FireStart(r.onStart, ReadElapsed(w).1) else ReadElapsed(w).1;
      var st := Eval(inner, r, w1);
      RetryLoop(maxRetries, resetAfter, inner, r, i, err, w)
      == RetryLoop(maxRetries, resetAfter, inner, r, j + 1, st.out.err,
                   if j > 0 then FireStop(r.onStop, st.world) else st.world)
  {
  }

  /** An attempt of any inner runFunc that does not fail ends the loop with that attempt's result. */
  lemma FinalAttempt(maxRetries: int, resetAfter: int, inner: Func, r: Bundle, i: nat, err: Option<Error>, w: World)
    requires i < maxRetries
    requires var j := AttemptIndex(resetAfter, i, w);
      var w1 := if j > 0 then FireStart(r.onStart, ReadElapsed(w).1) else ReadElapsed(w).1;
      !Failing(Eval(inner, r, w1).out)
    ensures var j := AttemptIndex(resetAfter, i, w);
      var w1 := if j > 0 then FireStart(r.onStart, ReadElapsed(w).1) else ReadElapsed(w).1;
      RetryLoop(maxRetries, resetAfter, inner, r, i, err, w) == Eval(inner, r, w1)
  {
  }

  /** Once the index reaches the budget the loop returns the previous error. */
  lemma BudgetSpent(maxRetries: int, resetAfter: int, inner: Func, r: Bundle, i: nat, err: Option<Error>, w: World)
    requires i >= maxRetries
    ensures RetryLoop(maxRetries, resetAfter, inner, r, i, err, w) == Step(Returned(err), w)
  {
  }

  /** A non-positive budget: nil is returned and the inner function is never called. */
  lemma NoBudget(maxRetries: int, resetAfter: int, inner: Func, r: Bundle, w: World)
    requires maxRetries <= 0
    ensures Eval(RetryFunc(maxRetries, resetAfter, inner), r, w) == Step(Returned(None), w)
  {
  }

  /** The first successful attempt ends the loop: nil after a single invocation. */
  lemma FirstSuccessStops(maxRetries: int, resetAfter: int, r: Bundle, w: World)
    requires maxRetries > 0
    requires w.script != [] && w.script[0] == Returned(None)
    ensures var st := Eval(RetryFunc(maxRetries, resetAfter, UserFunc), r, w);
      && st.out == Returned(None)
      && st.world.invoked == w.invoked + 1
      && st.world.script == w.script[1..]
      && st.world.starts == w.starts && st.world.stops == w.stops
  {
    var _ := FinalTurn(maxRetries, resetAfter, r, 0, None, w);
  }

  /**
   * A context error ends the loop at once, with or without a reset window: it
   * is returned unchanged, after one more invocation, with no onStop call;
   * onStart is called before it only at a positive index.
   */
  lemma ContextErrorStops(maxRetries: int, resetAfter: int, i: nat, err: Option<Error>, r: Bundle, w: World)
    requires i < maxRetries
    requires w.script != [] && w.script[0].Returned? && w.script[0].err.Some?
    requires IsContextError(w.script[0].err.value)
    ensures var st := RetryLoop(maxRetries, resetAfter, UserFunc, r, i, err, w);
      && st.out == w.script[0]
      && st.world.invoked == w.invoked + 1
      && st.world.stops == w.stops
      && st.world.starts == w.starts + (if AttemptIndex(resetAfter, i, w) > 0 then HookCalls(r.onStart, 1) else 0)
  {
    var _ := FinalTurn(maxRetries, resetAfter, r, i, err, w);
  }

  /**
   * With ResetNever, failed attempts at every index from `i` up to `n` lead to
   * the loop at index n with the last failure as the previous error: n - i
   * more invocations, onStart before and onStop after each attempt with a
   * positive index.
   */
  lemma {:induction false} FailingTurns(maxRetries: int, r: Bundle, i: nat, n: nat, err: Option<Error>, w: World)
    returns (err': Option<Error>, w': World)
    requires i <= n <= maxRetries
    requires |w.script| >= n - i
    requires forall p :: 0 <= p < n - i ==> Failing(w.script[p])
    ensures RetryLoop(maxRetries, ResetNever, UserFunc, r, i, err, w)
         == RetryLoop(maxRetries, ResetNever, UserFunc, r, n, err', w')
    ensures i == n ==> err' == err
    ensures i < n ==> w.script[n - i - 1] == Returned(err')
    ensures w'.script == w.script[n - i..]
    ensures w'.invoked == w.invoked + (n - i)
    ensures w'.starts == w.starts + HookCalls(r.onStart, Retries(i, n - i))
    ensures w'.stops == w.stops + HookCalls(r.onStop, Retries(i, n - i))
    decreases n - i
  {
    hide RetryLoop;
    if i == n {
      err', w' := err, w;
      assert RetryLoop(maxRetries, ResetNever, UserFunc, r, i, err, w)
             == RetryLoop(maxRetries, ResetNever, UserFunc, r, n, err', w');
    } else {
      var j, w2 := FailedTurn(maxRetries, ResetNever, r, i, err, w);
      assert j == i;
      forall p | 0 <= p < n - (i + 1)
        ensures Failing(w2.script[p])
      {
        assert w2.script[p] == w.script[p + 1];
      }
      err', w' := FailingTurns(maxRetries, r, i + 1, n, w.script[0].err, w2);
      assert RetryLoop(maxRetries, ResetNever, UserFunc, r, i, err, w)
             == RetryLoop(maxRetries, ResetNever, UserFunc, r, i + 1, w.script[0].err, w2);
      assert RetryLoop(maxRetries, ResetNever, UserFunc, r, i + 1, w.script[0].err, w2)
             == RetryLoop(maxRetries, ResetNever, UserFunc, r, n, err', w');
      assert RetryLoop(maxRetries, ResetNever, UserFunc, r, i, err, w)
             == RetryLoop(maxRetries, ResetNever, UserFunc, r, n, err', w');
      assert w2.script[n - (i + 1)..] == w.script[n - i..];
      if i + 1 < n {
        assert w2.script[n - (i + 1) - 1] == w.script[n - i - 1];
      } else {
        assert w.script[0] == Returned(w.script[0].err);
      }
      if i == 0 {
        assert Retries(i, n - i) == Retries(i + 1, n - (i + 1));
      } else {
        assert Retries(i, n - i) == 1 + Retries(i + 1, n - (i + 1));
      }
    }
  }

  /**
   * With ResetNever and every attempt failing, the user function runs once per
   * remaining index, the last error is returned, and onStart and onStop are
   * each called once per attempt with a positive index.
   */
  lemma ExhaustsBudget(maxRetries: int, r: Bundle, i: nat, err: Option<Error>, w: World)
    requires i <= maxRetries
    requires |w.script| >= maxRetries - i
    requires forall k :: 0 <= k < maxRetries - i ==> Failing(w.script[k])
    ensures var n := maxRetries - i;
      var st := RetryLoop(maxRetries, ResetNever, UserFunc, r, i, err, w);
      && st.out == (if n == 0 then Returned(err) else w.script[n - 1])
      && st.world.script == w.script[n..]
      && st.world.invoked == w.invoked + n
      && st.world.starts == w.starts + HookCalls(r.onStart, Retries(i, n))
      && st.world.stops == w.stops + HookCalls(r.onStop, Retries(i, n))
  {
    hide RetryLoop;
    var err', w' := FailingTurns(maxRetries, r, i, maxRetries, err, w);
    BudgetSpent(maxRetries, ResetNever, UserFunc, r, maxRetries, err', w');
  }

  /**
   * With ResetNever, `k` failures followed by a success within the budget:
   * nil is returned after k + 1 invocations; onStart is called before each of
   * the k retries and onStop after each failed retry, never at index 0.
   */
  lemma SucceedsWithinBudget(maxRetries: int, r: Bundle, i: nat, err: Option<Error>, w: World, k: nat)
    requires i + k < maxRetries
    requires |w.script| > k
    requires forall j :: 0 <= j < k ==> Failing(w.script[j])
    requires w.script[k] == Returned(None)
    ensures var st := RetryLoop(maxRetries, ResetNever, UserFunc, r, i, err, w);
      && st.out == Returned(None)
      && st.world.script == w.script[k + 1..]
      && st.world.invoked == w.invoked + k + 1
      && st.world.starts == w.starts + HookCalls(r.onStart, Retries(i, k + 1))
      && st.world.stops == w.stops + HookCalls(r.onStop, Retries(i, k))
  {
    hide RetryLoop;
    var err', w' := FailingTurns(maxRetries, r, i, i + k, err, w);
    var wa := FinalTurn(maxRetries, ResetNever, r, i + k, err', w');
    assert w'.script[1..] == w.script[k + 1..];
    assert AttemptIndex(ResetNever, i + k, w') == i + k;
    if i == 0 {
      assert Retries(i, k + 1) == Retries(i, k) + (if k > 0 then 1 else 0);
    } else {
      assert Retries(i, k + 1) == Retries(i, k) + 1;
    }
  }

  /**
   * With a reset window, when every attempt comes after the window elapsed the
   * index is reset each time: the budget never runs out, so `k` failures
   * followed by a success give nil after k + 1 invocations for any k, and no
   * hook is called (the index is never positive at the hook checks).
   */
  lemma {:induction false} ResetKeepsRetrying(maxRetries: int, resetAfter: int, r: Bundle, i: nat,
                                             err: Option<Error>, w: World, k: nat)
    requires resetAfter != ResetNever
    requires maxRetries >= 2 && i < maxRetries
    requires |w.elapsed| > k && forall j :: 0 <= j <= k ==> w.elapsed[j]
    requires |w.script| > k
    requires forall j :: 0 <= j < k ==> Failing(w.script[j])
    requires w.script[k] == Returned(None)
    ensures var st := RetryLoop(maxRetries, resetAfter, UserFunc, r, i, err, w);
      && st.out == Returned(None)
      && st.world.script == w.script[k + 1..]
      && st.world.invoked == w.invoked + k + 1
      && st.world.starts == w.starts && st.world.stops == w.stops
    decreases k
  {
    assert AttemptIndex(resetAfter, i, w) == 0;
    if k > 0 {
      var _, w2 := FailedTurn(maxRetries, resetAfter, r, i, err, w);
      forall j | 0 <= j < k - 1
        ensures Failing(w2.script[j])
      {
        assert w2.script[j] == w.script[j + 1];
      }
      forall j | 0 <= j <= k - 1
        ensures w2.elapsed[j]
      {
        assert w2.elapsed[j] == w.elapsed[j + 1];
      }
      ResetKeepsRetrying(maxRetries, resetAfter, r, 1, w.script[0].err, w2, k - 1);
      assert w2.script[k..] == w.script[k + 1..];
    } else {
      var _ := FinalTurn(maxRetries, resetAfter, r, i, err, w);
    }
  }
}
