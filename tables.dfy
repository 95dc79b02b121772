/**
 * The contents of a status store (or stats collector): five parallel maps
 * keyed by runnable id, the three lock-protected updates the decorator's
 * hooks make to them, and the snapshot that `Get` returns.
 *
 * Timestamps are opaque clock readings.
 */
module Tables {
  import opened Errors

  type Id = string
  type Time = nat

  datatype Tables = Tables(
    running: map<Id, bool>,
    restarts: map<Id, int>,
    startTime: map<Id, Time>,
    endTime: map<Id, Time>,
    lastError: map<Id, Error>)

  /** The maps made by NewStatusStore / NewStats. */
  const Empty: Tables := Tables(map[], map[], map[], map[], map[])

  /** One entry of a snapshot (Go's `Status`, and `RunnableStatsView` for stats). */
  datatype Record = Record(
    running: bool,
    restarts: int,
    startTime: Time,
    endTime: Option<Time>,
    lastError: Option<Error>)

  /** The update made by the wrapped onStart hook. */
  function Started(t: Tables, id: Id, now: Time): Tables
  {
    t.(running := t.running[id := true],
       startTime := t.startTime[id := now],
       restarts := t.restarts[id := if id in t.restarts then t.restarts[id] + 1 else 0])
  }

  /** The update made by the wrapped onStop hook and on exit of the wrapped runFunc. */
  function Stopped(t: Tables, id: Id, now: Time): Tables
  {
    t.(running := t.running[id := false], endTime := t.endTime[id := now])
  }

  /** The update made when the wrapped runFunc's inner function returned an error. */
  function Failed(t: Tables, id: Id, e: Error): Tables
  {
    t.(lastError := t.lastError[id := e])
  }

  /** The record Get builds for an id of the running map; absent fields keep Go's zero values. */
  function RecordOf(t: Tables, id: Id): Record
    requires id in t.running
  {
    Record(
      t.running[id],
      if id in t.restarts then t.restarts[id] else 0,
      if id in t.startTime then t.startTime[id] else 0,
      if id in t.endTime then Some(t.endTime[id]) else None,
      if id in t.lastError then Some(t.lastError[id]) else None)
  }

  function Snapshot(t: Tables): map<Id, Record>
  {
    map id | id in t.running :: RecordOf(t, id)
  }

  /** The entries of every id other than `id` are the same in `t` and `u`. */
  predicate AgreeOutside(t: Tables, u: Tables, id: Id)
  {
    && t.running - {id} == u.running - {id}
    && t.restarts - {id} == u.restarts - {id}
    && t.startTime - {id} == u.startTime - {id}
    && t.endTime - {id} == u.endTime - {id}
    && t.lastError - {id} == u.lastError - {id}
  }

  // ---------------------------------------------------------------------------
  // Histories: the updates one decorated runnable makes to its own id.

  datatype Event = Start(at: Time) | Stop(at: Time) | Fail(err: Error)

  function Update(t: Tables, id: Id, ev: Event): Tables
  {
    match ev
    case Start(now) => Started(t, id, now)
    case Stop(now) => Stopped(t, id, now)
    case Fail(e) => Failed(t, id, e)
  }

  function Replay(t: Tables, id: Id, evs: seq<Event>): Tables
    decreases |evs|
  {
    if evs == [] then t else Replay(Update(t, id, evs[0]), id, evs[1..])
  }

  function Starts(evs: seq<Event>): nat
    decreases |evs|
  {
    if evs == [] then 0 else (if evs[0].Start? then 1 else 0) + Starts(evs[1..])
  }

  /** The error of the last Fail event, if any. */
  function LastFailure(evs: seq<Event>): Option<Error>
    decreases |evs|
  {
    if evs == [] then None
    else match LastFailure(evs[1..])
      case Some(e) => Some(e)
      case None => if evs[0].Fail? then Some(evs[0].err) else None
  }

  /** Whether the last Start or Stop event was a Start, if there is one. */
  function LastToggle(evs: seq<Event>): Option<bool>
    decreases |evs|
  {
    if evs == [] then None
    else match LastToggle(evs[1..])
      case Some(b) => Some(b)
      case None => if evs[0].Fail? then None else Some(evs[0].Start?)
  }

  lemma UpdateOnlyTouchesId(t: Tables, id: Id, ev: Event)
    ensures AgreeOutside(t, Update(t, id, ev), id)
  {
    var u := Update(t, id, ev);
    match ev
    case Start(now) =>
      assert u.running - {id} == t.running - {id};
      assert u.startTime - {id} == t.startTime - {id};
      assert u.restarts - {id} == t.restarts - {id};
    case Stop(now) =>
      assert u.running - {id} == t.running - {id};
      assert u.endTime - {id} == t.endTime - {id};
    case Fail(e) =>
      assert u.lastError - {id} == t.lastError - {id};
  }

  /** Each update touches only the entries of its own id. */
  lemma {:induction false} ReplayOnlyTouchesId(t: Tables, id: Id, evs: seq<Event>)
    ensures AgreeOutside(t, Replay(t, id, evs), id)
    decreases |evs|
  {
    if evs != [] {
      var u := Update(t, id, evs[0]);
      UpdateOnlyTouchesId(t, id, evs[0]);
      ReplayOnlyTouchesId(u, id, evs[1..]);
    }
  }

  /**
   * The restart counter: absent until the first start, which sets it to 0;
   * every later start adds 1.
   */
  lemma {:induction false} ReplayRestarts(t: Tables, id: Id, evs: seq<Event>)
    ensures var u := Replay(t, id, evs);
      && (id in u.restarts <==> id in t.restarts || Starts(evs) > 0)
      && (id in t.restarts ==> u.restarts[id] == t.restarts[id] + Starts(evs))
      && (id !in t.restarts && Starts(evs) > 0 ==> u.restarts[id] == Starts(evs) - 1)
    decreases |evs|
  {
    if evs != [] {
      ReplayRestarts(Update(t, id, evs[0]), id, evs[1..]);
    }
  }

  /** The last error is sticky: only a Fail event replaces it. */
  lemma {:induction false} ReplayLastError(t: Tables, id: Id, evs: seq<Event>)
    ensures var u := Replay(t, id, evs);
      match LastFailure(evs)
      case Some(e) => id in u.lastError && u.lastError[id] == e
      case None => (id in u.lastError <==> id in t.lastError)
                   && (id in t.lastError ==> u.lastError[id] == t.lastError[id])
    decreases |evs|
  {
    if evs != [] {
      ReplayLastError(Update(t, id, evs[0]), id, evs[1..]);
    }
  }

  /** The running flag is the one set by the last Start or Stop event. */
  lemma {:induction false} ReplayRunning(t: Tables, id: Id, evs: seq<Event>)
    ensures var u := Replay(t, id, evs);
      match LastToggle(evs)
      case Some(b) => id in u.running && u.running[id] == b
      case None => (id in u.running <==> id in t.running)
                   && (id in t.running ==> u.running[id] == t.running[id])
    decreases |evs|
  {
    if evs != [] {
      ReplayRunning(Update(t, id, evs[0]), id, evs[1..]);
    }
  }
}
