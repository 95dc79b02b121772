/**
 * StatusStore: the five maps that WithStatus's hooks update in place, and the
 * snapshot read Get. Each method is one lock-protected block of the source, so
 * running them one at a time is faithful to each operation.
 */
module WithStatus {
  import opened Errors
  import opened Tables

  class StatusStore {
    var running: map<Id, bool>
    var restarts: map<Id, int>
    var startTime: map<Id, Time>
    var endTime: map<Id, Time>
    var lastError: map<Id, Error>

    /** The store's contents as a value. */
    function Contents(): Tables
      reads this
    {
      Tables(running, restarts, startTime, endTime, lastError)
    }

    /** NewStatusStore: five empty maps. */
    constructor ()
      ensures Contents() == Empty
    {
      running, restarts, startTime, endTime, lastError := map[], map[], map[], map[], map[];
    }

    /** The store update of the wrapped onStart hook. */
    method MarkStarted(id: Id, now: Time)
      modifies this
      ensures Contents() == Started(old(Contents()), id, now)
      ensures running[id] && startTime[id] == now
      ensures restarts[id] == if id in old(restarts) then old(restarts[id]) + 1 else 0
      ensures lastError == old(lastError) && endTime == old(endTime)
    {
      running := running[id := true];
      startTime := startTime[id := now];
      if id !in restarts {
        restarts := restarts[id := 0];
      } else {
        restarts := restarts[id := restarts[id] + 1];
      }
    }

    /** The store update of the wrapped onStop hook and of the wrapped runFunc's exit. */
    method MarkStopped(id: Id, now: Time)
      modifies this
      ensures Contents() == Stopped(old(Contents()), id, now)
      ensures !running[id] && endTime[id] == now
      ensures restarts == old(restarts) && startTime == old(startTime) && lastError == old(lastError)
    {
      running := running[id := false];
      endTime := endTime[id := now];
    }

    /** The store update when the inner runFunc returned a non-nil error. */
    method RecordError(id: Id, e: Error)
      modifies this
      ensures Contents() == Failed(old(Contents()), id, e)
      ensures lastError[id] == e
      ensures running == old(running) && restarts == old(restarts)
      ensures startTime == old(startTime) && endTime == old(endTime)
    {
      lastError := lastError[id := e];
    }

    /**
     * Get: one record per id of the running map, copying the restart counter,
     * the start time and the last error when present; EndTime is set exactly
     * when an end time was recorded.
     */
    method Get() returns (sm: map<Id, Record>)
      ensures sm == Snapshot(Contents())
      ensures sm.Keys == running.Keys
      ensures forall id :: id in sm ==>
        && sm[id].running == running[id]
        && sm[id].restarts == (if id in restarts then restarts[id] else 0)
        && sm[id].startTime == (if id in startTime then startTime[id] else 0)
        && (sm[id].endTime.Some? <==> id in endTime)
        && (id in endTime ==> sm[id].endTime.value == endTime[id])
        && (sm[id].lastError.Some? <==> id in lastError)
        && (id in lastError ==> sm[id].lastError.value == lastError[id])
    {
      sm := map[];
      var todo := running.Keys;
      while todo != {}
        invariant todo <= running.Keys
        invariant sm.Keys == running.Keys - todo
        invariant forall id :: id in sm ==> sm[id] == RecordOf(Contents(), id)
        decreases todo
      {
        var id :| id in todo;
        var st := Record(running[id], 0, 0, None, None);
        if id in restarts {
          st := st.(restarts := restarts[id]);
        }
        if id in startTime {
          st := st.(startTime := startTime[id]);
        }
        if id in endTime {
          st := st.(endTime := Some(endTime[id]));
        }
        if id in lastError {
          st := st.(lastError := Some(lastError[id]));
        }
        sm := sm[id := st];
        todo := todo - {id};
      }
    }
  }
}
