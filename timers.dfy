/**
 * A stand-in for the timer runtime (`setInterval`, `setTimeout` and their `clear`
 * functions): the timers currently armed, each with its delay in milliseconds.
 * There is no clock; a timer fires when the environment says so.
 */
module Timers {

  type TimerId = nat

  class Timers {
    /** Armed repeating timers and their periods. */
    var intervals: map<TimerId, nat>
    /** Armed one-shot timers and their delays. */
    var timeouts: map<TimerId, nat>
    /** The next handle to hand out. */
    var next: TimerId

    constructor()
      ensures intervals == map[] && timeouts == map[]
    {
      intervals, timeouts, next := map[], map[], 0;
    }

    method SetInterval(ms: nat) returns (t: TimerId)
      modifies this
      ensures intervals == old(intervals)[t := ms] && timeouts == old(timeouts)
    {
      t := next;
      next := next + 1;
      intervals := intervals[t := ms];
    }

    method SetTimeout(ms: nat) returns (t: TimerId)
      modifies this
      ensures timeouts == old(timeouts)[t := ms] && intervals == old(intervals)
    {
      t := next;
      next := next + 1;
      timeouts := timeouts[t := ms];
    }

    method ClearInterval(t: TimerId)
      modifies this
      ensures intervals == old(intervals) - {t} && timeouts == old(timeouts)
    {
      intervals := intervals - {t};
    }

    method ClearTimeout(t: TimerId)
      modifies this
      ensures timeouts == old(timeouts) - {t} && intervals == old(intervals)
    {
      timeouts := timeouts - {t};
    }

    /** A one-shot timer fires and is disarmed; its callback runs next. */
    method FireTimeout(t: TimerId)
      requires t in timeouts
      modifies this
      ensures timeouts == old(timeouts) - {t} && intervals == old(intervals)
    {
      timeouts := timeouts - {t};
    }
  }
}
