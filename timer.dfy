/** Drift-free countdown arithmetic. Remaining time is never kept as a counter
    that ticks down; it is recomputed from the start timestamp (milliseconds)
    and the current clock reading, in whole elapsed seconds rounded down and
    clamped at zero. Resuming after a pause moves the start timestamp forward
    by the length of the pause. */
module TimerMath {

  /** `Math.floor((now - start) / 1000)`: whole seconds elapsed since `start`. */
  function ElapsedSeconds(start: nat, now: nat): (e: nat)
    requires start <= now
    // the largest whole number of seconds that fits in the elapsed milliseconds
    ensures e * 1000 <= now - start < (e + 1) * 1000
  {
    (now - start) / 1000
  }

  /** `Math.max(0, value - Math.floor((now - start) / 1000))`. */
  function Remaining(value: int, start: nat, now: nat): (r: int)
    requires start <= now
    ensures 0 <= r
    ensures value >= 0 ==> r <= value
    // the countdown shows zero exactly once `value` whole seconds have passed
    ensures r == 0 <==> value * 1000 <= now - start
    // otherwise exactly `value - r` whole seconds have passed
    ensures r > 0 ==> (value - r) * 1000 <= now - start < (value - r + 1) * 1000
  {
    var left := value - ElapsedSeconds(start, now);
    if left > 0 then left else 0
  }

  /** At the instant the countdown starts it shows its full value. */
  lemma RemainingAtStart(value: nat, start: nat)
    ensures Remaining(value, start, start) == value
  {
  }

  /** Remaining time never goes up while the clock moves forward. */
  lemma RemainingNonIncreasing(value: int, start: nat, t1: nat, t2: nat)
    requires start <= t1 <= t2
    ensures Remaining(value, start, t2) <= Remaining(value, start, t1)
  {
  }

  /** `now - (pausedAt - start)`: the start timestamp after resuming at `now`
      a countdown that started at `start` and was paused at `pausedAt`. */
  function ResumedStart(start: nat, pausedAt: nat, now: nat): (r: nat)
    requires start <= pausedAt <= now
    // the start moves forward by exactly the time spent paused
    ensures r == start + (now - pausedAt)
    // so the running time measured at `now` is the running time up to the pause
    ensures r <= now && now - r == pausedAt - start
  {
    now - (pausedAt - start)
  }

  /** Pause/resume round trip: the remaining time computed right after resuming
      equals the value frozen at the pause, however long the pause lasted. */
  lemma ResumePreservesRemaining(value: int, start: nat, pausedAt: nat, now: nat)
    requires start <= pausedAt <= now
    ensures Remaining(value, ResumedStart(start, pausedAt, now), now) == Remaining(value, start, pausedAt)
  {
  }

  /** One pause followed by one resume, as two clock readings. */
  datatype Cycle = Cycle(pausedAt: nat, resumedAt: nat)

  /** The clock readings of successive cycles after a start at `start` never go back. */
  predicate Ordered(start: nat, cycles: seq<Cycle>)
    decreases |cycles|
  {
    cycles == [] ||
    (start <= cycles[0].pausedAt <= cycles[0].resumedAt && Ordered(cycles[0].resumedAt, cycles[1..]))
  }

  /** Total time spent paused over all cycles. */
  function PausedTotal(cycles: seq<Cycle>): (total: int)
  {
    if cycles == [] then 0
    else (cycles[0].resumedAt - cycles[0].pausedAt) + PausedTotal(cycles[1..])
  }

  lemma OrderedLowerStart(s: nat, t: nat, cycles: seq<Cycle>)
    requires s <= t && Ordered(t, cycles)
    ensures Ordered(s, cycles)
  {
  }

  /** The start timestamp after resuming each cycle in turn. */
  function StartAfter(start: nat, cycles: seq<Cycle>): (r: nat)
    requires Ordered(start, cycles)
    ensures start <= r
    ensures cycles != [] ==> r <= cycles[|cycles| - 1].resumedAt
    decreases |cycles|
  {
    if cycles == [] then start
    else
      var s := ResumedStart(start, cycles[0].pausedAt, cycles[0].resumedAt);
      OrderedLowerStart(s, cycles[0].resumedAt, cycles[1..]);
      StartAfter(s, cycles[1..])
  }

  /** However many pauses there were, the start timestamp has moved forward by
      exactly the total paused time. */
  lemma {:induction false} StartAfterShiftsByPausedTotal(start: nat, cycles: seq<Cycle>)
    requires Ordered(start, cycles)
    ensures StartAfter(start, cycles) == start + PausedTotal(cycles)
    decreases |cycles|
  {
    if cycles != [] {
      var s := ResumedStart(start, cycles[0].pausedAt, cycles[0].resumedAt);
      OrderedLowerStart(s, cycles[0].resumedAt, cycles[1..]);
      StartAfterShiftsByPausedTotal(s, cycles[1..]);
    }
  }

  /** Drift-free counting: after any sequence of pause/resume cycles the
      countdown has consumed only the time it spent running. */
  lemma CountsOnlyRunningTime(value: int, start: nat, cycles: seq<Cycle>, now: nat)
    requires Ordered(start, cycles)
    requires cycles != [] ==> cycles[|cycles| - 1].resumedAt <= now
    requires start <= now
    ensures 0 <= PausedTotal(cycles) <= now - start
    ensures
      Remaining(value, StartAfter(start, cycles), now) == Remaining(value, start, now - PausedTotal(cycles))
  {
    StartAfterShiftsByPausedTotal(start, cycles);
  }
}
