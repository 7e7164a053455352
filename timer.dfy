/** LevelTimer: an elapsed-time accumulator that grows each frame while it
    runs and is frozen for good once stopped. */
module Timing {
  import opened Host

  datatype TimerState = TimerState(elapsed: real, running: bool)

  /** A fresh timer: nothing elapsed, running. */
  const Started: TimerState := TimerState(0.0, true)

  /** One Update with frame time `delta`. */
  function Tick(s: TimerState, delta: real): TimerState {
    if s.running then s.(elapsed := s.elapsed + delta) else s
  }

  /** StopAndGetTime: the state afterwards and the value returned. */
  function Stop(s: TimerState): (TimerState, real) {
    (s.(running := false), s.elapsed)
  }

  /** Updates with each of `deltas`, in order. */
  function TickAll(s: TimerState, deltas: seq<real>): TimerState
    decreases |deltas|
  {
    if deltas == [] then s else TickAll(Tick(s, deltas[0]), deltas[1..])
  }

  function Sum(deltas: seq<real>): real
    decreases |deltas|
  {
    if deltas == [] then 0.0 else deltas[0] + Sum(deltas[1..])
  }

  /** A running timer's elapsed time grows by exactly the frame times. */
  lemma {:induction false} RunningAccumulates(s: TimerState, deltas: seq<real>)
    requires s.running
    ensures TickAll(s, deltas) == TimerState(s.elapsed + Sum(deltas), true)
    decreases |deltas|
  {
    if deltas != [] {
      RunningAccumulates(Tick(s, deltas[0]), deltas[1..]);
    }
  }

  /** With non-negative frame times the elapsed time never goes down. */
  lemma {:induction false} ElapsedNonDecreasing(s: TimerState, deltas: seq<real>)
    requires forall k :: 0 <= k < |deltas| ==> deltas[k] >= 0.0
    ensures TickAll(s, deltas).elapsed >= s.elapsed
    decreases |deltas|
  {
    if deltas != [] {
      ElapsedNonDecreasing(Tick(s, deltas[0]), deltas[1..]);
    }
  }

  /** Once stopped, no number of updates changes the timer. */
  lemma {:induction false} FrozenAfterStop(s: TimerState, deltas: seq<real>)
    ensures TickAll(Stop(s).0, deltas) == Stop(s).0
    decreases |deltas|
  {
    if deltas != [] {
      FrozenAfterStop(s, deltas[1..]);
    }
  }

  /** Stopping twice, with any updates between, reports the same time. */
  lemma StopTwiceSameTime(s: TimerState, deltas: seq<real>)
    ensures Stop(TickAll(Stop(s).0, deltas)).1 == Stop(s).1
  {
    FrozenAfterStop(s, deltas);
  }

  class LevelTimer {
    var timeElapsed: real
    var isTimerRunning: bool

    constructor ()
      ensures State() == Started
    {
      timeElapsed := 0.0;
      isTimerRunning := true;
    }

    /** LevelTimer.TimeElapsed: the elapsed part of the timer's state. */
    function TimeElapsed(): (t: real)
      reads this
      ensures t == State().elapsed
    {
      timeElapsed
    }

    function State(): TimerState
      reads this
    {
      TimerState(timeElapsed, isTimerRunning)
    }

    method Update(deltaTime: real)
      modifies this
      ensures State() == Tick(old(State()), deltaTime)
    {
      if isTimerRunning {
        timeElapsed := timeElapsed + deltaTime;
      }
    }

    /** `log` records the stop among the other effects of the scene. */
    method StopAndGetTime(ghost log: Engine) returns (time: real)
      modifies this, log`trace
      ensures (State(), time) == Stop(old(State()))
      ensures time == old(TimeElapsed()) == TimeElapsed() && !isTimerRunning
      ensures log.trace == old(log.trace) + [TimerStopped(time)]
    {
      log.trace := log.trace + [TimerStopped(timeElapsed)];
      isTimerRunning := false;
      time := timeElapsed;
    }
  }
}
