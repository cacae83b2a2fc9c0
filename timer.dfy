/**
 * The timer thread of pythreader/timer.py. The thread's `run` loop is cut at its
 * sleeps: `Advance` carries the thread from where it stands to its next sleep,
 * to its end, or to the top of the loop after one call of the function.
 * A sleep that returns, because its time passed or because `cancel`, `pause`
 * or `resume` woke the thread, is the next `Advance`.
 */
module Timers {
  import opened Common

  /** A `t` above this is an absolute time, otherwise a delay from now. */
  const AbsoluteLimit: real := 300000000.0

  /** `__init__`'s target time at clock reading `now`. */
  function TargetTime(t: real, now: real): (target: real)
    ensures t > AbsoluteLimit ==> target == t
    ensures t <= AbsoluteLimit ==> target - now == t
  {
    if t > AbsoluteLimit then t else now + t
  }

  /** An absolute target does not move with the clock; a relative one moves with it. */
  lemma TargetTimeClock(t: real, now1: real, now2: real)
    ensures t > AbsoluteLimit ==> TargetTime(t, now1) == TargetTime(t, now2)
    ensures t <= AbsoluteLimit ==> TargetTime(t, now2) - TargetTime(t, now1) == now2 - now1
  {
  }

  /** Whether `self.Interval` is truthy: set and not zero. */
  predicate Repeats(interval: Option<real>)
  {
    interval.Some? && interval.value != 0.0
  }

  /**
   * Where the timer thread stands: not started; about to test the outer loop's
   * condition with `again` true; in the sleep until `T`; in the pause loop's
   * sleep; or past the loop.
   */
  datatype Phase = NotStarted | AtLoopTop | SleepingUntilDue | SleepingPaused | Finished

  /** The timer's fields, with `Calls` the clock readings at which `Fcn` was called. */
  datatype TimerState = TimerState(
    t: real, interval: Option<real>, cancelled: bool, paused: bool, phase: Phase, calls: seq<real>)

  /** From the pause loop on: sleep while paused, else call `Fcn` (at `now`) unless cancelled, and repeat or end. */
  function AfterSleep(s: TimerState, now: real, after: real): (s': TimerState)
    ensures s'.interval == s.interval && s'.cancelled == s.cancelled && s'.paused == s.paused
    ensures s'.calls == s.calls || (s'.calls == s.calls + [now] && !s.cancelled && !s.paused)
    ensures s.paused && !s.cancelled ==> s' == s.(phase := SleepingPaused)
    ensures s.cancelled ==> s' == s.(phase := Finished)
    ensures s'.calls != s.calls && Repeats(s.interval) ==> s'.phase == AtLoopTop && s'.t == after + s.interval.value
    ensures s'.calls != s.calls && !Repeats(s.interval) ==> s'.phase == Finished
  {
    if s.paused && !s.cancelled then s.(phase := SleepingPaused)
    else if s.cancelled then s.(phase := Finished)
    else if Repeats(s.interval) then s.(calls := s.calls + [now], t := after + s.interval.value, phase := AtLoopTop)
    else s.(calls := s.calls + [now], phase := Finished)
  }

  /**
   * The thread runs from where it stands at clock reading `now`, until it
   * sleeps, ends, or has called `Fcn` once; `after` is the clock reading once
   * `Fcn` has returned (or raised: the handler cannot reach `OnException`, so
   * an exception changes nothing).
   */
  function Advance(s: TimerState, now: real, after: real): (s': TimerState)
    ensures s'.interval == s.interval && s'.cancelled == s.cancelled && s'.paused == s.paused
    ensures s'.calls == s.calls || s'.calls == s.calls + [now]
    ensures s'.calls != s.calls ==>
      && !s.cancelled && !s.paused
      && ((s.phase == AtLoopTop && now >= s.t) || s.phase == SleepingUntilDue || s.phase == SleepingPaused)
    ensures s'.calls != s.calls && Repeats(s.interval) ==> s'.phase == AtLoopTop && s'.t == after + s.interval.value
    ensures s'.calls != s.calls && !Repeats(s.interval) ==> s'.phase == Finished
    ensures s.cancelled && s.phase != NotStarted ==> s'.phase == Finished
    ensures s.phase in {NotStarted, Finished} ==> s' == s
  {
    match s.phase
    case NotStarted => s
    case Finished => s
    case AtLoopTop =>
      if s.cancelled then s.(phase := Finished)
      else if now < s.t then s.(phase := SleepingUntilDue)
      else AfterSleep(s, now, after)
    case SleepingUntilDue => AfterSleep(s, now, after)
    case SleepingPaused => AfterSleep(s, now, after)
  }

  /** What can happen to a timer: the thread advances, or another thread calls a method. */
  datatype Event = Start | Tick(now: real, after: real) | Cancel | Pause | Resume

  function Apply(s: TimerState, e: Event): TimerState
  {
    match e
    case Start => if s.phase == NotStarted then s.(phase := AtLoopTop) else s
    case Tick(now, after) => Advance(s, now, after)
    case Cancel => s.(cancelled := true)
    case Pause => s.(paused := true)
    case Resume => s.(paused := false)
  }

  function Run(s: TimerState, es: seq<Event>): TimerState
    decreases |es|
  {
    if es == [] then s else Run(Apply(s, es[0]), es[1..])
  }

  /** Once cancelled, `Fcn` is never called again, whatever happens next. */
  lemma {:induction false} CancelledStaysSilent(s: TimerState, es: seq<Event>)
    requires s.cancelled
    ensures Run(s, es).calls == s.calls && Run(s, es).cancelled
    decreases |es|
  {
    if es != [] {
      CancelledStaysSilent(Apply(s, es[0]), es[1..]);
    }
  }

  /** A paused, uncancelled timer does not call `Fcn` on any advance. */
  lemma PausedStaysSilent(s: TimerState, now: real, after: real)
    requires s.paused && !s.cancelled
    ensures Advance(s, now, after).calls == s.calls
  {
  }

  /** Without a (truthy) interval, a timer calls `Fcn` at most once, and is finished once it has. */
  ghost predicate OneShot(s: TimerState)
  {
    !Repeats(s.interval) ==> |s.calls| <= 1 && (|s.calls| == 1 ==> s.phase == Finished)
  }

  lemma {:induction false} OneShotKept(s: TimerState, es: seq<Event>)
    requires OneShot(s)
    ensures OneShot(Run(s, es)) && Run(s, es).interval == s.interval
    decreases |es|
  {
    if es != [] {
      var s1 := Apply(s, es[0]);
      assert OneShot(s1);
      OneShotKept(s1, es[1..]);
    }
  }

  /** A fresh timer without an interval calls `Fcn` at most once in any run. */
  lemma OneShotAtMostOnce(t: real, es: seq<Event>)
    ensures |Run(TimerState(t, None, false, false, NotStarted, []), es).calls| <= 1
  {
    OneShotKept(TimerState(t, None, false, false, NotStarted, []), es);
  }

  /** What `start` does: start the thread, or raise RuntimeError because it was started before. */
  datatype StartOutcome = ThreadStarted | AlreadyStarted

  class Timer {
    var T: real
    const Interval: Option<real>
    var Cancelled: bool
    var Paused: bool
    var Position: Phase
    var Calls: seq<real>

    function State(): TimerState
      reads this
    {
      TimerState(T, Interval, Cancelled, Paused, Position, Calls)
    }

    /** `__init__` at clock reading `now`; `start` starts the thread. */
    constructor (t: real, interval: Option<real>, start: bool, now: real)
      ensures State() == TimerState(TargetTime(t, now), interval, false, false, if start then AtLoopTop else NotStarted, [])
    {
      T := TargetTime(t, now);
      Interval := interval;
      Cancelled, Paused := false, false;
      Position := if start then AtLoopTop else NotStarted;
      Calls := [];
    }

    /**
     * `start` (inherited from the thread class): a thread starts once; any
     * later `start`, even after it finished, raises RuntimeError in the caller
     * and leaves the timer as it was.
     */
    method StartThread() returns (r: StartOutcome)
      modifies this
      ensures r == ThreadStarted <==> old(Position) == NotStarted
      ensures State() == Apply(old(State()), Start)
      ensures r == AlreadyStarted ==> State() == old(State())
    {
      if Position == NotStarted {
        Position := AtLoopTop;
        r := ThreadStarted;
      } else {
        r := AlreadyStarted;
      }
    }

    /** The thread's next stretch of `run`, at clock reading `now`, with `after` read once `Fcn` returns. */
    method Step(now: real, after: real)
      modifies this
      ensures State() == Advance(old(State()), now, after)
    {
      if Position == NotStarted || Position == Finished {
        return;
      }
      if Position == AtLoopTop {
        if Cancelled {
          Position := Finished;
          return;
        }
        if now < T {
          Position := SleepingUntilDue;
          return;
        }
      }
      if Paused && !Cancelled {
        Position := SleepingPaused;
        return;
      }
      if !Cancelled {
        Calls := Calls + [now];
        if Repeats(Interval) {
          T := after + Interval.value;
          Position := AtLoopTop;
          return;
        }
      }
      Position := Finished;
    }

    /** `cancel`: only the flag changes (then the thread is woken). */
    method CancelTimer()
      modifies this
      ensures State() == old(State()).(cancelled := true)
    {
      Cancelled := true;
    }

    method PauseTimer()
      modifies this
      ensures State() == old(State()).(paused := true)
    {
      Paused := true;
    }

    method ResumeTimer()
      modifies this
      ensures State() == old(State()).(paused := false)
    {
      Paused := false;
    }
  }
}
