/**
  The countdown timer engine of the `useTimer` hook.

  The hook keeps a `TimerState` record that it only ever replaces through pure
  updater functions, and two mutable refs: the handle of the periodic interval
  and the completion callback. Here the updaters are pure functions over
  `TimerState` and the hook instance is the class `Timer`, whose methods apply
  an updater and overwrite the refs.

  Time is an explicit argument `now` (milliseconds on the wall clock); the host's
  interval scheduler is represented by the set of interval handles it still runs
  for this engine; a callback is an opaque id that the caller invokes.
*/
module TimerEngine {
  import opened Wrappers

  /** The fixed-length units a duration may be given in. */
  datatype Unit = Milliseconds | Seconds | Minutes | Hours

  /** Milliseconds per unit. */
  function UnitMs(unit: Unit): (ms: nat)
    ensures ms >= 1
    ensures unit != Milliseconds ==> ms % 1000 == 0
  {
    match unit
    case Milliseconds => 1
    case Seconds => 1000
    case Minutes => 60 * 1000
    case Hours => 60 * 60 * 1000
  }

  /** Jitter guard added to every freshly computed end time. */
  const EndTimeEpsilonMs: nat := 10

  /** The full span of one countdown: the duration plus the epsilon. */
  function Span(duration: nat, unit: Unit): (ms: nat)
    ensures ms >= EndTimeEpsilonMs
    ensures duration > 0 ==> ms > UnitMs(unit)
  {
    duration * UnitMs(unit) + EndTimeEpsilonMs
  }

  /** Remaining milliseconds until `endTime`, clamped at zero. */
  function CalculateTimeDiff(endTime: int, now: int): (diff: nat)
    ensures diff == 0 <==> endTime <= now
    ensures diff > 0 ==> now + diff == endTime
    ensures diff >= endTime - now
  {
    if endTime - now > 0 then endTime - now else 0
  }

  /** A fresh end time: `now` plus the duration plus the epsilon. */
  function CalculateEndTime(duration: nat, unit: Unit, now: int): (endTime: int)
    ensures endTime > now
    ensures CalculateTimeDiff(endTime, now) == Span(duration, unit)
  {
    now + duration * UnitMs(unit) + EndTimeEpsilonMs
  }

  /** The record the hook keeps in its state cell. */
  datatype TimerState = TimerState(endTime: int, isRunning: bool, maxTimeDiff: nat, currentTimeDiff: nat)

  /** The lazily computed initial state: idle, remaining equal to the maximum. */
  function InitialState(duration: nat, unit: Unit, now: int): (s: TimerState)
    ensures !s.isRunning
    ensures s.maxTimeDiff == Span(duration, unit) && s.currentTimeDiff == s.maxTimeDiff
    ensures CalculateTimeDiff(s.endTime, now) == s.maxTimeDiff
  {
    var endTime := CalculateEndTime(duration, unit, now);
    var maxTimeDiff := CalculateTimeDiff(endTime, now);
    TimerState(endTime, false, maxTimeDiff, maxTimeDiff)
  }

  /** The updater `startTimer` queues: only the end time is re-armed. */
  function StartUpdate(s: TimerState, duration: nat, unit: Unit, now: int): (t: TimerState)
    ensures t == s.(endTime := t.endTime)
    ensures CalculateTimeDiff(t.endTime, now) == Span(duration, unit)
  {
    s.(endTime := CalculateEndTime(duration, unit, now))
  }

  /** The state after `startTimer`: a running timer is left alone. */
  function StartTimerState(s: TimerState, duration: nat, unit: Unit, now: int): (t: TimerState)
    ensures s.isRunning ==> t == s
    ensures t.isRunning == s.isRunning && t.maxTimeDiff == s.maxTimeDiff && t.currentTimeDiff == s.currentTimeDiff
    ensures !s.isRunning ==> t.endTime == now + Span(duration, unit)
  {
    if s.isRunning then s else StartUpdate(s, duration, unit, now)
  }

  /** Whether the tick at `now` finds the countdown over. */
  function ShouldStop(s: TimerState, now: int): (stop: bool)
    ensures stop <==> s.endTime <= now
    ensures !stop ==> s.endTime - now > 0
  {
    CalculateTimeDiff(s.endTime, now) <= 0
  }

  /** The updater a tick runs: record the remaining time, run while it is positive. */
  function TickUpdate(s: TimerState, now: int): (t: TimerState)
    ensures t == s.(currentTimeDiff := t.currentTimeDiff, isRunning := t.isRunning)
    ensures t.isRunning <==> !ShouldStop(s, now)
    ensures t.isRunning <==> t.currentTimeDiff > 0
    ensures t.isRunning ==> t.currentTimeDiff == s.endTime - now
    ensures !t.isRunning <==> s.endTime <= now
  {
    var diff := CalculateTimeDiff(s.endTime, now);
    var shouldStop := diff <= 0;
    s.(currentTimeDiff := diff, isRunning := !shouldStop)
  }

  /** The updater of `stopTimer`: idle, and the countdown back at its full span. */
  function StopUpdate(s: TimerState, duration: nat, unit: Unit, now: int): (t: TimerState)
    ensures !t.isRunning
    ensures t.maxTimeDiff == s.maxTimeDiff
    ensures t.currentTimeDiff == Span(duration, unit)
    ensures CalculateTimeDiff(t.endTime, now) == t.currentTimeDiff
  {
    var endTime := CalculateEndTime(duration, unit, now);
    s.(isRunning := false, endTime := endTime, currentTimeDiff := CalculateTimeDiff(endTime, now))
  }

  /** The updater of `resetTimer`: the countdown back at its full span, running or not. */
  function ResetUpdate(s: TimerState, duration: nat, unit: Unit, now: int): (t: TimerState)
    ensures t.isRunning == s.isRunning
    ensures t.maxTimeDiff == s.maxTimeDiff
    ensures t.currentTimeDiff == Span(duration, unit)
    ensures CalculateTimeDiff(t.endTime, now) == t.currentTimeDiff
  {
    var endTime := CalculateEndTime(duration, unit, now);
    s.(endTime := endTime, currentTimeDiff := CalculateTimeDiff(endTime, now))
  }

  /**
    The state invariant, relative to the latest clock reading `lastNow`:
    the maximum is the full span, the remaining time lies in [0, maximum],
    the end time is at most one span ahead, and while running the recorded
    remaining time is not below what is actually left.
  */
  ghost predicate Inv(s: TimerState, span: nat, lastNow: int)
  {
    && s.maxTimeDiff == span
    && s.currentTimeDiff <= s.maxTimeDiff
    && s.endTime - lastNow <= span
    && (s.isRunning ==> s.endTime - lastNow <= s.currentTimeDiff)
  }

  lemma InitialStateInv(duration: nat, unit: Unit, now: int)
    ensures Inv(InitialState(duration, unit, now), Span(duration, unit), now)
  {
  }

  /** A clock that moves forward keeps the invariant. */
  lemma InvClockAdvance(s: TimerState, span: nat, lastNow: int, now: int)
    requires Inv(s, span, lastNow) && lastNow <= now
    ensures Inv(s, span, now)
  {
  }

  lemma StartPreservesInv(s: TimerState, duration: nat, unit: Unit, lastNow: int, now: int)
    requires Inv(s, Span(duration, unit), lastNow) && lastNow <= now
    ensures Inv(StartTimerState(s, duration, unit, now), Span(duration, unit), now)
  {
    if s.isRunning {
      InvClockAdvance(s, Span(duration, unit), lastNow, now);
    }
  }

  lemma TickPreservesInv(s: TimerState, span: nat, lastNow: int, now: int)
    requires Inv(s, span, lastNow) && lastNow <= now
    ensures Inv(TickUpdate(s, now), span, now)
  {
  }

  lemma StopPreservesInv(s: TimerState, duration: nat, unit: Unit, lastNow: int, now: int)
    requires Inv(s, Span(duration, unit), lastNow) && lastNow <= now
    ensures Inv(StopUpdate(s, duration, unit, now), Span(duration, unit), now)
  {
  }

  lemma ResetPreservesInv(s: TimerState, duration: nat, unit: Unit, lastNow: int, now: int)
    requires Inv(s, Span(duration, unit), lastNow) && lastNow <= now
    ensures Inv(ResetUpdate(s, duration, unit, now), Span(duration, unit), now)
  {
  }

  /** On a running timer, a tick at a later instant never shows more time left. */
  lemma TickNonIncreasing(s: TimerState, span: nat, lastNow: int, now: int)
    requires Inv(s, span, lastNow) && lastNow <= now && s.isRunning
    ensures TickUpdate(s, now).currentTimeDiff <= s.currentTimeDiff
  {
  }

  /**
    The bound `currentTimeDiff <= maxTimeDiff` rests on the options staying
    fixed: were a reset to use a longer duration than the one the maximum was
    computed from, the recorded remaining time would exceed the maximum.
  */
  lemma ChangedDurationExceedsMaximum(now: int)
    ensures ResetUpdate(InitialState(15, Seconds, now), 30, Seconds, now).currentTimeDiff
          > InitialState(15, Seconds, now).maxTimeDiff
  {
  }

  /** Stopping is resetting and then going idle: progress is discarded, not frozen. */
  lemma StopIsResetThenIdle(s: TimerState, duration: nat, unit: Unit, now: int)
    ensures StopUpdate(s, duration, unit, now) == ResetUpdate(s, duration, unit, now).(isRunning := false)
  {
  }

  ghost predicate NonDecreasing(nows: seq<int>)
  {
    forall i, j :: 0 <= i <= j < |nows| ==> nows[i] <= nows[j]
  }

  /**
    The remaining times a live interval records at the instants `nows`:
    one per tick, until the tick that finds the countdown over clears the
    interval, after which no further tick is delivered.
  */
  function TicksUntilStop(s: TimerState, nows: seq<int>): (observed: seq<nat>)
    ensures |observed| <= |nows|
    ensures nows != [] ==> observed != []
    ensures forall k :: 0 <= k < |observed| ==> observed[k] == CalculateTimeDiff(s.endTime, nows[k])
    ensures forall k :: 0 <= k < |observed| - 1 ==> observed[k] > 0
    ensures |observed| < |nows| ==> observed[|observed| - 1] == 0
    decreases |nows|
  {
    if nows == [] then []
    else
      var t := TickUpdate(s, nows[0]);
      [t.currentTimeDiff] + (if t.isRunning then TicksUntilStop(t, nows[1..]) else [])
  }

  /**
    With a clock that does not go back, the values successive ticks record are
    non-increasing, and only the last of them can be zero: the callback fires
    at most once per run.
  */
  lemma TicksNonIncreasing(s: TimerState, nows: seq<int>)
    requires NonDecreasing(nows)
    ensures var observed := TicksUntilStop(s, nows);
      forall i, j :: 0 <= i <= j < |observed| ==> observed[j] <= observed[i]
    ensures var observed := TicksUntilStop(s, nows);
      forall k :: 0 <= k < |observed| ==> (observed[k] == 0 <==> k == |observed| - 1 && s.endTime <= nows[k])
  {
  }

  /** A completion callback, named by an opaque id that the caller invokes. */
  type CallbackId = nat

  /** The default `onTimerEnd`: a callback that does nothing. */
  const NoOpCallback: CallbackId := 0

  /** A handle the host's interval scheduler hands out. */
  type IntervalHandle = nat

  /** The hook's options, with the scheduling cadence kept only as a stored value. */
  datatype TimerOptions = TimerOptions(duration: nat, unit: Unit, refreshTime: nat, onTimerEnd: CallbackId)

  /** The options a caller gets for every field it leaves out. */
  const DefaultOptions := TimerOptions(15, Minutes, 33, NoOpCallback)

  /** The hook's destructuring of a partial options object: each missing field takes its default. */
  function WithDefaults(duration: Option<nat>, unit: Option<Unit>, refreshTime: Option<nat>, onTimerEnd: Option<CallbackId>)
    : (options: TimerOptions)
    ensures duration.Some? ==> options.duration == duration.value
    ensures duration.None? ==> options.duration == 15
    ensures unit.Some? ==> options.unit == unit.value
    ensures unit.None? ==> options.unit == Minutes
    ensures refreshTime.Some? ==> options.refreshTime == refreshTime.value
    ensures refreshTime.None? ==> options.refreshTime == 33
    ensures onTimerEnd.Some? ==> options.onTimerEnd == onTimerEnd.value
    ensures onTimerEnd.None? ==> options.onTimerEnd == NoOpCallback
  {
    TimerOptions(
      if duration.Some? then duration.value else DefaultOptions.duration,
      if unit.Some? then unit.value else DefaultOptions.unit,
      if refreshTime.Some? then refreshTime.value else DefaultOptions.refreshTime,
      if onTimerEnd.Some? then onTimerEnd.value else DefaultOptions.onTimerEnd)
  }

  /** One instance of the `useTimer` hook. */
  class Timer {
    const duration: nat
    const unit: Unit
    const refreshTime: nat

    /** The state cell. */
    var state: TimerState
    /** The interval ref; clearing the interval leaves the old handle in it. */
    var timerInterval: Option<IntervalHandle>
    /** The intervals the host still runs for this engine. */
    var liveIntervals: set<IntervalHandle>
    /** The next handle the host will hand out. */
    var nextHandle: IntervalHandle
    /** The callback ref, read when the countdown reaches zero. */
    var onTimerEndCallback: CallbackId
    /** The latest clock reading an operation was given. */
    ghost var lastNow: int

    /** At most one interval is live, and it is the one the ref names. */
    ghost predicate IntervalsValid()
      reads this
    {
      match timerInterval
      case None => liveIntervals == {}
      case Some(h) => liveIntervals <= {h} && h < nextHandle
    }

    ghost predicate Valid()
      reads this
    {
      && IntervalsValid()
      && Inv(state, Span(duration, unit), lastNow)
      && (state.isRunning ==> liveIntervals != {})
    }

    constructor (options: TimerOptions, now: int)
      ensures Valid()
      ensures duration == options.duration && unit == options.unit && refreshTime == options.refreshTime
      ensures state == InitialState(options.duration, options.unit, now)
      ensures onTimerEndCallback == options.onTimerEnd
      ensures timerInterval == None && liveIntervals == {}
      ensures lastNow == now
    {
      duration, unit, refreshTime := options.duration, options.unit, options.refreshTime;
      state := InitialState(options.duration, options.unit, now);
      timerInterval, liveIntervals, nextHandle := None, {}, 0;
      onTimerEndCallback := options.onTimerEnd;
      lastNow := now;
      InitialStateInv(options.duration, options.unit, now);
    }

    method SetTimerEndCallback(callback: CallbackId)
      requires Valid()
      modifies this`onTimerEndCallback
      ensures Valid()
      ensures onTimerEndCallback == callback
    {
      onTimerEndCallback := callback;
    }

    /** Cancels the interval the ref names, if any; the ref keeps its handle. */
    method ClearTimerInterval()
      requires IntervalsValid()
      modifies this`liveIntervals
      ensures IntervalsValid()
      ensures liveIntervals == {}
    {
      if timerInterval.Some? {
        liveIntervals := liveIntervals - {timerInterval.value};
      }
    }

    /** Cancels any previous interval, then installs a fresh one. */
    method SetTimerInterval()
      requires IntervalsValid()
      modifies this`liveIntervals, this`timerInterval, this`nextHandle
      ensures IntervalsValid()
      ensures timerInterval == Some(old(nextHandle)) && old(nextHandle) !in old(liveIntervals)
      ensures liveIntervals == {old(nextHandle)}
    {
      ClearTimerInterval();
      timerInterval := Some(nextHandle);
      liveIntervals := liveIntervals + {nextHandle};
      nextHandle := nextHandle + 1;
    }

    /** Re-arms the end time and installs a fresh interval, unless already running. */
    method StartTimer(now: int)
      requires Valid() && lastNow <= now
      modifies this`state, this`timerInterval, this`liveIntervals, this`nextHandle, this`lastNow
      ensures Valid() && lastNow == now
      ensures state == StartTimerState(old(state), duration, unit, now)
      ensures liveIntervals != {}
      ensures old(state.isRunning) ==> timerInterval == old(timerInterval) && liveIntervals == old(liveIntervals)
      ensures !old(state.isRunning) ==> liveIntervals == {old(nextHandle)} && old(nextHandle) !in old(liveIntervals)
      ensures !old(state.isRunning) ==> timerInterval == Some(old(nextHandle))
    {
      StartPreservesInv(state, duration, unit, lastNow, now);
      if !state.isRunning {
        state := StartUpdate(state, duration, unit, now);
        SetTimerInterval();
      }
      lastNow := now;
    }

    /**
      One delivery of the interval. On the tick that finds the countdown over,
      the interval is cleared and the callback currently in the ref is
      returned for the caller to invoke.
    */
    method Tick(now: int) returns (fired: Option<CallbackId>)
      requires Valid() && lastNow <= now
      requires liveIntervals != {}
      modifies this`state, this`liveIntervals, this`lastNow
      ensures Valid() && lastNow == now
      ensures state == TickUpdate(old(state), now)
      ensures fired.Some? <==> ShouldStop(old(state), now)
      ensures fired.Some? ==> fired.value == onTimerEndCallback && liveIntervals == {}
      ensures fired.None? ==> liveIntervals == old(liveIntervals)
    {
      TickPreservesInv(state, Span(duration, unit), lastNow, now);
      fired := None;
      if ShouldStop(state, now) {
        ClearTimerInterval();
        fired := Some(onTimerEndCallback);
      }
      state := TickUpdate(state, now);
      lastNow := now;
    }

    /** Cancels the interval and puts the countdown back at its full span. */
    method StopTimer(now: int)
      requires Valid() && lastNow <= now
      modifies this`state, this`liveIntervals, this`lastNow
      ensures Valid() && lastNow == now
      ensures state == StopUpdate(old(state), duration, unit, now)
      ensures liveIntervals == {}
    {
      StopPreservesInv(state, duration, unit, lastNow, now);
      ClearTimerInterval();
      state := StopUpdate(state, duration, unit, now);
      lastNow := now;
    }

    /** Puts the countdown back at its full span; the interval is left as it is. */
    method ResetTimer(now: int)
      requires Valid() && lastNow <= now
      modifies this`state, this`lastNow
      ensures Valid() && lastNow == now
      ensures state == ResetUpdate(old(state), duration, unit, now)
    {
      ResetPreservesInv(state, duration, unit, lastNow, now);
      state := ResetUpdate(state, duration, unit, now);
      lastNow := now;
    }
  }
}
