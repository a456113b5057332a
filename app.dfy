/**
  The alternation controller of the `App` component: a look-away timer and a
  work timer, each of whose completion callbacks starts the other, a click
  handler that switches between them, and the rule that picks the label and
  the timer shown.
*/
module Alternation {
  import opened Wrappers
  import opened TimerEngine

  /** The callback the effect gives the look-away timer: start the work timer. */
  const StartWorkCallback: CallbackId := 1
  /** The callback the effect gives the work timer: start the look-away timer. */
  const StartLookAwayCallback: CallbackId := 2

  /** 15 seconds, refreshed every 100 ms, no callback of its own. */
  const LookAwayOptions := WithDefaults(Some(15), Some(Seconds), Some(100), None)
  /** 10 minutes, refreshed every 100 ms, no callback of its own. */
  const WorkOptions := WithDefaults(Some(10), Some(Minutes), Some(100), None)

  const WorkLabel := "work"
  const LookAwayLabel := "look away"

  datatype TimerChoice = WorkTimer | LookAwayTimer

  function IsAnyTimerRunning(workRunning: bool, lookAwayRunning: bool): bool
  {
    workRunning || lookAwayRunning
  }

  /** The heading shown above the countdown. */
  function TimerLabel(workRunning: bool, lookAwayRunning: bool): (heading: string)
    ensures heading == WorkLabel || heading == LookAwayLabel
    ensures heading == LookAwayLabel <==> !workRunning && lookAwayRunning
  {
    if !IsAnyTimerRunning(workRunning, lookAwayRunning) then WorkLabel
    else if workRunning then WorkLabel
    else LookAwayLabel
  }

  /** Whose countdown is displayed. */
  function DisplayedTimer(workRunning: bool, lookAwayRunning: bool): (shown: TimerChoice)
    ensures shown == LookAwayTimer <==> !workRunning && lookAwayRunning
  {
    if !IsAnyTimerRunning(workRunning, lookAwayRunning) then WorkTimer
    else if workRunning then WorkTimer
    else LookAwayTimer
  }

  /** The label always names the timer that is displayed. */
  lemma LabelNamesDisplayedTimer(workRunning: bool, lookAwayRunning: bool)
    ensures TimerLabel(workRunning, lookAwayRunning) == WorkLabel
        <==> DisplayedTimer(workRunning, lookAwayRunning) == WorkTimer
  {
  }

  /** The engine a callback starts, if any; every other id is the no-op default. */
  function CallbackTarget(callback: CallbackId): (target: Option<TimerChoice>)
    ensures target == Some(WorkTimer) <==> callback == StartWorkCallback
    ensures target == Some(LookAwayTimer) <==> callback == StartLookAwayCallback
  {
    if callback == StartWorkCallback then Some(WorkTimer)
    else if callback == StartLookAwayCallback then Some(LookAwayTimer)
    else None
  }

  /** The three branches of the click handler. */
  datatype ClickAction = StopWorkStartLookAway | StopLookAwayStartWork | StartWorkOnly

  /** Which branch a click takes; the work timer is examined first. */
  function ClickDispatch(workRunning: bool, lookAwayRunning: bool): (action: ClickAction)
    ensures action == StopWorkStartLookAway <==> workRunning
    ensures action == StopLookAwayStartWork <==> !workRunning && lookAwayRunning
    ensures action == StartWorkOnly <==> !workRunning && !lookAwayRunning
  {
    if workRunning then StopWorkStartLookAway
    else if lookAwayRunning then StopLookAwayStartWork
    else StartWorkOnly
  }

  class App {
    const lookAwayTimer: Timer
    const workTimer: Timer

    ghost predicate Valid()
      reads this, lookAwayTimer, workTimer
    {
      && lookAwayTimer != workTimer
      && lookAwayTimer.Valid() && workTimer.Valid()
      && lookAwayTimer.duration == LookAwayOptions.duration && lookAwayTimer.unit == LookAwayOptions.unit
      && workTimer.duration == WorkOptions.duration && workTimer.unit == WorkOptions.unit
    }

    /** Each timer's callback starts the other one. */
    ghost predicate Wired()
      reads this, lookAwayTimer, workTimer
    {
      lookAwayTimer.onTimerEndCallback == StartWorkCallback && workTimer.onTimerEndCallback == StartLookAwayCallback
    }

    /** Both clocks have been read no later than `now`. */
    ghost predicate ClockAt(now: int)
      reads this, lookAwayTimer, workTimer
    {
      lookAwayTimer.lastNow <= now && workTimer.lastNow <= now
    }

    function Engine(which: TimerChoice): Timer
    {
      if which == WorkTimer then workTimer else lookAwayTimer
    }

    constructor (now: int)
      ensures Valid() && fresh(lookAwayTimer) && fresh(workTimer)
      ensures lookAwayTimer.state == InitialState(LookAwayOptions.duration, LookAwayOptions.unit, now)
      ensures workTimer.state == InitialState(WorkOptions.duration, WorkOptions.unit, now)
      ensures lookAwayTimer.liveIntervals == {} && workTimer.liveIntervals == {}
      ensures lookAwayTimer.onTimerEndCallback == NoOpCallback && workTimer.onTimerEndCallback == NoOpCallback
      ensures lookAwayTimer.lastNow == now && workTimer.lastNow == now
    {
      lookAwayTimer := new Timer(LookAwayOptions, now);
      workTimer := new Timer(WorkOptions, now);
    }

    /** The effect that wires each timer's completion to the other's start. */
    method WireCallbacks()
      requires Valid()
      modifies lookAwayTimer`onTimerEndCallback, workTimer`onTimerEndCallback
      ensures Valid() && Wired()
    {
      lookAwayTimer.SetTimerEndCallback(StartWorkCallback);
      workTimer.SetTimerEndCallback(StartLookAwayCallback);
    }

    /** Invokes the callback with the given id: it starts its engine and leaves the other alone. */
    method RunCallback(callback: CallbackId, now: int)
      requires Valid() && ClockAt(now)
      modifies workTimer`state, workTimer`timerInterval, workTimer`liveIntervals, workTimer`nextHandle, workTimer`lastNow
      modifies lookAwayTimer`state, lookAwayTimer`timerInterval, lookAwayTimer`liveIntervals, lookAwayTimer`nextHandle, lookAwayTimer`lastNow
      ensures Valid() && ClockAt(now)
      ensures CallbackTarget(callback) == Some(WorkTimer) ==> Started(workTimer, now) && unchanged(lookAwayTimer)
      ensures CallbackTarget(callback) == Some(LookAwayTimer) ==> Started(lookAwayTimer, now) && unchanged(workTimer)
      ensures CallbackTarget(callback) == None ==> unchanged(lookAwayTimer) && unchanged(workTimer)
    {
      match CallbackTarget(callback)
      case Some(WorkTimer) =>
        workTimer.StartTimer(now);
      case Some(LookAwayTimer) =>
        lookAwayTimer.StartTimer(now);
      case None =>
    }

    /** The click handler: switch timers, or start work when both are idle. */
    method HandleTimerClick(now: int)
      requires Valid() && ClockAt(now)
      modifies workTimer`state, workTimer`timerInterval, workTimer`liveIntervals, workTimer`nextHandle, workTimer`lastNow
      modifies lookAwayTimer`state, lookAwayTimer`timerInterval, lookAwayTimer`liveIntervals, lookAwayTimer`nextHandle, lookAwayTimer`lastNow
      ensures Valid() && ClockAt(now)
      ensures ClickDispatch(old(workTimer.state.isRunning), old(lookAwayTimer.state.isRunning)) == StopWorkStartLookAway ==>
        Stopped(workTimer, now) && Started(lookAwayTimer, now)
      ensures ClickDispatch(old(workTimer.state.isRunning), old(lookAwayTimer.state.isRunning)) == StopLookAwayStartWork ==>
        Stopped(lookAwayTimer, now) && Started(workTimer, now)
      ensures ClickDispatch(old(workTimer.state.isRunning), old(lookAwayTimer.state.isRunning)) == StartWorkOnly ==>
        Started(workTimer, now) && unchanged(lookAwayTimer)
    {
      match ClickDispatch(workTimer.state.isRunning, lookAwayTimer.state.isRunning)
      case StopWorkStartLookAway =>
        workTimer.StopTimer(now);
        lookAwayTimer.StartTimer(now);
      case StopLookAwayStartWork =>
        lookAwayTimer.StopTimer(now);
        workTimer.StartTimer(now);
      case StartWorkOnly =>
        workTimer.StartTimer(now);
    }

    /**
      One delivery of `which` timer's interval, followed by the callback it
      fires, if any. Once wired, the timer that completes is idle with no
      interval, and the other one has been started.
    */
    method TickTimer(which: TimerChoice, now: int) returns (fired: Option<CallbackId>)
      requires Valid() && ClockAt(now)
      requires Engine(which).liveIntervals != {}
      modifies workTimer`state, workTimer`timerInterval, workTimer`liveIntervals, workTimer`nextHandle, workTimer`lastNow
      modifies lookAwayTimer`state, lookAwayTimer`timerInterval, lookAwayTimer`liveIntervals, lookAwayTimer`nextHandle, lookAwayTimer`lastNow
      ensures Valid() && ClockAt(now)
      ensures fired.Some? <==> ShouldStop(old(Engine(which).state), now)
      ensures fired.Some? ==> fired.value == old(Engine(which).onTimerEndCallback)
      ensures fired.None? ==>
        && Engine(which).state == TickUpdate(old(Engine(which).state), now)
        && Engine(which).liveIntervals == old(Engine(which).liveIntervals)
        && unchanged(Engine(Other(which)))
      ensures fired.Some? && CallbackTarget(fired.value) != Some(which) ==>
        && Engine(which).state == TickUpdate(old(Engine(which).state), now)
        && Engine(which).liveIntervals == {}
      ensures fired.Some? && CallbackTarget(fired.value) == Some(which) ==>
        && Engine(which).state == StartUpdate(TickUpdate(old(Engine(which).state), now), Engine(which).duration, Engine(which).unit, now)
        && Engine(which).liveIntervals == {old(Engine(which).nextHandle)}
        && unchanged(Engine(Other(which)))
      ensures fired.Some? && CallbackTarget(fired.value) == Some(Other(which)) ==> Started(Engine(Other(which)), now)
      ensures fired.Some? && CallbackTarget(fired.value) == None ==> unchanged(Engine(Other(which)))
      ensures fired.Some? && old(Wired()) ==>
        && CallbackTarget(fired.value) == Some(Other(which))
        && !Engine(which).state.isRunning
        && Engine(which).state.currentTimeDiff == 0
        && Engine(which).liveIntervals == {}
        && Started(Engine(Other(which)), now)
    {
      var engine := Engine(which);
      fired := engine.Tick(now);
      if fired.Some? {
        RunCallback(fired.value, now);
      }
    }
  }

  /**
    `t` has been started at `now`: a running engine keeps its state and its
    interval; an idle one has its end time re-armed and exactly one fresh
    interval, named by its ref.
  */
  twostate predicate Started(t: Timer, now: int)
    reads t
  {
    && t.state == StartTimerState(old(t.state), t.duration, t.unit, now)
    && t.lastNow == now
    && t.onTimerEndCallback == old(t.onTimerEndCallback)
    && t.liveIntervals != {}
    && (old(t.state.isRunning) ==> t.liveIntervals == old(t.liveIntervals) && t.timerInterval == old(t.timerInterval))
    && (!old(t.state.isRunning) ==> t.liveIntervals == {old(t.nextHandle)} && t.timerInterval == Some(old(t.nextHandle)))
  }

  /** `t` has been stopped at `now`: idle, back at its full span, no interval live, callback kept. */
  twostate predicate Stopped(t: Timer, now: int)
    reads t
  {
    && t.state == StopUpdate(old(t.state), t.duration, t.unit, now)
    && t.lastNow == now
    && t.onTimerEndCallback == old(t.onTimerEndCallback)
    && t.liveIntervals == {}
  }

  function Other(which: TimerChoice): (other: TimerChoice)
    ensures other != which
  {
    if which == WorkTimer then LookAwayTimer else WorkTimer
  }
}
