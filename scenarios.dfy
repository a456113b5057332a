/**
  Concrete runs of the engine and of the alternation controller, each from a
  fresh construction at clock reading `t0`, with what the code as written
  yields at the end.
*/
module Scenarios {
  import opened Wrappers
  import opened TimerEngine
  import opened Alternation

  /**
    A 15-second timer started at t0, ticked after one cadence and at t0 + 15100 ms;
    the callback is replaced between the two ticks, and the replacement is the
    one that fires.
  */
  method FifteenSecondRun(t0: int) returns (firstDiff: nat, runningAfterFirst: bool,
                                            fired: Option<CallbackId>, finalDiff: nat, runningAtEnd: bool, intervalLive: bool)
    ensures firstDiff == 14910 && runningAfterFirst
    ensures fired == Some(8)
    ensures finalDiff == 0 && !runningAtEnd && !intervalLive
  {
    var timer := new Timer(TimerOptions(15, Seconds, 100, 7), t0);
    timer.StartTimer(t0);
    var none := timer.Tick(t0 + 100);
    firstDiff, runningAfterFirst := timer.state.currentTimeDiff, timer.state.isRunning;
    timer.SetTimerEndCallback(8);
    fired := timer.Tick(t0 + 15100);
    finalDiff, runningAtEnd, intervalLive := timer.state.currentTimeDiff, timer.state.isRunning, timer.liveIntervals != {};
  }

  /** A start issued while the first is still waiting for its first tick re-arms the end time. */
  method StartTwiceBeforeFirstTick(t0: int) returns (diff: nat, liveCount: nat)
    ensures diff == 15010 - 50 && liveCount == 1
  {
    var timer := new Timer(TimerOptions(15, Seconds, 100, NoOpCallback), t0);
    timer.StartTimer(t0);
    timer.StartTimer(t0 + 50);
    var none := timer.Tick(t0 + 100);
    diff, liveCount := timer.state.currentTimeDiff, |timer.liveIntervals|;
  }

  /** Stop right after start on a one-hour timer, then reset: the full hour plus epsilon is left. */
  method StopThenReset(t0: int) returns (remaining: nat, running: bool)
    ensures remaining == 3600010 && !running
  {
    var timer := new Timer(TimerOptions(1, Hours, 100, NoOpCallback), t0);
    timer.StartTimer(t0);
    timer.StopTimer(t0);
    timer.ResetTimer(t0 + 5000);
    remaining, running := timer.state.currentTimeDiff, timer.state.isRunning;
  }

  /**
    A click starts work; when work completes, the look-away timer has been
    started but does not report running before its own first tick, so the
    heading still reads "work" until that tick.
  */
  method WorkCompletes(t0: int) returns (workRunning: bool, lookAwayCounting: bool, lookAwayRunning: bool,
                                         headingBetween: string, headingAfter: string, workEndTime: int)
    ensures !workRunning && lookAwayCounting && !lookAwayRunning && workEndTime == t0 + 600010
    ensures headingBetween == "work" && headingAfter == "look away"
  {
    var app := new App(t0);
    app.WireCallbacks();
    app.HandleTimerClick(t0);
    var fired := app.TickTimer(WorkTimer, t0 + 100);
    fired := app.TickTimer(WorkTimer, t0 + 600010);
    workRunning, lookAwayCounting := app.workTimer.state.isRunning, app.lookAwayTimer.liveIntervals != {};
    lookAwayRunning, workEndTime := app.lookAwayTimer.state.isRunning, app.workTimer.state.endTime;
    headingBetween := TimerLabel(workRunning, lookAwayRunning);
    fired := app.TickTimer(LookAwayTimer, t0 + 600110);
    headingAfter := TimerLabel(app.workTimer.state.isRunning, app.lookAwayTimer.state.isRunning);
  }

  /**
    Two clicks within one cadence after work is running: the first switches to
    look-away, the second finds neither timer running and starts work again,
    so after the next ticks both timers run at once.
  */
  method QuickDoubleClick(t0: int) returns (workRunning: bool, lookAwayRunning: bool, shown: TimerChoice)
    ensures workRunning && lookAwayRunning && shown == WorkTimer
  {
    var app := new App(t0);
    app.WireCallbacks();
    app.HandleTimerClick(t0);
    var fired := app.TickTimer(WorkTimer, t0 + 100);
    app.HandleTimerClick(t0 + 200);
    app.HandleTimerClick(t0 + 250);
    fired := app.TickTimer(LookAwayTimer, t0 + 300);
    fired := app.TickTimer(WorkTimer, t0 + 300);
    workRunning, lookAwayRunning := app.workTimer.state.isRunning, app.lookAwayTimer.state.isRunning;
    shown := DisplayedTimer(workRunning, lookAwayRunning);
  }

  /**
    A click on an app whose callbacks are not yet wired starts work with one
    fresh interval and keeps both no-op callbacks; when work then completes it
    keeps its end time, records zero, and nothing else is started.
  */
  method UnwiredClickAndCompletion(t0: int) returns (workCallback: CallbackId, lookAwayCallback: CallbackId,
                                                     liveAfterClick: nat, endTime: int, finalDiff: nat, lookAwayCounting: bool)
    ensures workCallback == NoOpCallback && lookAwayCallback == NoOpCallback
    ensures liveAfterClick == 1
    ensures endTime == t0 + 600010 && finalDiff == 0 && !lookAwayCounting
  {
    var app := new App(t0);
    app.HandleTimerClick(t0);
    workCallback, lookAwayCallback := app.workTimer.onTimerEndCallback, app.lookAwayTimer.onTimerEndCallback;
    liveAfterClick := |app.workTimer.liveIntervals|;
    var fired := app.TickTimer(WorkTimer, t0 + 600010);
    endTime, finalDiff := app.workTimer.state.endTime, app.workTimer.state.currentTimeDiff;
    lookAwayCounting := app.lookAwayTimer.liveIntervals != {};
  }
}
