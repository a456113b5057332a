# Work / look-away countdown timers, modelled in Dafny

The application alternates two countdowns: a work period (10 minutes) and a
look-away period (15 seconds). Each countdown is an instance of the
`useTimer` hook, the timer engine. The engine keeps an absolute end time and
a record of `isRunning`, `maxTimeDiff` and `currentTimeDiff`. It also keeps
two mutable refs: the handle of its periodic interval and its completion
callback. On every tick it recomputes the remaining time from the wall
clock, clamped at zero. On the tick that finds zero it clears its interval
and invokes the callback that is registered at that moment. The `App`
component wires each engine's callback to start the other engine. Clicking
the display switches from one engine to the other. The label and the shown
countdown follow which engine reports running.

Files:

- `wrappers.dfy`: `Option`.
- `timer_engine.dfy` (module `TimerEngine`, from `src/hooks/useTimer.ts`):
  - The pure helpers `CalculateTimeDiff` and `CalculateEndTime`.
  - The hook's state updaters as pure functions over the `TimerState` record.
  - The invariant `Inv` and the lemmas showing that every updater keeps it.
  - `TicksUntilStop`, the sequence of values a live interval records.
  - The class `Timer`, whose fields are the hook's state cell and refs. Its
    methods apply the updaters and overwrite the refs.
- `app.dfy` (module `Alternation`, from `src/components/App.tsx`):
  - The pure selection rules `TimerLabel`, `DisplayedTimer` and `ClickDispatch`.
  - The class `App`, which holds the two engines. It has the callback-wiring
    effect, the click handler, and a tick that runs the fired callback.
- `scenarios.dfy` (module `Scenarios`): concrete runs from a fresh construction
  and what the code as written yields at their end.

How the model represents the outside world:

- The wall clock is an explicit argument `now`, in milliseconds. A ghost
  field `lastNow` records the latest reading. Every operation requires
  `now >= lastNow`.
- The host's interval scheduler is the set `liveIntervals` of handles still
  running for the engine, plus a counter for fresh handles. `Tick` may be
  called only while an interval is live.
- A callback is an opaque `CallbackId`. `Tick` returns the id to fire, read
  from the callback ref at that moment. `App.RunCallback` gives the ids their
  meaning: start the work timer, start the look-away timer, or do nothing
  (the default `onTimerEnd`).

Behaviours of the code that the model keeps as written:

- `startTimer` does not set `isRunning`. The flag becomes true only on the
  first tick with a positive remainder. So `isRunning` implies a live
  interval, but not the other way round. This is the `Timer.Valid` invariant.
- A consequence is that a second `startTimer` before the first tick re-arms
  the end time (`StartTwiceBeforeFirstTick`).
- Another consequence: when one engine completes, the other engine has a live
  interval but reports not running until its own first tick (`WorkCompletes`).
- A third consequence: two clicks within one cadence can leave both engines
  running at once (`QuickDoubleClick`).
- `stopTimer` discards progress. It re-arms the end time to a full span and
  does not freeze the remaining time (`StopIsResetThenIdle`).
- `maxTimeDiff` is set only at construction. No operation changes it.
- Every freshly computed end time lies 10 ms beyond the duration. The model
  names this margin `EndTimeEpsilonMs`.

## Model

| member | source | states |
|---|---|---|
| `TimerEngine.UnitMs` | src/hooks/useTimer.ts:35-36 | every fixed unit is a positive whole number of milliseconds, a multiple of 1000 above milliseconds |
| `TimerEngine.Span` | src/hooks/useTimer.ts:35-36 | a full countdown span is the duration in milliseconds plus the 10 ms epsilon, so it is never below the epsilon |
| `TimerEngine.CalculateTimeDiff` | src/hooks/useTimer.ts:32-33 | remaining time is never negative; it is zero exactly when the end time is not in the future, and otherwise it is the distance to the end time |
| `TimerEngine.CalculateEndTime` | src/hooks/useTimer.ts:35-36 | a fresh end time lies in the future, and the remaining time measured at the same instant is exactly the full span |
| `TimerEngine.InitialState` | src/hooks/useTimer.ts:48-57 | a new engine is not running, and its current and maximum remaining time both equal the full span |
| `TimerEngine.StartUpdate` | src/hooks/useTimer.ts:81-84 | the start updater changes only the end time, re-armed one full span ahead |
| `TimerEngine.StartTimerState` | src/hooks/useTimer.ts:79-84 | start on a running timer changes nothing; otherwise only the end time moves; `isRunning`, `maxTimeDiff` and `currentTimeDiff` are untouched |
| `TimerEngine.ShouldStop` | src/hooks/useTimer.ts:87-88 | a tick finds the countdown over exactly when the end time is not in the future; otherwise time is strictly left |
| `TimerEngine.TickUpdate` | src/hooks/useTimer.ts:86-94 | a tick records the clamped remaining time and sets `isRunning` exactly when it is positive; nothing else changes |
| `TimerEngine.StopUpdate` | src/hooks/useTimer.ts:101-109 | stop leaves the engine idle with the current remaining time back at the full span, measured from the new end time; `maxTimeDiff` is kept |
| `TimerEngine.ResetUpdate` | src/hooks/useTimer.ts:113-120 | reset puts the current remaining time back at the full span and keeps `isRunning` and `maxTimeDiff` |
| `TimerEngine.InitialStateInv` | src/hooks/useTimer.ts:48-57 | the initial state satisfies the invariant `0 <= currentTimeDiff <= maxTimeDiff` and its companions |
| `TimerEngine.InvClockAdvance` | src/hooks/useTimer.ts:32-33 | the invariant survives the clock moving forward |
| `TimerEngine.StartPreservesInv` | src/hooks/useTimer.ts:79-97 | start keeps the invariant |
| `TimerEngine.TickPreservesInv` | src/hooks/useTimer.ts:86-94 | a tick keeps the invariant, so remaining time stays within `[0, maxTimeDiff]` |
| `TimerEngine.StopPreservesInv` | src/hooks/useTimer.ts:99-110 | stop keeps the invariant |
| `TimerEngine.ResetPreservesInv` | src/hooks/useTimer.ts:112-121 | reset keeps the invariant |
| `TimerEngine.TickNonIncreasing` | src/hooks/useTimer.ts:86-93 | on a running engine, a tick at a later instant never records more remaining time than is recorded now |
| `TimerEngine.ChangedDurationExceedsMaximum` | src/hooks/useTimer.ts:112-121 | a reset with a longer duration than the one `maxTimeDiff` was computed from (15 s, then 30 s) records more remaining time than the maximum |
| `TimerEngine.StopIsResetThenIdle` | src/hooks/useTimer.ts:99-121 | stop equals reset followed by going idle: progress is discarded, not frozen |
| `TimerEngine.TicksUntilStop` | src/hooks/useTimer.ts:85-95 | a live interval records one value per tick, each the remaining time to the same end time; only the last can be zero, and the run ends early only on a zero |
| `TimerEngine.TicksNonIncreasing` | src/hooks/useTimer.ts:85-95 | with a non-decreasing clock, successive tick values are non-increasing, and a zero (the firing tick) occurs only as the last value |
| `TimerEngine.WithDefaults` | src/hooks/useTimer.ts:38-43 | each option the caller gives is kept; a missing one takes its default: 15, minutes, 33 ms, and the no-op callback |
| `TimerEngine.Timer.constructor` | src/hooks/useTimer.ts:38-57 | a new engine holds the initial state, the given callback and no interval |
| `TimerEngine.Timer.SetTimerEndCallback` | src/hooks/useTimer.ts:61-64 | the callback ref holds the new callback |
| `TimerEngine.Timer.ClearTimerInterval` | src/hooks/useTimer.ts:66-69 | no interval of this engine is live afterwards; the ref keeps its stale handle |
| `TimerEngine.Timer.SetTimerInterval` | src/hooks/useTimer.ts:71-77 | after clearing, exactly one fresh interval is live and the ref names it |
| `TimerEngine.Timer.StartTimer` | src/hooks/useTimer.ts:79-97 | the state becomes `StartTimerState`; a live interval exists afterwards; on an idle engine it is a single fresh one; a running engine keeps its interval |
| `TimerEngine.Timer.Tick` | src/hooks/useTimer.ts:85-95 | the state becomes `TickUpdate`; the callback fires exactly when the countdown is over, it is the one in the ref at that moment, and the interval is then cleared, so no further tick comes |
| `TimerEngine.Timer.StopTimer` | src/hooks/useTimer.ts:99-110 | the state becomes `StopUpdate`, no interval is live, and no callback fires |
| `TimerEngine.Timer.ResetTimer` | src/hooks/useTimer.ts:112-121 | the state becomes `ResetUpdate`; interval and callback are untouched |
| `Alternation.TimerLabel` | src/components/App.tsx:57-61 | the heading is "look away" exactly when work is idle and look-away is running, and "work" otherwise |
| `Alternation.DisplayedTimer` | src/components/App.tsx:64-68 | the look-away countdown is shown exactly when work is idle and look-away is running |
| `Alternation.LabelNamesDisplayedTimer` | src/components/App.tsx:57-68 | the heading always names the engine whose countdown is shown |
| `Alternation.CallbackTarget` | src/components/App.tsx:24-32 | the look-away timer's wired callback starts work, the work timer's starts look-away, and every other id (the default no-op) starts nothing |
| `Alternation.ClickDispatch` | src/components/App.tsx:41-51 | a click stops work and starts look-away whenever work runs; else it stops look-away and starts work if look-away runs; else it starts work only |
| `Alternation.App.constructor` | src/components/App.tsx:7-19 | two distinct engines (15 s and 10 min) in their initial state, each with the no-op callback and no interval |
| `Alternation.App.WireCallbacks` | src/components/App.tsx:23-33 | look-away's callback starts work and work's callback starts look-away |
| `Alternation.App.RunCallback` | src/components/App.tsx:24-32 | each wired callback starts its engine (a running engine keeps its interval; an idle one has its end time re-armed and exactly one fresh interval) and leaves the other engine untouched; any other callback changes nothing; no callback ref is ever changed |
| `Alternation.App.HandleTimerClick` | src/components/App.tsx:41-51 | per `ClickDispatch`, the stopped engine is idle at its full span with no interval; the started engine is re-armed with exactly one fresh interval if it was idle and kept as it was if running; on a work-only start look-away is untouched; neither callback ref changes |
| `Alternation.App.TickTimer` | src/components/App.tsx:24-32 | the tick fires exactly when the countdown is over, returning the callback held at that moment; the ticking engine's state is the tick's update (followed by a re-arm only if its own callback restarts it); the other engine is untouched unless the callback starts it; once wired, the completed engine is idle at zero with no interval and the other has been started |
| `Scenarios.FifteenSecondRun` | src/hooks/useTimer.ts:79-97 | a 15 s timer started at t0 records 14910 ms at t0+100 and is running; at t0+15100 it fires the most recently set callback once, records 0, is idle and has no interval |
| `Scenarios.StartTwiceBeforeFirstTick` | src/hooks/useTimer.ts:79-97 | a second start before the first tick re-arms the end time, and still exactly one interval is live |
| `Scenarios.StopThenReset` | src/hooks/useTimer.ts:99-121 | stop right after start on a one-hour timer, then reset, leaves 3600010 ms remaining and the engine idle |
| `Scenarios.WorkCompletes` | src/components/App.tsx:24-32 | when work completes, work is idle with its end time kept and look-away has a live interval but reports not running, so the heading says "work" until look-away's first tick |
| `Scenarios.UnwiredClickAndCompletion` | src/components/App.tsx:41-51 | a click before the callbacks are wired starts work with exactly one interval and keeps both no-op callbacks; when work completes it keeps its end time, records zero, and look-away is not started |
| `Scenarios.QuickDoubleClick` | src/components/App.tsx:41-51 | two clicks within one cadence, after work has started running, leave both engines running, and the work countdown is shown |

## Left out

- React mechanics: `useState`, `useRef` and `useCallback` memoisation, and
  re-renders. Each queued state updater runs once, at once, in order. The
  stale closure read of `isRunning` in `startTimer` is not modelled:
  `StartTimer` reads the current state.
- React StrictMode may run the tick updater, and so the callback, twice.
  This is not modelled.
- Real scheduling: `setInterval`/`clearInterval` and the `refreshTime`
  cadence. Ticks are an external call with a caller-supplied clock reading.
  `refreshTime` is only stored. Interval handles are numbered per engine,
  not globally.
- Two clock readings: the source reads the clock once in `calculateEndTime`
  and again in `calculateTimeDiff`. This happens at construction, in
  `stopTimer` and in `resetTimer`. The model uses one reading for both. With
  two distinct readings, `maxTimeDiff` could be a few milliseconds below the
  span. The bound `currentTimeDiff <= maxTimeDiff` could then be exceeded by
  the same amount.
- Callback order: the source invokes the callback inside the tick updater,
  before the updater returns the new state. The model applies the new state
  first and then returns the callback for the caller to run. The two orders
  differ for a callback that acts on the engine that fired it, and for a
  callback that throws. Callbacks in the model cannot throw. In the source the
  interval is cleared (src/hooks/useTimer.ts:90) before the callback runs
  (line 91), so a throwing callback would leave the interval cleared and the
  tick's new state unrecorded; an engine that was running would then stay
  `isRunning` with no live interval, a state `Timer.Valid` rules out. `App`
  registers only callbacks that call the other engine's `startTimer` and
  `play()` on an audio element, so neither case arises there.
- Options that change between renders: each engine's `duration`, `unit` and
  `refreshTime` are fixed at construction. The hook reads `duration` and
  `unit` afresh on every render, so a changed value would apply to later end
  times in `startTimer`, `stopTimer` and `resetTimer`. `maxTimeDiff` keeps the
  value from the first render, so the bound `currentTimeDiff <= maxTimeDiff`
  could then be exceeded (`ChangedDurationExceedsMaximum`). `App` passes
  literal options, so this never happens there.
- A clock that goes backwards: every operation requires a non-decreasing
  clock. The source would still clamp at zero, but the upper bound on the
  remaining time would no longer hold.
- The calendar-dependent units of the `moment` library: days, weeks, months,
  quarters and years, which it adds by calendar date. Fractional durations
  are left out too. Durations are whole numbers of milliseconds, seconds,
  minutes or hours.
- Duration formatting (`TimerDisplay`), `currentDisplay`/`displayFormat`
  (which the hook does not provide), the `document.title` effect, sound
  playback, JSX rendering and `ProgressBar`.
- Disposal: the hook installs no cleanup, so nothing cancels a live interval
  when the component goes away.
- Configuration validation: the source performs none. Durations are natural
  numbers.
