# Live quiz show session: timer state machine and client synchronisation

This project models the control channel of a live quiz display. One operator
console drives a single show session: the current question, the highlighted
answer, a countdown timer and the active screen. Every connected display must
see the same state, including displays that connect in the middle of a show.

The model is written in three modules and one file of show sequences.

- `Protocol` (protocol.dfy) holds the values the session keeps and sends: the
  question record, a timer setting (`Seconds(n)` or `Unlimited`), the answer
  highlight, the phase sent in `timer-state`, and one constructor of `Msg` per
  outbound socket event with its payload fields. It also holds the
  `question-update` guard. A blank string is one that is empty or made only of
  the characters JavaScript's `trim` removes.
- `TimerMath` (timer.dfy) holds the drift-free countdown arithmetic. Remaining
  time is `max(0, value - floor((now - start) / 1000))`, and it is always
  recomputed from the start timestamp. Resuming moves the start timestamp
  forward by the time spent paused. The lemmas prove that one pause/resume
  cycle keeps the frozen value. They also prove that any sequence of cycles
  shifts the start by exactly the total paused time, so the countdown only
  consumes running time.
- `ShowSession` (session.dfy) holds the class `Session`. Its fields are the
  server's module-level variables, at app.js:10-23. Each socket event handler
  is a method. It takes the payload and the clock reading `now` in
  milliseconds, checks the handler's guard, updates the fields, and appends
  what `io.emit` sends to the shared `outbox`. The two replies sent only to the
  asking socket are returned instead: the resync on connection and the answer
  to `get-timer`. `Valid()` is the representation invariant of the timer flags:
  - a stopped timer is flagged paused and has no timestamps;
  - a started timer has a start time, and it has a pause time exactly when it
    is paused.
  Every handler preserves it. `TimeLeft(now)` is the remaining time derived
  from the timestamps.
- `ShowScenarios` (scenarios.dfy) drives the handlers through short shows.
  These sequences use only the handlers' contracts:
  - a pause and resume;
  - any ordered sequence of pause/resume cycles, driven in a loop, after which
    the start time has moved forward by exactly the total time spent paused;
  - a 45-second countdown read 10 seconds in, and a tick dropped by the
    throttle;
  - a rejected question;
  - a highlight reproduced for a late joiner.

Behaviour of the code that the model keeps as written:

- `currentQuestion` is always an object. So the "question exists" checks always
  pass, and a client that connects always receives `display-question`, even
  for the empty placeholder.
- The answer index is checked against the number of options the question
  actually has, not against 4.
- `question-update` sets `currentTimerValue` to the configured duration even
  while the timer is started or paused. So after an edit during a pause,
  `get-timer` and a late joiner see the full duration, not the frozen value.
  The countdown itself resumes correctly, because it is recomputed from the
  timestamps.
- `remove-question` stops the timer but keeps `currentTimerValue`, the
  configured duration and the screen. It sends two events, `clear-question`
  and then `timer-state` stopped.
- Only timer broadcasts reset the throttle: `lastBroadcastTime` is set only by
  `show-options` (app.js:103) and by `updateTimerForAllClients` (app.js:274),
  not by the other broadcasts.
- Several handlers read the clock more than once in one event: `show-options`
  (app.js:90, 103), `continue-timer` (app.js:193, 197) and the throttled
  broadcast (app.js:269, then app.js:252 once per socket). The model uses one
  reading `now` for all of them; see "Left out".

## Model

| member | source | states |
|---|---|---|
| `Protocol.HighlightMessages` | app.js:33-41 | no event when nothing is highlighted; otherwise exactly one event, of the highlight's kind, carrying its index |
| `TimerMath.Remaining` | app.js:252-253 | remaining time is never negative and never above a non-negative configured value; it is zero exactly when `value` whole seconds have elapsed, and otherwise `value - r` whole seconds have elapsed |
| `TimerMath.RemainingAtStart` | app.js:89-99 | at the start instant the countdown shows the full configured value |
| `TimerMath.RemainingNonIncreasing` | app.js:252-253 | as the clock moves forward the remaining time never goes up |
| `TimerMath.ResumedStart` | app.js:193 | the resumed start time is the old start moved forward by the paused duration, so the running time measured at resume equals the running time up to the pause |
| `TimerMath.ResumePreservesRemaining` | app.js:193-198 | remaining time computed right after resuming equals the value frozen at the pause, for any pause length |
| `TimerMath.StartAfter` | app.js:189-205 | after any ordered sequence of pause/resume cycles the start time is not earlier than the original start and not later than the last resume |
| `TimerMath.StartAfterShiftsByPausedTotal` | app.js:193 | after any sequence of cycles the start time has moved forward by exactly the total paused time |
| `TimerMath.CountsOnlyRunningTime` | app.js:193-198 | after any sequence of cycles, remaining time at `now` equals remaining time with the total paused time subtracted from the clock |
| `ShowSession.Session.constructor` | app.js:10-23 | the initial state: placeholder question, 30-second timer, stopped, no highlight, screen "logo", no broadcast yet |
| `ShowSession.Session.TimerUpdateMessages` | app.js:225-266 | the per-client snapshot is an `update-timer` and an agreeing `current-timer`; for "unlimited" only those two, with no start position; when paused they carry the stored value and end with `freeze-timer`; when running they carry the time left, recomputed from the start time, and end with `unfreeze-timer` |
| `ShowSession.Session.OnConnection` | app.js:25-48 | the late-join resync, in order: `display-question`; `show-options` with the timer snapshot only if options are shown; the highlight event; `change-screen`; `timer-state` with the derived phase |
| `ShowSession.Session.OnQuestionUpdate` | app.js:50-83 | blank or missing text or options change nothing and send nothing; while started the text and options are edited and the displayed value and the maximum are reset to the configured duration, keeping the countdown timestamps and flags; while stopped a fresh question replaces the old and the highlight is cleared; `display-question` then `timer-state` are broadcast |
| `ShowSession.Session.OnShowOptions` | app.js:85-104 | while started nothing changes; otherwise options are revealed, the countdown starts at `now` with its full value, and `show-options`, `update-timer` (current = value, start position = 59 - value), `timer-state running` are broadcast |
| `ShowSession.Session.PauseTimer` | app.js:213-223 | a no-op unless running; otherwise the timer is paused at `now`, the stored value becomes the time left, the time left stops moving, and `freeze-timer`, `timer-state paused` are broadcast |
| `ShowSession.Session.OnPickAnswer` | app.js:106-113 | an index outside the options changes nothing; otherwise the option is highlighted as selected, the lock cue is sent, and the timer is paused as by `pauseTimer` |
| `ShowSession.Session.OnMarkCorrect` | app.js:115-121 | an index outside the options changes nothing; otherwise the option is marked correct and the correct cue is sent |
| `ShowSession.Session.OnMarkWrong` | app.js:123-129 | an index outside the options changes nothing; otherwise the option is marked wrong and the wrong cue is sent |
| `ShowSession.Session.OnResetTimer` | app.js:131-140 | while started nothing changes; otherwise the displayed value is re-armed to the configured value and broadcast |
| `ShowSession.Session.OnChangeTimer` | app.js:142-153 | while started nothing changes; otherwise duration, maximum and displayed value all become the new value, which is broadcast |
| `ShowSession.Session.OnFreezeTimer` | app.js:155-157 | the effect of `pauseTimer` without the pause sound |
| `ShowSession.Session.OnRemoveQuestion` | app.js:159-171 | the question becomes the placeholder, the highlight is cleared and the timer stopped, keeping duration, displayed value and screen; exactly `clear-question` then `timer-state stopped` are broadcast |
| `ShowSession.Session.OnPlayAudio` | app.js:173-175 | the cue is relayed unchanged and nothing else changes |
| `ShowSession.Session.OnGetTimer` | app.js:177-182 | the asking client receives the timer snapshot followed by `timer-state` with the derived phase |
| `ShowSession.Session.OnPauseTimer` | app.js:184-187 | a no-op unless running; otherwise a pause with the pause sound |
| `ShowSession.Session.OnContinueTimer` | app.js:189-205 | a no-op unless paused; otherwise the start time moves forward by the paused time, the timer runs again, the time left equals the value at the pause, and the unfreeze, the snapshot carrying that value, and `timer-state running` are broadcast |
| `ShowSession.Session.OnSetScreen` | app.js:207-210 | only the screen changes, and the new screen is broadcast |
| `ShowSession.Session.UpdateTimerForAllClients` | app.js:268-279 | a routine update less than 950 ms after the last broadcast sends nothing and keeps the broadcast time; an audio-triggered or later one sends the snapshot and records `now` |
| `ShowSession.Session.Tick` | app.js:281-285 | only a running timer is rebroadcast, through the throttle, and the broadcast carries the time left |
| `Protocol.TrimStart` | app.js:51-52 | the result is a suffix of the string, every character cut off before it is one `trim` removes, and it is empty or starts with a character `trim` keeps |
| `Protocol.TrimEnd` | app.js:51-52 | the result is a prefix of the string, every character cut off after it is one `trim` removes, and it is empty or ends with a character `trim` keeps |
| `Protocol.Trim` | app.js:51-52 | `TrimEnd` after `TrimStart`: the string with its leading and trailing `trim` characters cut off, so it is empty or starts and ends with a character `trim` keeps |
| `Protocol.TrimStartEmpty` | app.js:51-52 | stripping leading white space leaves nothing exactly when every character is white space |
| `Protocol.TrimEndEmpty` | app.js:51-52 | stripping trailing white space leaves nothing exactly when every character is white space |
| `Protocol.BlankIsEmptyTrim` | app.js:51-52 | a string is blank (every character is one `trim` removes, which includes the empty string) exactly when `trim` leaves the empty string, which is the source's test that the string is missing, empty, or empty after `trim` |
| `Protocol.AcceptableIffTrimmedNonEmpty` | app.js:51-54 | the `question-update` guard passes exactly when the text is non-empty after `trim`, an options array is present, and every option is non-empty after `trim` |
| `TimerMath.ElapsedSeconds` | app.js:252 | the whole seconds elapsed: the largest `e` with `e * 1000` not above the elapsed milliseconds |
| `ShowSession.Session.CurrentPhase` | app.js:46-48 | the phase sent in `timer-state` is running exactly when started and not paused; under `Valid()` it is stopped exactly when there is no start time, and paused exactly when there is a pause time |
| `ShowSession.Session.TimeLeft` | app.js:252-253 | the time left is never negative nor above a non-negative setting, and while paused it is the value frozen at the pause instant |
| `ShowScenarios.PauseContinueCycles` | app.js:189-198 | driving the handlers through any ordered sequence of pauses and resumes leaves the start time at `StartAfter` of the cycles, the original start plus the total paused time |
| `ShowScenarios.SampleIsAcceptable` | app.js:51-54 | a question with non-blank text and four non-blank options passes the guard |
| `ShowScenarios.BlankOptionIsRejected` | app.js:51-54 | a question with a whitespace-only option fails the guard |

## Left out

- Server construction and export (app.js:1-8, 287) and the listening process in index.js: these are transport plumbing.
- The `setInterval` scheduling (app.js:281, 285): the tick is the method `Tick`, called with the clock reading.
- The socket registry and the per-socket fan-out (app.js:276): one append to the shared `outbox` stands for the messages of every client. For `io.emit` every client receives identical messages. The fan-out of `updateTimerForAllClients` instead calls `updateTimerForClient` once per socket, and each call reads the clock again (app.js:252), so in the source two clients can receive different `current` values when a second boundary falls between the calls; the model sends every client the snapshot for the one reading `now`. When no client is connected the source still records the broadcast time; the model does not represent an empty client set.
- Real clock reads (`Date.now()`): `now` is a parameter, and one `now` stands for every clock read within one event: the two reads of `show-options` (app.js:90, 103), the two of `continue-timer` (app.js:193, 197), the throttle's read (app.js:269) and the per-socket reads inside the fan-out (app.js:252). Time passing between those reads inside one handler run is not modelled. `ClockOk(now)` requires a positive clock that is not earlier than any stored timestamp. With positive readings, JavaScript's truthiness test on `timerStartTime` is the same as a non-null test.
- The "unlimited" setting on the arithmetic paths (app.js:99, 198, 218, 253), where JavaScript produces `NaN`: `OnShowOptions` requires a numeric setting when it starts the countdown, and `Valid()` keeps the setting numeric while started. "Unlimited" is covered in the snapshot's short circuit (app.js:226-237) and wherever it is only stored and relayed.
- Payloads other than the modelled shapes: fields that `question-update` copies from the payload beyond text and options, non-numeric answer indices, fractional answer indices (an index such as 2.5 passes the range checks at app.js:107, 116 and 124, but `index: int` cannot hold it), and fractional or non-numeric timer values. A timer setting is a whole number of seconds or "unlimited".
- Guards that `Valid()` makes always true are kept in the methods where they are plain tests (`if (timerStartTime)` in `pauseTimer`, `timerPausedAt !== null` in `continue-timer`, the tick's `timerStartTime` test). In the per-client snapshot, the running branch's `else if (timerStartTime)` test is folded into the running case, because a running timer always has a positive start time.
- Audio cue names and screen identifiers are opaque strings, relayed unchanged.
- Concurrency: none. Node's event loop runs one handler at a time, and each method is one handler run.
