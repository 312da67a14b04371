# Flow focus/break timer — a Dafny model

Flow is a browser extension that alternates focus and break intervals. It
holds two separate timer engines, and they do not agree with each other, so
this project models each one as it is written.

- **The background worker** (`background.js`, module `Background`) is a
  deadline-based engine. Its whole state is one persisted snapshot,
  `timerState`. The message handler answers START, STOP, RESET,
  UPDATE_SETTINGS and GET_STATUS. It loads the snapshot, changes it field
  by field, stores it and replies with it. START arms a one-shot alarm,
  `flowTimerEnd`, at the deadline. When that alarm fires, the completion
  step builds a fresh snapshot for the other phase. The timer then stays
  **paused** until the next START. After a break, the session count moves
  on and wraps to 1 past `settings.sessions`.
- **The popup** (`popup.js`, module `Popup`) is a countdown in whole
  seconds, held in the popup's own variables and advanced once per second.
  Each completed focus phase appends one record to a history. After the
  last session's break the popup **stops** instead of wrapping. Stepper
  buttons change a setting by one, clamp it to its bounds, save it and
  reset the timer. `formatTime` renders the countdown as `mm:ss`, and
  `renderProgressDots` marks each session as completed, active or upcoming.

How the environment is modelled:
- Wall-clock time is a parameter `now`.
- Extension storage is a field holding the stored value: `Worker.timerState`
  (`None` until first written), `Timer.storedSettings` and `Timer.history`.
- The pending alarm is `Worker.alarm`, either `ArmedAt(t)` or `Cleared`.
- One popup tick is one call to `TimerTick`.

Behaviour of the code that a reader might not expect:
- Completion auto-pauses (`isRunning:false, targetTime:null`). It does not
  auto-continue.
- UPDATE_SETTINGS stores the payload without clamping.
- START does not refill a zero `remainingTime`.
- An unrecognised action gets no reply and no error.
- A wake that arrives while the snapshot is idle still advances the phase.
- The popup clamps break minutes to [1, 30], not [1, 60].

## Model

| member | source | states |
|---|---|---|
| `Background.Started` | background.js:84-98 | START on an idle snapshot makes it running with the deadline `now + remainingTime`; `remainingTime`, phase, session count, settings and `totalSessions` stay; the result is `Consistent` |
| `Background.Stopped` | background.js:100-115 | STOP pauses with `remainingTime = max(0, targetTime - now)`: exactly `targetTime - now` when the deadline is still ahead, 0 once it has passed, never negative, and `max(0, -now)` when there is no deadline (`null - now`); phase, session count, settings and `totalSessions` stay; the result is paused with no deadline |
| `Background.Restarted` | background.js:117-124 | RESET gives phase focus, session 1, paused, `remainingTime = settings.focus·60000`; settings, `targetTime` and `totalSessions` are untouched |
| `Background.Reconfigured` | background.js:126-137 | UPDATE_SETTINGS stores the payload verbatim; an idle timer gets the current phase's new length, a running one keeps `remainingTime` and `targetTime`; running state, deadline, phase, session count and `totalSessions` are untouched |
| `Background.DefaultStateIsIdleFirstFocus` | background.js:4-16 | `DEFAULT_STATE` is a paused first focus phase of 25 minutes, `Consistent`, with session 1 inside a round of 4 and `totalSessions` equal to `settings.sessions` |
| `Background.NextSessionCount` | background.js:55-63 | after focus the count stays; after a break it adds 1 while below `settings.sessions`, otherwise it wraps to 1; a count in range stays in range |
| `Background.Completed` | background.js:52-73 | completion switches phase, pauses (`isRunning` false, `targetTime` null), sets the next phase's length, keeps settings, and keeps `sessionCount` within `[1, settings.sessions]` |
| `Background.Worker.constructor` | background.js:4-16 | before install nothing is stored and no alarm is pending; handlers then read `DEFAULT_STATE` |
| `Background.Worker.Loaded` | background.js:36 | the stored snapshot when there is one, otherwise the defaults |
| `Background.Worker.OnInstalled` | background.js:19-25 | install stores the defaults unless a snapshot already exists |
| `Background.Worker.HandleTimerComplete` | background.js:34-77 | the stored snapshot becomes `Completed` of the loaded one (the notification changes no state) |
| `Background.Worker.OnAlarm` | background.js:28-32 | only the `flowTimerEnd` alarm runs completion; it is consumed when it fires; any other alarm changes nothing |
| `Background.Worker.OnMessage` | background.js:80-145 | per action: START arms the alarm at `now + remainingTime` or, if running, writes nothing; STOP clears the alarm or writes nothing when idle; RESET clears the alarm; UPDATE_SETTINGS leaves the alarm; GET_STATUS and unknown actions write nothing; every known action replies with the loaded snapshot after its step (the defaults when nothing is stored), an unknown one gets no reply |
| `Background.PauseResumeRoundTrip` | background.js:84-115 | STOP at `t1` after START at `t0` leaves `remainingTime - (t1 - t0)` (at least 0) and nothing else changed; the next START arms exactly that much |
| `Background.StepsPreserveConsistency` | background.js:89-90 | START, STOP, UPDATE_SETTINGS and completion keep `isRunning ⇔ targetTime ≠ null` |
| `Background.StepsPreserveRunningHasTarget` | background.js:117-124 | every step, RESET included, keeps "running implies a deadline", so STOP never meets a missing deadline from a reachable state |
| `Background.ResetWhileRunningBreaksConsistency` | background.js:117-124 | RESET of a running snapshot leaves it paused but with its old `targetTime` |
| `Background.CompletionSessionRule` | background.js:55-63 | after focus the session count stays; after a break it adds 1, or wraps to 1 past `settings.sessions` |
| `Background.CyclesAdvanceSession` | background.js:53-63 | `k` focus/break cycles within the round add `k` to the session count and end in focus |
| `Background.FullRoundWraps` | background.js:58-63 | from session 1, `settings.sessions` full cycles come back to session 1 in focus |
| `Background.UnclampedSettingsLeaveRange` | background.js:127-129 | a payload with fewer sessions than the current count is stored as is and leaves the count out of range |
| `Background.TotalSessionsIsNeverRead` | background.js:10 | changing `totalSessions` changes no step's outcome beyond that field |
| `Popup.Clamp` | popup.js:124-126 | the result is at most `max`; it lies in `[min, max]` when `min ≤ max`; it is `val` when `val` is in range, otherwise the bound it crossed |
| `Popup.JsRem` | popup.js:83 | JavaScript's `%`: the remainder has the sign of the dividend, is smaller than the divisor in magnitude, and differs from the dividend by a multiple of the divisor |
| `Popup.ToString` | popup.js:82-83 | `toString` of an integer below 1e21: the canonical decimal numeral, without leading zeros, denoting a non-negative number; a negative one is `-` followed by the canonical numeral of its magnitude |
| `Popup.FormatTime` | popup.js:81-85 | for `s ≥ 0` the display ends in a colon and two characters; what the two parts denote is `FormatTimeParts` |
| `Popup.FormatTimeParts` | popup.js:81-85 | for `s ≥ 0`: minutes zero-padded to at least two digits, denoting `floor(s/60)`, then `:`, then exactly two digits denoting `s mod 60` |
| `Popup.FormatTimeRoundTrip` | popup.js:81-85 | reading the display back yields `s` for every `s ≥ 0` |
| `Popup.NegativeSecondsFormat` | popup.js:81-85 | for example, `-65` shows as `-2:-5`, with JavaScript's signs in both parts |
| `Popup.NegativeSecondsSigns` | popup.js:81-85 | every negative count shows a leading `-`; within the first minute below zero the display is `-1:` followed by the signed count |
| `Popup.PadStart` | popup.js:82-83 | `padStart`: the length is the larger of the width and the input, the input ends the result and fill characters precede it |
| `Popup.DotFor` | popup.js:136-138 | dot `i` is completed exactly when `i < current`, active exactly when `i = current`, upcoming exactly when `i > current` |
| `Popup.DotRow` | popup.js:133-139 | dot `k` of the row is classified by comparing `k` with the current session |
| `Popup.CompletedDots` | popup.js:133-139 | of `n` dots, `clamp(current-1, 0, n)` are completed |
| `Popup.ActiveDots` | popup.js:133-139 | of `n` dots, one is active exactly when `1 ≤ current ≤ n`, otherwise none |
| `Popup.UpcomingDots` | popup.js:133-139 | of `n` dots, `n - clamp(current, 0, n)` are upcoming |
| `Popup.RowCountsInRange` | popup.js:133-139 | with the current session among the `n` dots: exactly one active, `current - 1` completed, `n - current` upcoming |
| `Popup.Timer.ProgressDots` | popup.js:130-143 | one dot per session, dot `k` classified against `currentSession` as `DotRow` does, so the counts above apply to the popup's row |
| `Popup.Timer.constructor` | popup.js:21-29 | initial focus 25, break 5, sessions 4, session 1, focus phase, `25·60` seconds, stopped |
| `Popup.Timer.SaveSettings` | popup.js:105-109 | the stored settings become the current three durations |
| `Popup.Timer.SaveSessionRecord` | popup.js:112-122 | the history grows by exactly one record at its end |
| `Popup.Timer.StartTimer` | popup.js:203-212 | afterwards the timer runs; nothing else changes, so a running timer is left as is |
| `Popup.Timer.StopTimer` | popup.js:214-220 | afterwards the timer is stopped; nothing else changes |
| `Popup.Timer.OnPlayPause` | popup.js:236-238 | the play/pause button flips `isRunning` |
| `Popup.Timer.ResetTimer` | popup.js:222-228 | stopped, session 1, focus phase, `focusDuration·60` seconds |
| `Popup.Timer.TimerTick` | popup.js:170-201 | above zero: exactly one second less and nothing else; at zero in focus: one history record of `focusDuration·60` seconds, break of `breakDuration·60`; at zero in a break: next session's focus, or after the last session stop; `currentSession` never passes `sessionCount` |
| `Popup.Timer.OnStepperClick` | popup.js:243-269 | only the targeted setting moves by one and is clamped (focus [1,60], break [1,30], sessions [1,12]); settings in range stay in range; they are saved and the timer is reset |
| `Popup.Timer.LoadSettings` | popup.js:353-366 | saved settings are taken as they are (no clamping), then the timer is reset |
| `Popup.ReopenAfterStepper` | popup.js:105-109 | a popup opened after a stepper click loads exactly the settings and history it left |

`Background.DefaultScenario` is a worked example and states no contract of
its own. It starts from the defaults, answers START twice, completes the
focus phase, starts the break and resets while running, and it asserts the
snapshot and the alarm after each step.

## Left out

- The DOM: `updateUI`, labels, button text, classes, toasts, the sync
  indicator, keyboard shortcuts, the menu and the export placeholder.
  These only display state. From `renderProgressDots` only the
  classification of each dot is kept.
- `playNotificationSound` and the AudioContext. They play audio with
  floating-point gain ramps and change no timer state.
- `chrome.notifications` in the completion step. Its try/catch cannot
  affect the stored snapshot.
- The asynchronous storage, alarm and messaging APIs. Each call is taken to
  complete at once, in program order. The race between an alarm wake and a
  message, and the open reply channel (`return true`), are concurrency
  matters.
- `setInterval`/`clearInterval` and the interval handle. One tick is one
  `TimerTick` call. While the popup runs, the handle is set exactly when
  `isRunning` is.
- `Date.now()` and `new Date().toISOString()`. Both are the integer
  parameter `now`; ISO formatting is not modelled.
- `updateAnalytics`. It filters by calendar date and draws a floating-point
  percentage bar.
- `DEFAULT_STATE` is shared and aliased by `res.timerState || DEFAULT_STATE`,
  so later field writes change the default object itself. The model gives
  every handler a fresh copy of the defaults.
- JavaScript numbers are doubles. The model's integers agree with them
  below 2^53, and every timestamp and duration here stays far below that.
  Past it, arithmetic rounds, and `toString` switches to exponent notation
  from 1e21. The model does not capture either.
- Values that JavaScript allows but the model types exclude: non-integer or
  missing settings in a payload or in storage, and a corrupt stored snapshot.
- Stepper buttons whose target or action is not one of the three targets
  and two actions in the markup.
