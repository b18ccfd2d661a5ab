# Motor-control step view models in Dafny

This project models the per-step session logic of the MotorControl iOS
assessments (tremor hold, finger tapping). Each step owns a view model. The
view model drives a motion recorder through its start, pause, resume and stop
lifecycle. It keeps a countdown against the step's fixed duration. It speaks
each registered instruction at most once between countdown resets. When the
recorder fails, it writes an error result into the host's result slot instead
of raising the error. The tapping step adds a tap aggregator: accepted touches
are appended as samples, and a debounce rule on the last counted button
decides when the tap count rises.

Layout, one module per file:

- `wrappers.dfy` (`Wrappers`): `Option`, for Swift optionals.
- `recorder.dfy` (`Recorder`): the recorder as seen by the view model. It has an
  ordered status, the clock's running duration, the step path, and a log of
  calls. The outcome of an asynchronous start or stop is a parameter.
- `prompts.dfy` (`Prompts`): the whole-second key `Int(min(t, duration))`, one
  `speak` request as a function of the cache, and a series of requests with
  the once-only property proved by induction.
- `countdown.dfy` (`Countdown`): one poll of `updateCountdown` as a function,
  and a series of polls with monotonicity and bounds proved by induction.
- `tapping.dfy` (`Tapping`): samples, the tap window, the debounce rule, a
  series of events, and lemmas about the count.
- `viewmodels.dfy` (`ViewModels`): the two classes. Their methods update fields
  in place, and their `ensures` tie the new state to the functions above.
- `scenarios.dfy` (`Scenarios`): client runs of the view models, concluded
  from the methods' contracts alone.

Two points where the code's behaviour is easy to misread:

- Debounce. The guard at line 210 counts a tap only when the button is not
  `.none` and differs from the last counted button. `.none` does not reset the
  previous button. So left, left, right, none, right, left counts three taps
  (`Tapping.AlternatingExample`). The comment at lines 206-207 agrees with the
  guard on `.none` and on a nil previous button, but when a previous button is
  set it counts a repeat of that button, while the guard counts a change. The
  model follows the guard.
- Start failure. A failed start resets only the recorder's clock (line 115),
  not `countdown`. The next poll (line 129) then computes the countdown from
  the reset clock, so it can jump back up to the full duration
  (`Scenarios.FailedStartRaisesCountdown`: 7 seconds left before the failed
  start, 10 after it).

## Model

| member | source | states |
|---|---|---|
| `Prompts.Trunc` | Sources/MotorControl/ViewModel/MotionSensorViewModels.swift:87 | `Int(_:)` on a time value truncates toward zero: for x >= 0 the result is the floor, for x < 0 the result is at most 0 and above x - 1 |
| `Prompts.Key` | Sources/MotorControl/ViewModel/MotionSensorViewModels.swift:87 | the prompt key never exceeds the duration and is non-negative for non-negative times; it is the whole seconds of t inside the duration, and the whole seconds of the duration for any later t |
| `Prompts.SpeakStep` | Sources/MotorControl/ViewModel/MotionSensorViewModels.swift:86-96 | a request speaks if and only if its key is uncached and registered; then the key is added and exactly that key's text is spoken; otherwise the cache is unchanged and nothing is spoken |
| `Prompts.SpeakKeepsCacheRegistered` | Sources/MotorControl/ViewModel/MotionSensorViewModels.swift:88-93 | a request only grows the cache and keeps it within the registered keys |
| `Prompts.SameKeySpeaksOnce` | Sources/MotorControl/ViewModel/MotionSensorViewModels.swift:88-93 | two requests whose times truncate to the same key speak at most once: the second is silent and leaves the cache alone |
| `Prompts.SpokenAgainAfterReset` | Sources/MotorControl/ViewModel/MotionSensorViewModels.swift:100-104 | a key spoken from any cache stays silent on a repeat request, and after a reset empties the cache the same key speaks the same text again |
| `Prompts.EachPromptFiresOnce` | Sources/MotorControl/ViewModel/MotionSensorViewModels.swift:86-96 | over any series of requests without a reset, the keys spoken are distinct, registered and not cached at the start; the final cache is the start cache plus exactly those keys; every registered key reached ends in the cache |
| `Countdown.UpdateCountdownStep` | Sources/MotorControl/ViewModel/MotionSensorViewModels.swift:123-131 | a poll while paused or at zero reports none and changes nothing; otherwise it reports the clock reading and whether the new countdown is zero, the countdown is zero exactly when the clock passed the duration and is duration minus time otherwise; for a non-negative clock the countdown stays in [0, duration] |
| `Countdown.CountdownNeverIncreases` | Sources/MotorControl/ViewModel/MotionSensorViewModels.swift:123-131 | starting from a countdown no lower than the first clock reading implies (as after construction or `ResetCountdown`), over a series of polls with a non-decreasing clock no poll raises the countdown, a paused poll leaves it unchanged, and it stays in [0, duration] |
| `Recorder.Rank` | Sources/MotorControl/ViewModel/MotionSensorViewModels.swift:58 | the recorder status order used by the `>=` and `>` guards has `idle` as its unique least element |
| `Tapping.CaptureTimestamp` | Sources/MotorControl/ViewModel/MotionSensorViewModels.swift:201 | a sample's timestamp is the clock reading minus the hold duration, floored at zero, and never later than the clock reading |
| `Tapping.Debounce` | Sources/MotorControl/ViewModel/MotionSensorViewModels.swift:210-215 | the count rises by one if and only if the button is real and differs from the previous counted button, and that button then becomes the previous one; otherwise nothing changes |
| `Tapping.NoButtonIsTransparent` | Sources/MotorControl/ViewModel/MotionSensorViewModels.swift:210-215 | removing every `.none` event from a series changes neither the final count nor the previous button |
| `Tapping.TapCountBounds` | Sources/MotorControl/ViewModel/MotionSensorViewModels.swift:210-215 | over a series of events the count never falls and rises by at most the number of real-button events |
| `Tapping.PreviousIsLastPressed` | Sources/MotorControl/ViewModel/MotionSensorViewModels.swift:210-215 | after a series of events the previous button is the last real button in it, or the old previous button when there was none |
| `Tapping.RepeatedButtonCountsOnce` | Sources/MotorControl/ViewModel/MotionSensorViewModels.swift:210-213 | any number of events on one button count at most once, and not at all when that button was already the previous one |
| `Tapping.AlternatingExample` | Sources/MotorControl/ViewModel/MotionSensorViewModels.swift:208-215 | left, left, right, none, right, left from the initial state counts three taps and ends with left as previous button |
| `ViewModels.StopRecorderResult` | Sources/MotorControl/ViewModel/MotionSensorViewModels.swift:147-156 | the stop result is present if and only if the recorder was running; it is the recorder's result, or an error result with the node identifier when stop threw |
| `ViewModels.MotionSensorStepViewModel.constructor` | Sources/MotorControl/ViewModel/MotionSensorViewModels.swift:68-84 | a fresh idle recorder with a zero clock and step path "assessment/branch", a full countdown, an empty cache, not paused |
| `ViewModels.MotionSensorStepViewModel.Speak` | Sources/MotorControl/ViewModel/MotionSensorViewModels.swift:86-97 | the new cache and speech log are those of `SpeakStep` on the old cache; nothing else changes; the cache stays within the registered keys |
| `ViewModels.MotionSensorStepViewModel.ResetCountdown` | Sources/MotorControl/ViewModel/MotionSensorViewModels.swift:99-105 | the recorder clock reads zero, the countdown equals the duration and the cache is empty; the recorder status is unchanged |
| `ViewModels.MotionSensorStepViewModel.StartRecorder` | Sources/MotorControl/ViewModel/MotionSensorViewModels.swift:107-120 | nothing happens unless the recorder is idle; a successful start leaves the slot alone; a failed start resets the clock and sets the slot to one error result with the node identifier |
| `ViewModels.MotionSensorStepViewModel.UpdateCountdown` | Sources/MotorControl/ViewModel/MotionSensorViewModels.swift:122-131 | the returned report and the new countdown are those of `UpdateCountdownStep` with the recorder's clock; the countdown stays in [0, duration] |
| `ViewModels.MotionSensorStepViewModel.SetPaused` | Sources/MotorControl/ViewModel/MotionSensorViewModels.swift:56-66 | the flag takes the new value; pause or resume is forwarded to the recorder only when its status is at least `starting`, otherwise the recorder is untouched |
| `ViewModels.MotionSensorStepViewModel.StopRecorder` | Sources/MotorControl/ViewModel/MotionSensorViewModels.swift:147-156 | returns `StopRecorderResult`; the recorder is stopped only when it was running and is untouched otherwise |
| `ViewModels.MotionSensorStepViewModel.Stop` | Sources/MotorControl/ViewModel/MotionSensorViewModels.swift:133-145 | the recorder is stopped as by `StopRecorder`; the prompt for the full duration is requested in every case; the slot is overwritten with the stop result only when there is one and keeps its old content otherwise |
| `ViewModels.MotionSensorStepViewModel.StopSpeakingFirst` | Sources/MotorControl/ViewModel/MotionSensorViewModels.swift:133-145 | the other completion order of the two joined tasks (prompt first, then recorder) reaches exactly the final state `Stop` promises |
| `Scenarios.FailedStartRaisesCountdown` | Sources/MotorControl/ViewModel/MotionSensorViewModels.swift:107-131 | with a 10-second step, a poll at clock 3 leaves countdown 7; after a failed start the clock is reset and the next poll leaves countdown 10 |
| `Scenarios.PromptRepeatsAfterReset` | Sources/MotorControl/ViewModel/MotionSensorViewModels.swift:86-104 | two requests for the same key speak once; after `ResetCountdown` the key speaks again, so the log holds the text twice |
| `Scenarios.AlternatingTaps` | Sources/MotorControl/ViewModel/MotionSensorViewModels.swift:196-216 | six `AddTappingSample` calls (left, left, right, none, right, left) leave six samples, tap count 3 and the result's mirrored count 3 |
| `ViewModels.TappingStepViewModel.constructor` | Sources/MotorControl/ViewModel/MotionSensorViewModels.swift:179-182 | a fresh motion-sensor step (idle recorder with zero clock, no calls and step path "assessment/branch", full countdown, empty cache and speech log, not paused), an empty sample buffer with count 0 and the given hand, no previous button |
| `ViewModels.TappingStepViewModel.InitialTapOccurred` | Sources/MotorControl/ViewModel/MotionSensorViewModels.swift:170 | true exactly when the recorder's status is not `idle` |
| `ViewModels.TappingStepViewModel.TappedScreen` | Sources/MotorControl/ViewModel/MotionSensorViewModels.swift:184-194 | outside the tap window (recorder idle, or clock at or past the duration) nothing changes; inside it the event is recorded as by `AddTappingSample` |
| `ViewModels.TappingStepViewModel.AddTappingSample` | Sources/MotorControl/ViewModel/MotionSensorViewModels.swift:196-216 | exactly one sample is appended at the end of the buffer; count and previous button change as by `Debounce`; the result's tap count mirrors `tapCount` (lines 173-177) |

## Left out

- Output directory creation (lines 69-75 and 219-221): file-system and UUID access.
- Placeholder substitution of the hand into prompt texts (lines 76-80): a string library call. The constructor takes the substituted prompt map.
- `secondCount` and its observer (lines 50-55): a UI notification with no behaviour.
- The weak `branchState` reference (line 48): its result slot is the field `asyncResults` of the step view model.
- Async tasks and continuations (lines 110-119 and 136-141) run as sequential steps. `Stop` stops the recorder, then requests the prompt; `StopSpeakingFirst` does the two in the other order and is proved to reach the same final state. True interleaving of the two tasks is not modelled.
- Speech completion callbacks are not modelled as values: speech completes before `Speak` returns. Spoken texts go into the ghost log `spoken`.
- The recorder's implementation is a foreign library. Its status enum is not part of this model; the order used is idle, starting, running, paused, stopping, stopped, failed. Under this order `status >= .starting` (line 58) and `status > .idle` (line 170) pick out the same statuses; the source's use of two thresholds suggests the real enum has states between idle and starting, which this model does not have. The stub chooses the resulting statuses: start gives running or failed, stop gives stopped or failed, pause and resume toggle between running and paused. So `Stop` on a paused step never stops the recorder and leaves the result slot as it was, because `stopRecorder` acts only on `.running` (line 148); the files do not show whether the real recorder changes its status on pause. The clock advances only through the environment method `Advance`.
- `SystemClock.uptime()`: the caller passes the reading as `systemUptime`.
- The `TappingButtonIdentifier` and hand enums are not part of this model. They are taken to be left, right and none, and left and right.
- `TremorStepViewModel` (lines 160-161): an empty subclass with nothing to model.
- Floating point: times are `real`. Truncation toward zero is modelled; IEEE rounding, NaN and infinities are not. Neither is the trap `Int(_:)` raises on them.
- ViewModels.MotionSensorStepViewModel.constructor: requires a non-negative duration, which the source does not check, because with a negative duration the countdown bound cannot hold.
- ViewModels.TappingStepViewModel.constructor: requires a non-negative duration for the same reason.
