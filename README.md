# Auto-Click: a Dafny model of the clickers' timing and mode logic

Auto-Click holds three mouse clickers. This project models the logic each one
keeps around its mouse input and output, and proves properties of it.

- **main.py, the half-automatic assist clicker.** It logs the user's clicks
  for each button. Each button has a combined log (user and assist clicks)
  and a user-only log. A hybrid estimator turns a log into clicks per second
  (CPS). An idle timeout with a burst extension decides whether the user is
  still clicking. While the user clicks faster than a threshold, a
  per-button assist loop adds synthetic clicks so that the combined rate
  approaches a target. The target is re-drawn from the button's [min, max]
  range every 0.5 to 2 s. Assist clicks go to the combined log only.
- **auto_clicker_gui.py, the side-button mode machine.** Side-button clicks
  switch between normal mode, mode 1 and mode 2. In mode 2 both buttons are
  clicked continuously. In mode 1 a button is clicked continuously after a
  quick triple click of that button, until it is released.
- **auto_clicker.py, the script.** Side buttons x1 and x2 toggle continuous
  left and right clicking. The per-click rate is jittered and never below
  1 CPS, and a per-second counter is kept.

Modelling conventions:

- Timestamps and rates are `real`.
- Reads of the clock are a parameter `now`. The reads made during one assist
  iteration, one pruning or one display refresh are all taken at that single
  instant.
- Every `random.uniform(a, b)` is `Common.Uniform(a, b, u)`, where
  `u ∈ [0, 1)` is the underlying `random.random()` draw. This is
  `a + (b - a) * u`, which is how CPython computes it.
- The duplicated left/right methods of main.py are one method with a `Side`
  parameter. Each button's fields are an object of class
  `AssistClicker.ButtonState`.
- One iteration of an assist or clicker loop is one method. The loop's locals
  go in and come back out. In main.py they are the `Scheduler` datatype.
- The state that auto_clicker_gui.py's listener updates is also given as a
  value `ModeClicker.Controls`, with a transition function `ModeClicker.Step`.
  `AutoClickerGui.OnMouseClick` is proved to update its fields exactly as
  `Step` says. The mode properties are lemmas about `Step`.

Pruning and the estimator use different windows:

- The display timer prunes the logs to the last 1.0 s every 0.1 s
  (main.py:293, 883-886). The estimator looks back 1.5 s (main.py:903).
- The estimator's 1.5 s case is still reachable, because the assist loops and
  the display read the logs between two prunings.
  `RateEstimator.SpanCaseAfterPruning` shows such a case within one timer
  period. `RateEstimator.EstimateWhenPruned` shows that it cannot arise when
  the estimate is taken at the pruning instant.

## Model

| member | source | states |
|---|---|---|
| Common.Uniform | main.py:1248-1250 | a draw of `random.uniform(a, b)` lies between `a` and `b` whichever is larger, and strictly below `b` when `a < b` |
| Common.UniformWithin | main.py:1248-1250 | the bounds of `a + (b - a) * u` for `u ∈ [0, 1)` |
| ClickLog.Recent | main.py:883-886 | the window filter `[t for t in log if now - t <= w]` never lengthens a log |
| ClickLog.RecentCounts | main.py:883-886 | filtering keeps each in-window timestamp exactly as often as it was logged, and drops every other one |
| ClickLog.RecentMembers | main.py:883-886 | a timestamp survives pruning if and only if it was logged and `now - t <= w` |
| ClickLog.RecentAppend | main.py:883-886 | filtering distributes over concatenation, so the kept clicks stay in their logged order |
| ClickLog.RecentNested | main.py:903-909 | filtering twice equals filtering once with the narrower window, so the 1.0 s sublist of the 1.5 s list is the 1.0 s list of the log |
| ClickLog.RecentIdempotent | main.py:883-886 | pruning twice at the same `now` equals pruning once |
| ClickLog.RecentWiderCount | main.py:903-910 | a wider window never holds fewer clicks |
| ClickLog.RecentSubMultiset | main.py:883-886 | pruning the user log and the combined log together keeps the user log a sub-multiset of the combined log |
| ClickLog.RecentLaterCount | main.py:1071 | with nothing newly logged, a window at a later instant holds no more clicks |
| RateEstimator.SpanRate | main.py:912-918 | the sparse rate is positive; over a positive span it is `(n - 1) / span`, and over a non-positive span it is `n` |
| RateEstimator.RealCps | main.py:896-918 | the estimate is non-negative and zero exactly when no click is within 1.5 s; it is that count when there are at most 1 such clicks; it is the 1.0 s count when that count is at least 2; otherwise it is the span rate of the 1.5 s list, and it never divides by zero |
| RateEstimator.EstimateWhenPruned | main.py:878-889 | read at the instant of a 1.0 s pruning, the estimate is the number of clicks kept |
| RateEstimator.SpanCaseAfterPruning | main.py:903-916 | a log pruned at 10.0 and read 0.08 s later, within one 0.1 s timer period, takes the span-based case (1/0.48 CPS) |
| RateEstimator.DenseExample | main.py:908-911 | five clicks within 0.4 s read as 5 CPS |
| RateEstimator.SparseExample | main.py:912-916 | two clicks 1.4 s and 1.2 s old read as 5 CPS (one gap per 0.2 s) |
| ActivityGate.IsUserActivelyClicking | main.py:1054-1077 | active if and only if the last user click is within the idle timeout, or at least two user clicks lie within three timeouts and the last click is within 1.5 timeouts; so never active beyond 1.5 timeouts |
| ActivityGate.StaysClosed | main.py:1065-1077 | with no new user click, a gate open at a later instant was open at every earlier one; once closed it stays closed |
| ActivityGate.Examples | main.py:1065-1075 | with a 0.2 s timeout: one click at 0 is active at 0.19 and not at 0.25; two clicks within 0.6 s keep it active at 0.25 |
| AssistClicker.StatusOf | main.py:1153-1161 | "mode off" if and only if assist mode is off; otherwise "assisting" if and only if the user is above the threshold and still clicking, "user stopped" if and only if above it and not clicking, "standby" if and only if at or below it |
| AssistClicker.ConfigWarning | main.py:992-1008 | for a positive threshold the warning is shown if and only if `idle_timeout * threshold < 1`, i.e. the timeout is shorter than one click period at the threshold rate |
| AssistClicker.ScaleFactor | main.py:87-102 | the factor lies in [0.8, 2.0]; above 0.8 the scaled 900x700 layout fits the window; strictly inside the range it fills the window in width or height; it is 0.8 only when the window is at most 720 wide or 560 high, and 2.0 only when it is at least 1800x1400 |
| AssistClicker.InitialScheduler | main.py:1236-1240 | an assist loop starts with last assist time 0, target = min CPS, change time = now and a change interval in [0.5, 2.0) |
| AssistClicker.RefreshTarget | main.py:1246-1250 | before the interval elapses nothing changes; once it has, the new target lies in [min, max], the new interval in [0.5, 2.0), and the change time is `now`; the last assist time is untouched |
| AssistClicker.AssistDecision | main.py:1259-1269 | the loop's nested tests of the user's rate and activity, the missing rate's bounds and the elapsed period decide exactly `AssistDue` |
| AssistClicker.AssistDue | main.py:1259-1269 | a click is due if and only if user CPS > threshold (strictly), the user is still clicking, `0 < target - user ≤ 40`, and `(now - last) * (target - user) ≥ 1`; so assist clicks are at least 1/40 s apart |
| AssistClicker.ButtonState.constructor | main.py:41-64 | a button starts with empty logs, last user click 0, its CPS range, and assistance enabled |
| AssistClicker.ButtonState.RecordUserClick | main.py:1220-1225 | a user press appends the same timestamp to both logs, marks the button held and sets the last user click; the sub-multiset invariant holds |
| AssistClicker.ButtonState.RecordAssistClick | main.py:1277-1278 | an assist click is appended to the combined log only |
| AssistClicker.ButtonState.Prune | main.py:883-886 | both logs become their in-window parts; the sub-multiset invariant holds |
| AssistClicker.ButtonState.UpdateMaxCps | main.py:932-938 | max becomes the value, and min is lowered to it only when min was above it, so min ≤ max |
| AssistClicker.ButtonState.UpdateMinCps | main.py:942-948 | min becomes the value, and max is raised to it only when max was below it, so min ≤ max |
| AssistClicker.ButtonState.SetEnabled | main.py:638-639 | the "enable assistance" check box sets the button's enabled flag |
| AssistClicker.HalfAutoClicker.constructor | main.py:20-67 | assist mode on, threshold 3, idle timeout 0.2 s, left range [22, 23], right range [23, 24], empty logs; the start-up configuration check shows the warning |
| AssistClicker.HalfAutoClicker.CheckConfigValidity | main.py:992-1008 | the warning's visibility becomes `ConfigWarning(threshold, idle_timeout)` |
| AssistClicker.HalfAutoClicker.UpdateMaxCps | main.py:932-974 | the chosen button's max becomes the value, and its min is lowered only if it exceeded the value; the warning is unchanged |
| AssistClicker.HalfAutoClicker.UpdateMinCps | main.py:942-974 | the chosen button's min becomes the value, and its max is raised only if it was below the value; the warning is unchanged |
| AssistClicker.HalfAutoClicker.UpdateThreshold | main.py:1125-1129 | sets the threshold and keeps the warning in step with the configuration |
| AssistClicker.HalfAutoClicker.UpdateIdleTimeout | main.py:1131-1135 | sets the idle timeout and keeps the warning in step with the configuration |
| AssistClicker.HalfAutoClicker.ToggleAssistMode | main.py:1085-1087 | flips assist mode |
| AssistClicker.HalfAutoClicker.OnMouseClick | main.py:1209-1232 | releases, other buttons and events seen while an assist click is in progress change nothing; a left (right) press appends `now` to that button's combined and user logs, marks it held and sets its last user click, leaving the other button alone |
| AssistClicker.HalfAutoClicker.CalculateCps | main.py:878-894 | all four logs become their last-second parts, and the returned rates are the estimates of the pruned combined logs |
| AssistClicker.HalfAutoClicker.CpsDisplay | main.py:1137-1162 | total and user CPS are the estimates of the two logs; the assist share is never negative and is the excess of total over user when there is one; the status is `StatusOf` of the current gate |
| AssistClicker.HalfAutoClicker.AssistTick | main.py:1242-1282 | while assist mode is on and the button enabled, it refreshes the target as `RefreshTarget` says and emits if and only if `AssistDue` holds; an emitted click is appended to the combined log only and becomes the last assist time; otherwise nothing changes; the user log and all invariants are preserved |
| ModeClicker.StepKeepsControlsOk | auto_clicker_gui.py:394-489 | every event keeps "continuous only in mode 1", non-negative counters, and the remembered side button a side button |
| ModeClicker.SidePressCounts | auto_clicker_gui.py:403-409 | a side press increments the count if the same side button was pressed less than 0.3 s ago, and resets it to 1 otherwise; it records the time and button and changes nothing else |
| ModeClicker.SingleClickRelease | auto_clicker_gui.py:412-430 | a release with count 1 toggles normal and mode 1, clearing both active flags and the continuous state; in mode 2 it changes nothing |
| ModeClicker.MultiClickRelease | auto_clicker_gui.py:431-449 | a release with count ≥ 3 takes normal to mode 2 with both flags on, and mode 2 to normal with everything off; in mode 1, and for count 2, nothing changes |
| ModeClicker.Mode1LeftPress | auto_clicker_gui.py:452-463 | in mode 1 a left press within 0.3 s increments the count, and from 3 on it sets continuous and left active; after a longer gap the count resets to 1; the right button is untouched |
| ModeClicker.Mode1RightPress | auto_clicker_gui.py:472-483 | the same for a right press |
| ModeClicker.PressOutsideMode1 | auto_clicker_gui.py:452-483 | outside mode 1 a left or right press only marks the button held; the counters are untouched |
| ModeClicker.ReleaseEndsContinuous | auto_clicker_gui.py:464-489 | a left (right) release in mode 1's continuous state clears continuous and that button's active flag only; otherwise it only clears held |
| ModeClicker.TripleClickOutcome | auto_clicker_gui.py:403-449 | a quick triple click of a side button in normal mode ends in mode 1 (its first release already switches), and in mode 1 it ends in mode 2 |
| ModeClicker.AutoClickerGui.constructor | auto_clicker_gui.py:20-55 | the start-up controls are normal mode with everything off and zero; left range [10, 12], right [23, 26]; side-button control on |
| ModeClicker.AutoClickerGui.OnMouseClick | auto_clicker_gui.py:394-489 | with side-button control off nothing changes; otherwise the controls move exactly as `Step`; the invariants hold |
| ModeClicker.AutoClickerGui.OnSideButton | auto_clicker_gui.py:402-449 | the side-button branch updates the fields as `SidePress` / `SideRelease` |
| ModeClicker.AutoClickerGui.OnLeftButton | auto_clicker_gui.py:452-469 | the left-button branch updates the fields as `LeftEvent` |
| ModeClicker.AutoClickerGui.OnRightButton | auto_clicker_gui.py:472-489 | the right-button branch updates the fields as `RightEvent` |
| ModeClicker.AutoClickerGui.ToggleLeftClicking | auto_clicker_gui.py:300-303 | the window's left button flips left clicking |
| ModeClicker.AutoClickerGui.ToggleRightClicking | auto_clicker_gui.py:312-315 | the window's right button flips right clicking |
| ModeClicker.AutoClickerGui.ToggleMouseSideButtons | auto_clicker_gui.py:324-326 | sets whether side-button control is on |
| ModeClicker.AutoClickerGui.UpdateLeftMaxCps | auto_clicker_gui.py:328-334 | max becomes the value and min is lowered to it only if above it, so 1 ≤ min ≤ max holds |
| ModeClicker.AutoClickerGui.UpdateLeftMinCps | auto_clicker_gui.py:336-342 | min becomes the value and max is raised to it only if below it |
| ModeClicker.AutoClickerGui.UpdateRightMaxCps | auto_clicker_gui.py:348-354 | as for the left maximum |
| ModeClicker.AutoClickerGui.UpdateRightMinCps | auto_clicker_gui.py:356-362 | as for the left minimum |
| ModeClicker.AutoClickerGui.ClickerTick | auto_clicker_gui.py:491-535 | clicks only when the button is active and in mode 2 or continuous mode 1, and then if and only if `(now - last) * r ≥ 1` for the drawn `r ∈ [min, max]`; so never faster than max CPS, and always once a period of min CPS has passed; the last click time moves to `now` exactly on a click |
| ScriptClicker.CurrentCps | auto_clicker.py:58-62 | the rate is at least 1 CPS, and above that floor it lies in [min - jitter, max + jitter] |
| ScriptClicker.ClickDelay | auto_clicker.py:64-65 | the delay is one period of the rate, in (0, 1] s |
| ScriptClicker.ConfiguredRates | auto_clicker.py:14-20 | the derived minimums (max − 2 and max − 3) are below the maximums; left clicks run at 9 to 13 CPS and right at 21.8 to 27.2 CPS, so the 1 CPS floor never applies |
| ScriptClicker.ScriptClicker.constructor | auto_clicker.py:6-9 | both switches start off |
| ScriptClicker.ScriptClicker.OnMouseClick | auto_clicker.py:27-44 | an x1 press flips left clicking only, and an x2 press flips right clicking only; releases and other buttons change neither |
| ScriptClicker.ScriptClicker.ClickerTick | auto_clicker.py:48-87 | while active it clicks and sleeps exactly one period `ClickDelay(CurrentCps(...))` of the jittered rate, in (0, 1] s; the counter grows by one per click, and when a second has elapsed it resets to 0 and the window moves to `now`; while inactive it does not click, zeroes the counter, restarts the window and sleeps 0.1 s |

## Left out

- Qt presentation is left out: widgets, styles, fonts, tabs, signals, timers and label texts (`update_status_label`, `update_all_fonts`, `on_resize`, the `setChecked`/`setText`/`setValue` side effects). Of the display, only the values it computes are modelled.
- pynput is left out. `Controller.click` is an abstract "emitted" result. The listener is the caller of the `OnMouseClick` methods.
- The pointer jitter moves after each click in auto_clicker_gui.py (lines 503-510) are left out, and so are the jitter setters (`update_left_jitter`, `update_right_jitter`) and jitter fields that feed only those moves.
- Threads, `time.sleep`, `threading.Lock` and the cross-thread race on `is_assist_clicking` are left out. Each loop iteration is one sequential method. The flag is a plain guard in `OnMouseClick` and is cleared when `AssistTick` returns.
- The clock reads within one assist iteration (main.py:1244, 901, 1056), within one pruning and estimate (main.py:880, 901) and within one display refresh (main.py:901, 1056) are one instant `now`. The time that passes between those reads is not modelled.
- `time.time()` and `random` are parameters. IEEE floating-point rounding is not modelled, and the rates are exact reals.
- `print` output in auto_clicker.py is left out.
- main.py's first definitions of `toggle_assist_mode`, `update_threshold` and `update_idle_timeout` (lines 980-990 and 1010-1052) are left out, because the later definitions replace them. main.py's `toggle_left_clicking`, `toggle_right_clicking` and `toggle_mouse_side_buttons` do nothing and are left out.
- `closeEvent` of both windows is left out. It only switches clicking off at shutdown.
- build.py and setup.py are left out. They only package the program.
- ModeClicker.AutoClickerGui.UpdateLeftMaxCps: the value must be at least 1, the lower end of its spin box range. Smaller values would let `1.0 / random.uniform(min, max)` divide by zero, and that case is not modelled.
- ModeClicker.AutoClickerGui.UpdateLeftMinCps: the value must be at least 1, for the same reason.
- ModeClicker.AutoClickerGui.UpdateRightMaxCps: the value must be at least 1, for the same reason.
- ModeClicker.AutoClickerGui.UpdateRightMinCps: the value must be at least 1, for the same reason.
