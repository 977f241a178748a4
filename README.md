# cat-not-on-chair, modelled in Dafny

This project models the core of the cat-not-on-chair focus timer. The app runs Pomodoro focus and
break sessions and shields distracting apps during focus. The model has five parts.

- **Pomodoro state machine** (`pomodoro.dfy`). This is the newer timer. Its states are idle, running,
  finished and failed, over focus, short-break and long-break sessions. A counter of completed focus
  sessions chooses between a short and a long break. A timer task counts down from the clock's
  elapsed time.
- **Older session lifecycle** (`timer_view_model.dfy`). This timer creates a `Session` record and
  counts it down one second per tick. When the app resigns it fixes an absolute end time; on resume it
  reconciles against that time. On stop or completion it appends the finished record to the session log.
- **Session log, persistence and records.** `session_log.dfy` holds the log with its per-day and
  windowed statistics. `persistence.dfy` holds the settings and history store. Both sit on
  `key_value_store.dfy`, a preference store of tagged values. The record types are in `sessions.dfy`
  and `focus_sessions.dfy`.
- **Blocking dispatch.** `family_controls.dfy` covers the older timer's manager and `app_blocking.dfy`
  the newer core's service. Both map a mode and a selection onto the four-field shield record of
  `shield.dfy`.
- **Live-activity helpers** (`live_activity.dfy`). These are the `MM:SS` formatter, its parser and the
  progress fraction.

Modelling conventions:

- Times are whole seconds and dates are integer timestamps. A calendar day is a fixed 86 400-second
  window.
- The current time, new UUIDs, clock readings, the authorisation status and the outcome of an
  authorisation request are all parameters.
- JSON encoding is a tagged value in the store. A value of another shape stands for data that does
  not decode.
- Swift's truncating `/` and `%` are written out. So are `%02d` and the NaN behaviour of Swift's
  `max`/`min` on doubles.

Some behaviour of the code, as modelled:

- `stopSession` appends the current session whenever there is one, even when no session is running.
  Calling it after a completion therefore logs the same session a second time.
- With a zero duration the Pomodoro countdown loop never runs, so the state stays `Running`.
- `start` on the Pomodoro timer is not a no-op while running: it re-reads the duration and restarts
  the countdown.

## Model

| member | source | states |
|---|---|---|
| Lists.FilterMembers | cat-not-on-chair/Managers/FocusSessionManager.swift:33-38 | an element is kept by a filter exactly when it is in the list and satisfies the predicate |
| Lists.FilterAppend | cat-not-on-chair/Managers/FocusSessionManager.swift:27-38 | filtering a list with an appended tail is filtering each part and concatenating, which is how appending to the log shows up in every query |
| Lists.FilterDisjoint | cat-not-on-chair/Managers/FocusSessionManager.swift:40-59 | two predicates that never hold together keep at most as many elements together as the list has |
| Lists.FilterPartition3 | cat-not-on-chair/Managers/FocusSessionManager.swift:40-59 | three predicates that split every element exactly once keep exactly the list's length between them |
| Sessions.NewSession | cat-not-on-chair/Models/Session.swift:23-29 | a fresh record is in progress with no end time and carries the given type, duration and start |
| Sessions.Finalized | cat-not-on-chair/Models/Session.swift:31-38 | the full initialiser keeps id, type, duration and start, and sets the end time and status; a finished status gives a well-formed record |
| Sessions.RemainingTime | cat-not-on-chair/Models/Session.swift:40-45 | the planned duration while there is no end time, else the span from start to end |
| Sessions.RemainingTimeOfFinalized | cat-not-on-chair/Models/Session.swift:23-45 | a new record's remaining time is its duration; once finalised at `end` it is `end - start` |
| FocusSessions.NewFocusSession | cat-not-on-chair/Core/FocusSession.swift:35-47 | the defaulted initialiser gives a running session, no end time and strict blocking |
| FocusSessions.Duration | cat-not-on-chair/Core/FocusSession.swift:28-31 | zero without an end time, else end minus start |
| FocusSessions.NewFocusSessionDuration | cat-not-on-chair/Core/FocusSession.swift:28-47 | a just-created session has run for zero seconds |
| FocusSessions.DefaultSettings | cat-not-on-chair/Core/FocusSession.swift:67-73 | defaults of 1500/300/900 seconds, strict blocking and 4 short breaks, so short break < long break < focus |
| KeyValueStore.DecodeSessions | cat-not-on-chair/Managers/FocusSessionManager.swift:14-18 | decoding a session list succeeds exactly on an encoded session list |
| KeyValueStore.DecodeFocusSessions | cat-not-on-chair/Core/PersistenceService.swift:43-49 | decoding a history succeeds exactly on an encoded history |
| KeyValueStore.DecodeSettings | cat-not-on-chair/Core/PersistenceService.swift:27-33 | decoding settings succeeds exactly on encoded settings |
| KeyValueStore.DecodeEncode | cat-not-on-chair/Core/PersistenceService.swift:21-49 | decoding what was encoded gives back the value, for all three kinds |
| KeyValueStore.UserDefaults.DataFor | cat-not-on-chair/Core/PersistenceService.swift:28 | a lookup finds data exactly for stored keys and returns the stored value |
| KeyValueStore.UserDefaults.Set | cat-not-on-chair/Core/PersistenceService.swift:23 | writing a key changes that key only |
| KeyValueStore.UserDefaults.RemoveObject | cat-not-on-chair/Core/PersistenceService.swift:52 | removing a key drops that key only |
| SessionLog.StartOfDay | cat-not-on-chair/Managers/FocusSessionManager.swift:69 | the day start is a whole-day boundary at or before the instant, less than one day before it |
| SessionLog.StatsSince | cat-not-on-chair/Managers/FocusSessionManager.swift:40-60 | the total counts sessions started at or after the cutoff, the completed and failed counts are the completed and the failed ones among those; completed plus failed never exceed the total, which never exceeds the log |
| SessionLog.StatsBreakdown | cat-not-on-chair/Managers/FocusSessionManager.swift:40-60 | the total is completed plus failed plus still in progress |
| SessionLog.DayStartBackNext | cat-not-on-chair/Managers/FocusSessionManager.swift:67-70 | going back one more day moves the day start back by exactly one day |
| SessionLog.DayStartBackShift | cat-not-on-chair/Managers/FocusSessionManager.swift:67-69 | the day start `k` days back is today's start minus `k` days |
| SessionLog.WindowsContainingAtMostOne | cat-not-on-chair/Managers/FocusSessionManager.swift:67-76 | the per-day windows are disjoint: an instant lies in at most one of them |
| SessionLog.WindowTotalBound | cat-not-on-chair/Managers/FocusSessionManager.swift:67-76 | the per-day counts sum to at most the number of stored sessions |
| SessionLog.DayEntry | cat-not-on-chair/Managers/FocusSessionManager.swift:67-76 | the entry for offset `i` starts `i` days before today's start on a day boundary and counts the sessions started within that day |
| SessionLog.FocusSessionManager.Sessions | cat-not-on-chair/Managers/FocusSessionManager.swift:12-19 | the stored list, or the empty list when the key is absent or its data does not decode |
| SessionLog.FocusSessionManager.SetSessions | cat-not-on-chair/Managers/FocusSessionManager.swift:20-24 | writing the list changes only its key, and reading gives it back |
| SessionLog.FocusSessionManager.AddSession | cat-not-on-chair/Managers/FocusSessionManager.swift:27-31 | the log is the old log with the session at the end, and every day's sessions gain it at the end exactly when it started that day |
| SessionLog.FocusSessionManager.GetSessions | cat-not-on-chair/Managers/FocusSessionManager.swift:33-38 | the stored sessions that started on the given day, in stored order (the `Filter` of the log): a session is returned exactly when it is stored and started that day |
| SessionLog.FocusSessionManager.GetWeeklyStats | cat-not-on-chair/Managers/FocusSessionManager.swift:40-49 | `StatsSince` with the cutoff seven days back: the sessions started since then, and the completed and the failed ones among them; completed plus failed ≤ total ≤ stored |
| SessionLog.FocusSessionManager.GetMonthlyStats | cat-not-on-chair/Managers/FocusSessionManager.swift:51-60 | `StatsSince` with the month-ago cutoff: the sessions started since then, and the completed and the failed ones among them; completed plus failed ≤ total ≤ stored |
| SessionLog.FocusSessionManager.GetSessionCountByDay | cat-not-on-chair/Managers/FocusSessionManager.swift:62-80 | exactly `days` entries, today first, each the day start and its session count; the counts sum to at most the stored sessions |
| Persistence.UserDefaultsPersistence.LoadUserSettings | cat-not-on-chair/Core/PersistenceService.swift:27-33 | the stored settings, or the defaults when absent or undecodable |
| Persistence.UserDefaultsPersistence.LoadSessionHistory | cat-not-on-chair/Core/PersistenceService.swift:43-49 | the stored history, or the empty list when absent or undecodable |
| Persistence.UserDefaultsPersistence.SaveUserSettings | cat-not-on-chair/Core/PersistenceService.swift:21-25 | loading afterwards gives the saved settings; the history is unchanged |
| Persistence.UserDefaultsPersistence.SaveSession | cat-not-on-chair/Core/PersistenceService.swift:35-41 | the history gains the session at the end; the settings are unchanged |
| Persistence.UserDefaultsPersistence.ClearSessionHistory | cat-not-on-chair/Core/PersistenceService.swift:51-53 | loading afterwards gives the empty history; the settings are unchanged |
| FamilyControls.ShieldAfterBlockApps | cat-not-on-chair/Managers/FamilyControlsManager.swift:68-115 | unauthorised: shield unchanged; strict: both categories all, apps and domains kept; whitelist with apps: cleared, then all categories except the selected apps; otherwise all four fields nil |
| FamilyControls.BlockAppsBlocksIff | cat-not-on-chair/Managers/FamilyControlsManager.swift:79-113 | with authorisation, apps end up shielded exactly in strict mode and in whitelist mode with a non-empty selection |
| FamilyControls.BlockAppsIdempotent | cat-not-on-chair/Managers/FamilyControlsManager.swift:68-122 | applying the same mode and selection twice is the same as once |
| FamilyControls.FamilyControlsManager.RequestAuthorization | cat-not-on-chair/Managers/FamilyControlsManager.swift:23-42 | a throwing request returns false and changes nothing; otherwise the result is the new status, and the selection is initialised only if it was nil and approval came |
| FamilyControls.FamilyControlsManager.SetSelection | cat-not-on-chair/Managers/FamilyControlsManager.swift:53-65 | the next `getSelection` returns the value just set |
| FamilyControls.FamilyControlsManager.BlockApps | cat-not-on-chair/Managers/FamilyControlsManager.swift:68-115 | the field-by-field assignments leave exactly the shield `ShieldAfterBlockApps` describes |
| FamilyControls.FamilyControlsManager.StopBlocking | cat-not-on-chair/Managers/FamilyControlsManager.swift:117-122 | all four fields nil whatever they were, so it is idempotent |
| AppBlocking.DisplayNameInjective | cat-not-on-chair/Core/AppBlockingService.swift:22-28 | different modes have different display names |
| AppBlocking.ShieldAfterStopBlocking | cat-not-on-chair/Core/AppBlockingService.swift:134-142 | app categories become "none" and applications nil; web fields are kept; apps are not shielded |
| AppBlocking.StopBlockingIdempotent | cat-not-on-chair/Core/AppBlockingService.swift:134-142 | stopping twice equals stopping once |
| AppBlocking.ShieldAfterStartBlocking | cat-not-on-chair/Core/AppBlockingService.swift:108-126 | strict: all app categories; whitelist with apps: all categories and the selected apps; whitelist without apps: unchanged; relaxed: same as stop; web fields never change |
| AppBlocking.EmptyWhitelistDiverges | cat-not-on-chair/Core/AppBlockingService.swift:113-122 | on an empty whitelist over a shield that blocks apps, the older manager clears everything while this service leaves the shield blocking |
| AppBlocking.AppBlockingService.constructor | cat-not-on-chair/Core/AppBlockingService.swift:46-65 | strict mode, empty selection, permission as the authorisation status reports |
| AppBlocking.AppBlockingService.CheckAuthorizationStatus | cat-not-on-chair/Core/AppBlockingService.swift:68-78 | permission mirrors the status; mode and selection unchanged |
| AppBlocking.AppBlockingService.RequestAuthorization | cat-not-on-chair/Core/AppBlockingService.swift:81-97 | result and permission are both the request's outcome |
| AppBlocking.AppBlockingService.StartBlocking | cat-not-on-chair/Core/AppBlockingService.swift:100-131 | without permission the shield never changes, even when the request succeeds; with permission it becomes `ShieldAfterStartBlocking` |
| AppBlocking.AppBlockingService.StopBlocking | cat-not-on-chair/Core/AppBlockingService.swift:134-142 | the shield becomes `ShieldAfterStopBlocking` of the old one |
| TimerVM.Reconcile | cat-not-on-chair/ViewModels/TimerViewModel.swift:116 | `max(0, end - now)` is never negative, is zero exactly when the end has passed, and otherwise lands exactly on the end |
| TimerVM.ReconcileAfterResign | cat-not-on-chair/ViewModels/TimerViewModel.swift:82-116 | resuming at the resign instant restores the remaining time; `d` seconds later it is `d` less, floored at zero |
| TimerVM.StoppedStatus | cat-not-on-chair/ViewModels/TimerViewModel.swift:202 | a stopped session failed exactly when it was a focus session, and is never left in progress |
| TimerVM.TimerViewModel.constructor | cat-not-on-chair/ViewModels/TimerViewModel.swift:11-37 | no session, not running, relax mode, 25- and 5-minute durations |
| TimerVM.TimerViewModel.StartFocusSession | cat-not-on-chair/ViewModels/TimerViewModel.swift:161-174 | a new in-progress focus session of `focusDuration`, countdown full, running, end at `now + focusDuration`, and the mode applied to the shield only when authorised |
| TimerVM.TimerViewModel.StartBreakSession | cat-not-on-chair/ViewModels/TimerViewModel.swift:176-187 | a new in-progress short break of `breakDuration`, running, and blocking cleared |
| TimerVM.TimerViewModel.StopSession | cat-not-on-chair/ViewModels/TimerViewModel.swift:189-214 | not running, no end time, blocking cleared; a current session is finalised (failed iff focus) and appended as exactly one record, with the store's log key rewritten to the old log plus that record; else the store is untouched; preferences and remaining time unchanged |
| TimerVM.TimerViewModel.CompleteSession | cat-not-on-chair/ViewModels/TimerViewModel.swift:216-240 | as stop, but the appended record is always completed; the store's log key holds the old log plus that record |
| TimerVM.TimerViewModel.Tick | cat-not-on-chair/ViewModels/TimerViewModel.swift:250-267 | an unscheduled timer changes nothing; with time left the countdown drops by exactly one second and stays ≥ 0, with end time, shield and store unchanged; at zero the session completes, blocking is cleared and the record is appended to the store; preferences never change |
| TimerVM.TimerViewModel.AppWillResignActive | cat-not-on-chair/ViewModels/TimerViewModel.swift:74-94 | the timer stops firing and a running session's end is fixed at `now + timeRemaining` |
| TimerVM.TimerViewModel.AppDidBecomeActive | cat-not-on-chair/ViewModels/TimerViewModel.swift:111-140 | when not running nothing changes; while running, a reconciled zero completes the session (blocking cleared, record appended to the store); otherwise the countdown resumes from the reconciled time with shield and store unchanged; preferences never change |
| TimerVM.TimerViewModel.SetFocusDuration | cat-not-on-chair/ViewModels/TimerViewModel.swift:269-271 | the focus duration becomes minutes × 60; nothing else changes |
| TimerVM.TimerViewModel.SetBreakDuration | cat-not-on-chair/ViewModels/TimerViewModel.swift:273-275 | the break duration becomes minutes × 60; nothing else changes |
| TimerVM.TimerViewModel.UpdateActivitySelection | cat-not-on-chair/ViewModels/TimerViewModel.swift:278-292 | the selection is stored here and in the manager; the shield is recomputed only while running in whitelist mode |
| TimerVM.TimerViewModel.ApplyCurrentModeBlocking | cat-not-on-chair/ViewModels/TimerViewModel.swift:295-302 | while running the current mode is applied as `blockApps` would; otherwise the shield is unchanged |
| TimerVM.ResignAndResumeAtOnce | cat-not-on-chair/ViewModels/TimerViewModel.swift:74-140 | resign followed by resume at the same instant keeps the session running with the same remaining time and logs nothing |
| TimerVM.StopLogsOneRecord | cat-not-on-chair/ViewModels/TimerViewModel.swift:161-214 | starting and then stopping a session logs one finished record with its id and start, failed iff it was focus |
| Pomodoro.SessionTypeTextInjective | cat-not-on-chair/Core/PomodoroTimerViewModel.swift:225-231 | different session types have different texts |
| Pomodoro.AfterCompletion | cat-not-on-chair/Core/PomodoroTimerViewModel.swift:155-168 | after focus the counter rises by exactly one and the next break is long iff the new count is a multiple of the setting; after a break focus is next and the counter stays |
| Pomodoro.CycleAlternates | cat-not-on-chair/Core/PomodoroTimerViewModel.swift:155-168 | from the start, after 2k completions focus is next with k done; after 2k+1 the (k+1)-th break is next, long iff k+1 is a multiple of the setting |
| Pomodoro.FourthBreakIsLong | cat-not-on-chair/Core/PomodoroTimerViewModel.swift:155-162 | with 4 sessions per long break, breaks 1–3 are short and break 4 is long |
| Pomodoro.TickRemaining | cat-not-on-chair/Core/PomodoroTimerViewModel.swift:145 | `max(total - elapsed, 0)` is ≥ 0 and ≤ total, and zero exactly when the elapsed time reaches the total |
| Pomodoro.TickRemainingMonotone | cat-not-on-chair/Core/PomodoroTimerViewModel.swift:145 | more elapsed time never gives more remaining time |
| Pomodoro.PomodoroTimerViewModel.constructor | cat-not-on-chair/Core/PomodoroTimerViewModel.swift:36-70 | idle focus, durations 25/5/15 minutes, 4 per long break, the service's blocking mode |
| Pomodoro.PomodoroTimerViewModel.Start | cat-not-on-chair/Core/PomodoroTimerViewModel.swift:73-94 | the total is the current kind's duration, remaining equals total, running; focus starts blocking (permission afterwards is the old permission or the request's outcome) and breaks stop it; cycle, preferences, and the service's mode and selection unchanged; a timer task still asleep is cancelled and owes one more pass |
| Pomodoro.PomodoroTimerViewModel.Stop | cat-not-on-chair/Core/PomodoroTimerViewModel.swift:96-108 | failed iff it was running a focus session, else idle; the timer task is cancelled (owing one more pass if it was asleep) and blocking always stops; cycle, times and preferences unchanged |
| Pomodoro.PomodoroTimerViewModel.Reset | cat-not-on-chair/Core/PomodoroTimerViewModel.swift:110-114 | on return, idle with remaining equal to total and blocking stopped; cycle and preferences unchanged; a timer task that was asleep owes one more pass, which can overwrite the remaining time (`CancelledTaskWakes`) |
| Pomodoro.PomodoroTimerViewModel.HandleSessionCompletion | cat-not-on-chair/Core/PomodoroTimerViewModel.swift:155-175 | the cycle takes one `AfterCompletion` step and the state becomes idle; blocking stops after focus |
| Pomodoro.PomodoroTimerViewModel.SkipBreak | cat-not-on-chair/Core/PomodoroTimerViewModel.swift:116-120 | during focus nothing changes; during a break focus is next with the counter unchanged, while the timer task stays live; times and preferences unchanged |
| Pomodoro.PomodoroTimerViewModel.SkipBreakCancellingTimer | cat-not-on-chair/Core/PomodoroTimerViewModel.swift:116-120 | as skip, with the countdown of the skipped break cancelled (owing one more pass if it was asleep); shield, times and preferences unchanged |
| Pomodoro.PomodoroTimerViewModel.RunTimer | cat-not-on-chair/Core/PomodoroTimerViewModel.swift:137-153 | if a reading reaches the total, the session completes exactly once and the loop stops at zero; otherwise the cycle is untouched and the remaining time is that of the last reading; total, task, pending passes and preferences unchanged; a cancelled task does nothing here, its one extra pass is `CancelledTaskWakes` |
| Pomodoro.PomodoroTimerViewModel.SetBlockingMode | cat-not-on-chair/Core/PomodoroTimerViewModel.swift:40-44 | the mode is set here and copied into the service; every other preference and the timer state unchanged |
| Pomodoro.PomodoroTimerViewModel.CancelledTaskWakes | cat-not-on-chair/Core/PomodoroTimerViewModel.swift:142-150 | a cancelled task's discarded sleep error lets the loop body run once more: remaining becomes `max(total - elapsed, 0)` and at zero the session finishes and completes; with no pending task nothing changes |
| Pomodoro.ResetThenCancelledPassOverwrites | cat-not-on-chair/Core/PomodoroTimerViewModel.swift:110-150 | start, reset, then the cancelled task wakes at `elapsed`: the remaining time is `total - elapsed`, not the full countdown reset set |
| Pomodoro.StopAtEndCountsStoppedFocus | cat-not-on-chair/Core/PomodoroTimerViewModel.swift:96-162 | start a focus session, stop it once its end has passed, then the cancelled task wakes: the stopped session is counted as completed and a break is next |
| Pomodoro.ResetLeavesCountdownFull | cat-not-on-chair/Core/PomodoroTimerViewModel.swift:110-150 | with only the live loop running, after reset no clock reading changes the full countdown |
| Pomodoro.StopLeavesFocusFailed | cat-not-on-chair/Core/PomodoroTimerViewModel.swift:96-150 | with only the live loop running, a stopped focus session stays failed and is not counted |
| Pomodoro.SkippedBreakCountsPhantomFocus | cat-not-on-chair/Core/PomodoroTimerViewModel.swift:116-162 | start a break, skip it and let its countdown expire: one focus completion is counted that never ran |
| Pomodoro.SkippedBreakWithCancelCountsNothing | cat-not-on-chair/Core/PomodoroTimerViewModel.swift:116-168 | with the timer task cancelled on skip, the same readings leave the counter and the next kind (focus) alone |
| LiveActivity.MinutesSeconds | widget/widgetLiveActivity.swift:143-147 | minutes × 60 + seconds is the input, and seconds lie within one minute, in 0..59 for non-negative input |
| LiveActivity.TimeStringShape | widget/widgetLiveActivity.swift:143-147 | below 6000 seconds the text is five characters, digits either side of a colon at index 2 |
| LiveActivity.ParseTimeStringRoundTrip | widget/widgetLiveActivity.swift:143-147 | reading the text back gives the number of seconds it was made from |
| LiveActivity.LiveRemaining | widget/widgetLiveActivity.swift:137 | `max(0, endTime.timeIntervalSinceNow)` is never negative, is zero exactly when the end has passed, and otherwise lands exactly on the end |
| LiveActivity.DisplayNeverNegative | widget/widgetLiveActivity.swift:39 | the displayed `max(0, end - now)` is non-negative and its text has no minus sign |
| LiveActivity.ReconstructedTotal | widget/widgetLiveActivity.swift:131-133 | the total rebuilt from the end time equals `timeRemaining` |
| LiveActivity.Progress | widget/widgetLiveActivity.swift:129-141 | NaN (None) exactly for a zero total after the end; otherwise in [0, 1], and the elapsed share of the total when the live remaining time is within it |
| LiveActivity.ProgressMonotone | widget/widgetLiveActivity.swift:129-141 | with a positive total, progress never decreases as time passes |

## Left out

- **Live activities, notifications and background tasks.** The `LiveActivityManager` calls, the
  background-task registration (`appDidEnterBackground`, `appWillEnterForeground`) and the observer
  setup in both view models are calls into platform frameworks with no effect on the modelled state.
- **Pickers and settings screens.** `selectAppsForWhitelist`, `showActivitySelection`,
  `selectApps`/`selectAllowedApps` and the thin permission wrappers of the Pomodoro view model are
  system UI. Authorisation is a boolean input.
- **Concurrency.** Tasks, timers, `@MainActor` and the asynchronous `startBlocking` inside `start`
  are sequential calls. The Pomodoro timer task runs to the end of the given clock readings, or
  until it stops. A cancelled task's extra pass is a separate call, `CancelledTaskWakes`, made at a
  time the caller chooses; on the main actor it runs after the cancelling method returns. Each pending
  pass is counted, but not which task owns it: its reading is a parameter.
- **Calendar.** A day is a fixed 86 400-second window; time zones and daylight saving are not
  modelled. The month-ago cutoff of the monthly statistics is a parameter.
- **Floating point.** `TimeInterval` values are whole seconds. `Int(timeInterval)` truncation of
  fractions is therefore not modelled, and neither are double rounding in `progress` and infinite
  quotients (only their clamped outcome).
- **Integer overflow.** `minutes * 60` and the focus counter are unbounded integers; Swift would trap
  on overflow.
- **JSON.** Encoding failure (`try? encoder.encode` returning nil, which skips the write) is not
  modelled: encoding always succeeds.
- **The simulator branch** of `AppBlockingService` is not modelled. In a simulator build,
  `checkAuthorizationStatus` and `requestAuthorization` grant permission unconditionally (and the
  request returns true); the model covers only the device build, where permission follows the
  authorisation status or the request's outcome.
- SessionLog.FocusSessionManager.GetSessionCountByDay: `days` is a `nat`. In the source a negative
  `days` makes the range `0..<days` trap at run time; the model has no such input.
- Pomodoro.AfterCompletion: requires a non-zero `sessionsBeforeLongBreak`. In the source a zero
  setting makes `completedFocusSessions % sessionsBeforeLongBreak` trap; nothing in the source sets
  it to zero, and the view model keeps it non-zero as part of its invariant, so the trap is not modelled.
- **`blockApps` with a mode that is not a `FocusMode`.** This is a no-op in the source; every caller
  passes a `FocusMode`.
- AppBlocking.ShieldAfterStartBlocking: the source tests `selectedApps.applications` for emptiness
  but assigns `selectedApps.applicationTokens`. The model uses the token set for both, so it does not
  capture a selection whose two views disagree.

## Findings

| source | as written | input that shows it | evidently intended | confidence | as-written member | corrected member |
|---|---|---|---|---|---|---|
| cat-not-on-chair/Core/PomodoroTimerViewModel.swift:116-120 | `skipBreak` completes the break but leaves the timer task running | start a short break, skip it, then let the clock pass the break length: the timer task calls `handleSessionCompletion` with the type already focus | skipping a break ends its countdown, so no focus session is counted that never ran | medium, not executed | Pomodoro.SkippedBreakCountsPhantomFocus | Pomodoro.PomodoroTimerViewModel.SkipBreakCancellingTimer |
| cat-not-on-chair/Core/PomodoroTimerViewModel.swift:142-145 | the loop sleeps with `try?`, so a cancelled sleep returns at once and the body runs one more time; after `reset` this overwrites the full countdown | start a focus session, press Reset while it runs: the cancelled task wakes and sets the remaining time to `total - elapsed` | reset leaves the countdown full; a cancelled loop leaves without another pass | medium, not executed | Pomodoro.ResetThenCancelledPassOverwrites | Pomodoro.ResetLeavesCountdownFull |
| cat-not-on-chair/Core/PomodoroTimerViewModel.swift:142-150 | the same extra pass after `stop` can reach zero and complete the stopped session | stop a focus session after its end but before the timer task's next wake-up: the pass sets `.finished` and `handleSessionCompletion` counts it | a stopped focus session stays failed and is not counted | medium, not executed | Pomodoro.StopAtEndCountsStoppedFocus | Pomodoro.StopLeavesFocusFailed |
