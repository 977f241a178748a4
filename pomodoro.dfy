/**
  The Pomodoro timer of the newer core (Core/PomodoroTimerViewModel.swift): a state machine over
  focus, short-break and long-break sessions that counts completed focus sessions to choose the
  next break, counts down from the clock's elapsed time, and shields apps during focus through the
  blocking service. The timer task is a flag plus a method that runs its loop over the elapsed
  times the clock reports after each one-second sleep; a cancelled task that was asleep owes one
  more pass of that loop's body, run by a method of its own.
 */
module Pomodoro {
  import opened Shield
  import opened AppBlocking

  datatype PomodoroSessionType = Focus | ShortBreak | LongBreak

  datatype PomodoroTimerState = Idle | Running | Paused | Finished | Failed

  /** `sessionTypeText`, shown in the live activity. */
  function SessionTypeText(t: PomodoroSessionType): string
  {
    match t
    case Focus => "Focus"
    case ShortBreak => "Short Break"
    case LongBreak => "Long Break"
  }

  /** Different session types are shown under different texts. */
  lemma SessionTypeTextInjective(a: PomodoroSessionType, b: PomodoroSessionType)
    ensures SessionTypeText(a) == SessionTypeText(b) ==> a == b
  {
    if a != b {
      assert SessionTypeText(a)[0] != SessionTypeText(b)[0];
    }
  }

  /** Where the cycle stands: the kind of the next session and the focus sessions completed so far. */
  datatype Cycle = Cycle(sessionType: PomodoroSessionType, completedFocusSessions: nat)

  /** The view model's user-facing configuration, which only its setters change. */
  datatype Preferences = Preferences(
    focusDuration: int, shortBreakDuration: int, longBreakDuration: int,
    sessionsBeforeLongBreak: int, blockingMode: BlockingMode)

  /**
    The cycle step of `handleSessionCompletion`. After a focus session the counter goes up by
    exactly one and the next session is a long break exactly when the new count is a multiple of
    `sessionsBeforeLongBreak`, else a short break. After either break the next session is focus and
    the counter stays. The source traps on a zero divisor, so zero is excluded.
   */
  function AfterCompletion(c: Cycle, sessionsBeforeLongBreak: int): (r: Cycle)
    requires sessionsBeforeLongBreak != 0
    ensures c.sessionType == Focus ==> r.completedFocusSessions == c.completedFocusSessions + 1
    ensures c.sessionType == Focus ==>
              r.sessionType != Focus && (r.sessionType == LongBreak <==> r.completedFocusSessions % sessionsBeforeLongBreak == 0)
    ensures c.sessionType != Focus ==> r == Cycle(Focus, c.completedFocusSessions)
  {
    if c.sessionType == Focus then
      var count := c.completedFocusSessions + 1;
      Cycle(if count % sessionsBeforeLongBreak == 0 then LongBreak else ShortBreak, count)
    else
      Cycle(Focus, c.completedFocusSessions)
  }

  /** The cycle after `k` completions in a row. */
  function Completions(c: Cycle, sessionsBeforeLongBreak: int, k: nat): (r: Cycle)
    requires sessionsBeforeLongBreak != 0
  {
    if k == 0 then c else AfterCompletion(Completions(c, sessionsBeforeLongBreak, k - 1), sessionsBeforeLongBreak)
  }

  /**
    From the start of the cycle, focus and breaks alternate: after `2k` completions the next session
    is focus with `k` focus sessions done, and after `2k + 1` it is the `(k+1)`-th break, which is long
    exactly when `k + 1` is a multiple of `sessionsBeforeLongBreak`.
   */
  lemma {:induction false} CycleAlternates(n: int, k: nat)
    requires n != 0
    ensures Completions(Cycle(Focus, 0), n, 2 * k) == Cycle(Focus, k)
    ensures Completions(Cycle(Focus, 0), n, 2 * k + 1)
            == Cycle(if (k + 1) % n == 0 then LongBreak else ShortBreak, k + 1)
  {
    if k > 0 {
      CycleAlternates(n, k - 1);
      assert Completions(Cycle(Focus, 0), n, 2 * k)
          == AfterCompletion(Completions(Cycle(Focus, 0), n, 2 * (k - 1) + 1), n);
    }
  }

  /** With four sessions before a long break, the first three breaks are short and the fourth is long. */
  lemma FourthBreakIsLong()
    ensures Completions(Cycle(Focus, 0), 4, 1).sessionType == ShortBreak
    ensures Completions(Cycle(Focus, 0), 4, 3).sessionType == ShortBreak
    ensures Completions(Cycle(Focus, 0), 4, 5).sessionType == ShortBreak
    ensures Completions(Cycle(Focus, 0), 4, 7).sessionType == LongBreak
  {
    CycleAlternates(4, 0);
    CycleAlternates(4, 1);
    CycleAlternates(4, 2);
    CycleAlternates(4, 3);
  }

  /** One tick of the timer task: `max(totalTime - elapsed, 0)`. */
  function TickRemaining(totalTime: int, elapsed: int): (r: int)
    ensures r >= 0
    ensures elapsed >= 0 && totalTime >= 0 ==> r <= totalTime
    ensures r == 0 <==> elapsed >= totalTime
    ensures r > 0 ==> r + elapsed == totalTime
  {
    if 0 >= totalTime - elapsed then 0 else totalTime - elapsed
  }

  /** The remaining time never goes up as more time elapses. */
  lemma TickRemainingMonotone(totalTime: int, e1: int, e2: int)
    requires e1 <= e2
    ensures TickRemaining(totalTime, e2) <= TickRemaining(totalTime, e1)
  {
  }

  /** Some clock reading reaches the total, so a countdown over these readings runs out. */
  predicate Expires(totalTime: int, elapsed: seq<int>)
  {
    exists i :: 0 <= i < |elapsed| && elapsed[i] >= totalTime
  }

  class PomodoroTimerViewModel {
    var timerState: PomodoroTimerState
    var sessionType: PomodoroSessionType
    var remainingTime: int
    var totalTime: int
    var blockingMode: BlockingMode
    var focusDuration: int
    var shortBreakDuration: int
    var longBreakDuration: int
    var sessionsBeforeLongBreak: int
    var completedFocusSessions: nat
    /** A timer task exists and has not been cancelled. */
    var timerTaskActive: bool
    /**
      Cancelled timer tasks still asleep inside the countdown loop. Their `try?` sleep discards the
      cancellation, so each wakes at once and runs the loop body one more time before it leaves.
     */
    var pendingPasses: nat
    const blocking: AppBlockingService

    /** The divisor for long breaks is usable, and the service's mode mirrors this one. */
    predicate Valid()
      reads this, blocking
    {
      sessionsBeforeLongBreak != 0 && blockingMode == blocking.blockingMode
    }

    function CurrentCycle(): Cycle
      reads this
    {
      Cycle(sessionType, completedFocusSessions)
    }

    /** The live timer task is asleep inside its loop, so cancelling it leaves one more pass pending. */
    predicate TaskAsleep()
      reads this
    {
      timerTaskActive && remainingTime > 0
    }

    /** What the user configures: the three durations, the long-break period and the blocking mode. */
    function Prefs(): Preferences
      reads this
    {
      Preferences(focusDuration, shortBreakDuration, longBreakDuration, sessionsBeforeLongBreak, blockingMode)
    }

    /** The initialiser takes the service's mode and synchronises it back. */
    constructor (blocking: AppBlockingService)
      ensures Valid() && this.blocking == blocking
      ensures timerState == Idle && sessionType == Focus && remainingTime == 0 && totalTime == 0
      ensures focusDuration == 25 * 60 && shortBreakDuration == 5 * 60 && longBreakDuration == 15 * 60
      ensures sessionsBeforeLongBreak == 4 && completedFocusSessions == 0 && !timerTaskActive && pendingPasses == 0
    {
      this.blocking := blocking;
      timerState := Idle;
      sessionType := Focus;
      remainingTime := 0;
      totalTime := 0;
      blockingMode := blocking.blockingMode;
      focusDuration := 25 * 60;
      shortBreakDuration := 5 * 60;
      longBreakDuration := 15 * 60;
      sessionsBeforeLongBreak := 4;
      completedFocusSessions := 0;
      timerTaskActive := false;
      pendingPasses := 0;
    }

    /**
      `start`: the total becomes the duration of the current kind, the countdown starts from it, and
      the timer runs. A focus session asks the service to start blocking (`requestSucceeds` is the
      outcome of the permission request it may make); a break stops blocking.
     */
    method Start(requestSucceeds: bool)
      requires Valid()
      modifies this, blocking, blocking.store
      ensures Valid()
      ensures sessionType == Focus ==> totalTime == focusDuration
      ensures sessionType == ShortBreak ==> totalTime == shortBreakDuration
      ensures sessionType == LongBreak ==> totalTime == longBreakDuration
      ensures remainingTime == totalTime && timerState == Running && timerTaskActive
      ensures CurrentCycle() == old(CurrentCycle()) && Prefs() == old(Prefs())
      ensures blocking.selectedApps == old(blocking.selectedApps) && blocking.blockingMode == old(blocking.blockingMode)
      ensures sessionType == Focus ==> blocking.hasPermission == (old(blocking.hasPermission) || requestSucceeds)
      ensures pendingPasses == old(pendingPasses) + (if old(TaskAsleep()) then 1 else 0)
      ensures sessionType == Focus && old(blocking.hasPermission) ==>
                blocking.store.shield == ShieldAfterStartBlocking(old(blocking.store.shield), blockingMode, blocking.selectedApps)
      ensures sessionType == Focus && !old(blocking.hasPermission) ==> blocking.store.shield == old(blocking.store.shield)
      ensures sessionType != Focus ==>
                blocking.store.shield == ShieldAfterStopBlocking(old(blocking.store.shield)) && blocking.hasPermission == old(blocking.hasPermission)
    {
      match sessionType {
        case Focus =>
          totalTime := focusDuration;
          blocking.StartBlocking(requestSucceeds);
        case ShortBreak =>
          totalTime := shortBreakDuration;
          blocking.StopBlocking();
        case LongBreak =>
          totalTime := longBreakDuration;
          blocking.StopBlocking();
      }
      if TaskAsleep() {
        pendingPasses := pendingPasses + 1;
      }
      remainingTime := totalTime;
      timerState := Running;
      timerTaskActive := true;
    }

    /**
      `stop`: the timer task is cancelled; a running focus session has failed, anything else goes
      back to idle; blocking always stops.
     */
    method Stop()
      requires Valid()
      modifies this, blocking.store
      ensures Valid()
      ensures timerState == Failed <==> old(timerState) == Running && old(sessionType) == Focus
      ensures timerState != Failed ==> timerState == Idle
      ensures !timerTaskActive
      ensures blocking.store.shield == ShieldAfterStopBlocking(old(blocking.store.shield))
      ensures CurrentCycle() == old(CurrentCycle()) && remainingTime == old(remainingTime) && totalTime == old(totalTime)
      ensures Prefs() == old(Prefs())
      ensures pendingPasses == old(pendingPasses) + (if old(TaskAsleep()) then 1 else 0)
    {
      if TaskAsleep() {
        pendingPasses := pendingPasses + 1;
      }
      timerTaskActive := false;
      if timerState == Running && sessionType == Focus {
        timerState := Failed;
      } else {
        timerState := Idle;
      }
      blocking.StopBlocking();
    }

    /** `reset`: whatever the state was, the timer ends idle and full, with blocking stopped. */
    method Reset()
      requires Valid()
      modifies this, blocking.store
      ensures Valid()
      ensures timerState == Idle && remainingTime == totalTime && totalTime == old(totalTime) && !timerTaskActive
      ensures blocking.store.shield == ShieldAfterStopBlocking(old(blocking.store.shield))
      ensures CurrentCycle() == old(CurrentCycle()) && Prefs() == old(Prefs())
      ensures pendingPasses == old(pendingPasses) + (if old(TaskAsleep()) then 1 else 0)
    {
      Stop();
      remainingTime := totalTime;
      timerState := Idle;
    }

    /**
      `handleSessionCompletion` (and `nextSession`): the cycle takes one step, the state becomes idle,
      and blocking stops after a focus session. The timer task is left as it is.
     */
    method HandleSessionCompletion()
      requires Valid()
      modifies this, blocking.store
      ensures Valid()
      ensures CurrentCycle() == AfterCompletion(old(CurrentCycle()), sessionsBeforeLongBreak)
      ensures timerState == Idle
      ensures old(sessionType) == Focus ==> blocking.store.shield == ShieldAfterStopBlocking(old(blocking.store.shield))
      ensures old(sessionType) != Focus ==> blocking.store.shield == old(blocking.store.shield)
      ensures remainingTime == old(remainingTime) && totalTime == old(totalTime) && timerTaskActive == old(timerTaskActive)
      ensures Prefs() == old(Prefs()) && pendingPasses == old(pendingPasses)
    {
      if sessionType == Focus {
        completedFocusSessions := completedFocusSessions + 1;
        if completedFocusSessions % sessionsBeforeLongBreak == 0 {
          sessionType := LongBreak;
        } else {
          sessionType := ShortBreak;
        }
        blocking.StopBlocking();
      } else {
        sessionType := Focus;
      }
      timerState := Idle;
    }

    /**
      `skipBreak` as written: during a break it completes the break, so focus is next and the counter
      stays; during focus it does nothing. The timer task is not cancelled.
     */
    method SkipBreak()
      requires Valid()
      modifies this, blocking.store
      ensures Valid()
      ensures old(sessionType) == Focus ==>
                CurrentCycle() == old(CurrentCycle()) && timerState == old(timerState) && blocking.store.shield == old(blocking.store.shield)
      ensures old(sessionType) != Focus ==>
                CurrentCycle() == Cycle(Focus, old(completedFocusSessions)) && timerState == Idle
                && blocking.store.shield == old(blocking.store.shield)
      ensures remainingTime == old(remainingTime) && totalTime == old(totalTime) && timerTaskActive == old(timerTaskActive)
      ensures Prefs() == old(Prefs()) && pendingPasses == old(pendingPasses)
    {
      if sessionType != Focus {
        HandleSessionCompletion();
      }
    }

    /**
      `skipBreak` with the timer task cancelled first, so that the countdown of the skipped break
      cannot complete a session later. Otherwise as `SkipBreak`.
     */
    method SkipBreakCancellingTimer()
      requires Valid()
      modifies this, blocking.store
      ensures Valid()
      ensures old(sessionType) == Focus ==>
                CurrentCycle() == old(CurrentCycle()) && timerState == old(timerState) && timerTaskActive == old(timerTaskActive)
      ensures old(sessionType) != Focus ==>
                CurrentCycle() == Cycle(Focus, old(completedFocusSessions)) && timerState == Idle && !timerTaskActive
      ensures blocking.store.shield == old(blocking.store.shield)
      ensures remainingTime == old(remainingTime) && totalTime == old(totalTime)
      ensures Prefs() == old(Prefs())
      ensures pendingPasses == old(pendingPasses) + (if old(sessionType) != Focus && old(TaskAsleep()) then 1 else 0)
    {
      if sessionType != Focus {
        if TaskAsleep() {
          pendingPasses := pendingPasses + 1;
        }
        timerTaskActive := false;
        HandleSessionCompletion();
      }
    }

    /**
      The loop of the timer task. `elapsed` holds what the clock reports after each one-second
      sleep. While time remains and the timer task is live, each reading sets the remaining time to
      `max(totalTime - elapsed, 0)`; when that reaches zero the session finishes and completes,
      exactly once, and the loop stops. If no reading reaches the total, the cycle is untouched and
      the remaining time is that of the last reading.
     */
    method RunTimer(elapsed: seq<int>)
      requires Valid()
      modifies this, blocking.store
      ensures Valid()
      ensures totalTime == old(totalTime) && timerTaskActive == old(timerTaskActive) && Prefs() == old(Prefs())
      ensures pendingPasses == old(pendingPasses)
      ensures !(old(remainingTime) > 0 && old(timerTaskActive)) ==>
                remainingTime == old(remainingTime) && timerState == old(timerState) && CurrentCycle() == old(CurrentCycle())
                && blocking.store.shield == old(blocking.store.shield)
      ensures old(remainingTime) > 0 && old(timerTaskActive) && Expires(totalTime, elapsed) ==>
                remainingTime == 0 && timerState == Idle
                && CurrentCycle() == AfterCompletion(old(CurrentCycle()), sessionsBeforeLongBreak)
                && (old(sessionType) == Focus ==> blocking.store.shield == ShieldAfterStopBlocking(old(blocking.store.shield)))
                && (old(sessionType) != Focus ==> blocking.store.shield == old(blocking.store.shield))
      ensures old(remainingTime) > 0 && old(timerTaskActive) && !Expires(totalTime, elapsed) ==>
                remainingTime == (if elapsed == [] then old(remainingTime) else TickRemaining(totalTime, elapsed[|elapsed| - 1]))
                && remainingTime > 0 && timerState == old(timerState) && CurrentCycle() == old(CurrentCycle())
                && blocking.store.shield == old(blocking.store.shield)
    {
      var i := 0;
      while remainingTime > 0 && timerTaskActive && i < |elapsed|
        invariant 0 <= i <= |elapsed|
        invariant Valid()
        invariant totalTime == old(totalTime) && timerTaskActive == old(timerTaskActive) && Prefs() == old(Prefs())
        invariant pendingPasses == old(pendingPasses)
        invariant i == 0 ==>
                    remainingTime == old(remainingTime) && timerState == old(timerState) && CurrentCycle() == old(CurrentCycle())
                    && blocking.store.shield == old(blocking.store.shield)
        invariant i > 0 ==> old(remainingTime) > 0 && old(timerTaskActive)
        invariant i > 0 && remainingTime > 0 ==>
                    (forall j :: 0 <= j < i ==> elapsed[j] < totalTime)
                    && remainingTime == TickRemaining(totalTime, elapsed[i - 1])
                    && timerState == old(timerState) && CurrentCycle() == old(CurrentCycle())
                    && blocking.store.shield == old(blocking.store.shield)
        invariant i > 0 && remainingTime <= 0 ==>
                    elapsed[i - 1] >= totalTime && remainingTime == 0 && timerState == Idle
                    && CurrentCycle() == AfterCompletion(old(CurrentCycle()), sessionsBeforeLongBreak)
                    && (old(sessionType) == Focus ==> blocking.store.shield == ShieldAfterStopBlocking(old(blocking.store.shield)))
                    && (old(sessionType) != Focus ==> blocking.store.shield == old(blocking.store.shield))
        decreases |elapsed| - i
      {
        remainingTime := TickRemaining(totalTime, elapsed[i]);
        if remainingTime == 0 {
          timerState := Finished;
          HandleSessionCompletion();
        }
        i := i + 1;
      }
      if old(remainingTime) > 0 && old(timerTaskActive) && remainingTime > 0 {
        forall j | 0 <= j < |elapsed|
          ensures elapsed[j] < totalTime
        {
        }
      }
    }

    /** Assigning `blockingMode`: its observer copies the mode into the service. */
    method SetBlockingMode(mode: BlockingMode)
      requires Valid()
      modifies this, blocking
      ensures Valid()
      ensures blockingMode == mode && blocking.blockingMode == mode
      ensures blocking.selectedApps == old(blocking.selectedApps) && blocking.hasPermission == old(blocking.hasPermission)
      ensures timerState == old(timerState) && CurrentCycle() == old(CurrentCycle())
      ensures remainingTime == old(remainingTime) && totalTime == old(totalTime) && timerTaskActive == old(timerTaskActive)
      ensures Prefs() == old(Prefs()).(blockingMode := mode) && pendingPasses == old(pendingPasses)
    {
      blockingMode := mode;
      blocking.blockingMode := mode;
    }

    /**
      A cancelled timer task wakes from its interrupted sleep with the clock at `elapsed` and runs the
      loop body once more: the remaining time becomes `max(totalTime - elapsed, 0)`, and at zero the
      session finishes and completes. The task then sees the cancellation and leaves. Without a
      pending task nothing happens.
     */
    method CancelledTaskWakes(elapsed: int)
      requires Valid()
      modifies this, blocking.store
      ensures Valid()
      ensures totalTime == old(totalTime) && timerTaskActive == old(timerTaskActive) && Prefs() == old(Prefs())
      ensures old(pendingPasses) == 0 ==>
                pendingPasses == 0 && remainingTime == old(remainingTime) && timerState == old(timerState)
                && CurrentCycle() == old(CurrentCycle()) && blocking.store.shield == old(blocking.store.shield)
      ensures old(pendingPasses) > 0 ==>
                pendingPasses == old(pendingPasses) - 1 && remainingTime == TickRemaining(totalTime, elapsed)
      ensures old(pendingPasses) > 0 && elapsed < totalTime ==>
                timerState == old(timerState) && CurrentCycle() == old(CurrentCycle())
                && blocking.store.shield == old(blocking.store.shield)
      ensures old(pendingPasses) > 0 && elapsed >= totalTime ==>
                timerState == Idle && CurrentCycle() == AfterCompletion(old(CurrentCycle()), sessionsBeforeLongBreak)
                && (old(sessionType) == Focus ==> blocking.store.shield == ShieldAfterStopBlocking(old(blocking.store.shield)))
                && (old(sessionType) != Focus ==> blocking.store.shield == old(blocking.store.shield))
    {
      if pendingPasses > 0 {
        pendingPasses := pendingPasses - 1;
        remainingTime := TickRemaining(totalTime, elapsed);
        if remainingTime == 0 {
          timerState := Finished;
          HandleSessionCompletion();
        }
      }
    }
  }

  /**
    `skipBreak` as written leaves the break's countdown running. Once the clock passes the break's
    length, the timer task completes a session again; the type is focus by then, so a focus session is
    counted that never ran and the next session is a break again.
   */
  method SkippedBreakCountsPhantomFocus(vm: PomodoroTimerViewModel, requestSucceeds: bool)
    requires vm.Valid() && vm.sessionType == ShortBreak && vm.shortBreakDuration > 0
    modifies vm, vm.blocking, vm.blocking.store
    ensures vm.completedFocusSessions == old(vm.completedFocusSessions) + 1
    ensures vm.sessionType != Focus
  {
    vm.Start(requestSucceeds);
    vm.SkipBreak();
    var readings := [vm.shortBreakDuration];
    assert readings[0] >= vm.totalTime;
    vm.RunTimer(readings);
  }

  /** With the timer task cancelled on skip, the same clock readings change nothing: focus is still next. */
  method SkippedBreakWithCancelCountsNothing(vm: PomodoroTimerViewModel, requestSucceeds: bool)
    requires vm.Valid() && vm.sessionType == ShortBreak && vm.shortBreakDuration > 0
    modifies vm, vm.blocking, vm.blocking.store
    ensures vm.completedFocusSessions == old(vm.completedFocusSessions)
    ensures vm.sessionType == Focus && vm.timerState == Idle
  {
    vm.Start(requestSucceeds);
    vm.SkipBreakCancellingTimer();
    vm.RunTimer([vm.shortBreakDuration]);
  }

  /**
    Resetting a running countdown cancels the timer task while it sleeps. The cancelled task wakes
    and runs one more pass, so the full countdown that `reset` set is overwritten by the time left
    on the old clock.
   */
  method ResetThenCancelledPassOverwrites(vm: PomodoroTimerViewModel, requestSucceeds: bool, elapsed: int)
    requires vm.Valid() && vm.sessionType == Focus && 0 < elapsed < vm.focusDuration
    modifies vm, vm.blocking, vm.blocking.store
    ensures vm.timerState == Idle && vm.totalTime == vm.focusDuration
    ensures vm.remainingTime == vm.totalTime - elapsed && vm.remainingTime != vm.totalTime
  {
    vm.Start(requestSucceeds);
    vm.Reset();
    vm.CancelledTaskWakes(elapsed);
  }

  /**
    A focus session stopped after its end, before the timer task's next wake-up, fails; the
    cancelled task's extra pass then reaches zero and completes it, so the stopped session is counted
    and a break is next.
   */
  method StopAtEndCountsStoppedFocus(vm: PomodoroTimerViewModel, requestSucceeds: bool, elapsed: int)
    requires vm.Valid() && vm.sessionType == Focus && 0 < vm.focusDuration <= elapsed
    modifies vm, vm.blocking, vm.blocking.store
    ensures vm.completedFocusSessions == old(vm.completedFocusSessions) + 1
    ensures vm.sessionType != Focus && vm.timerState == Idle
  {
    vm.Start(requestSucceeds);
    vm.Stop();
    vm.CancelledTaskWakes(elapsed);
  }

  /**
    With a timer loop that leaves as soon as its sleep is cancelled, only the live loop runs: after
    `reset` no clock reading changes the full countdown.
   */
  method ResetLeavesCountdownFull(vm: PomodoroTimerViewModel, requestSucceeds: bool, readings: seq<int>)
    requires vm.Valid() && vm.sessionType == Focus
    modifies vm, vm.blocking, vm.blocking.store
    ensures vm.timerState == Idle && vm.totalTime == vm.focusDuration && vm.remainingTime == vm.totalTime
  {
    vm.Start(requestSucceeds);
    vm.Reset();
    vm.RunTimer(readings);
  }

  /** With the same loop, a stopped focus session stays failed and is not counted, whatever the clock reads. */
  method StopLeavesFocusFailed(vm: PomodoroTimerViewModel, requestSucceeds: bool, readings: seq<int>)
    requires vm.Valid() && vm.sessionType == Focus
    modifies vm, vm.blocking, vm.blocking.store
    ensures vm.completedFocusSessions == old(vm.completedFocusSessions)
    ensures vm.sessionType == Focus && vm.timerState == Failed
  {
    vm.Start(requestSucceeds);
    vm.Stop();
    vm.RunTimer(readings);
  }
}
