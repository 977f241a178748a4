/**
  The view model of the older timer (ViewModels/TimerViewModel.swift). It runs one `Session` at a
  time, counts it down one second per timer tick, remembers an absolute end time while the app is
  inactive, and on stop or completion appends the finished record to the session log. Blocking is
  delegated to the family-controls manager. The current time and the new session's UUID are
  parameters; `timerScheduled` stands for a live, repeating one-second timer.
 */
module TimerVM {
  import opened Optional
  import opened Sessions
  import opened Shield
  import opened FamilyControls
  import SessionLog
  import KeyValueStore

  /** The remaining time recomputed on resume: `max(0, end - now)`. */
  function Reconcile(end: int, now: int): (r: int)
    ensures r >= 0
    ensures r == 0 <==> end <= now
    ensures r > 0 ==> now + r == end
  {
    if end - now >= 0 then end - now else 0
  }

  /**
    Resigning stores `now + timeRemaining` as the end time, so resuming at the same instant gives back
    the same remaining time, and resuming `d` seconds later gives `d` seconds less, never below zero.
   */
  lemma ReconcileAfterResign(now: int, timeRemaining: int, d: nat)
    requires timeRemaining >= 0
    ensures Reconcile(now + timeRemaining, now) == timeRemaining
    ensures Reconcile(now + timeRemaining, now + d) == if d <= timeRemaining then timeRemaining - d else 0
  {
  }

  /** The status `stopSession` gives: a focus session stopped early failed, a break completed. */
  function StoppedStatus(kind: SessionType): (r: SessionStatus)
    ensures r == Failed <==> kind == Focus
    ensures r != InProgress
  {
    if kind == Focus then Failed else Completed
  }

  /** What the user chooses: the blocking mode, the selection and the two durations. */
  datatype Preferences = Preferences(
    focusMode: FocusMode, activitySelection: Option<Selection>, focusDuration: int, breakDuration: int)

  class TimerViewModel {
    var currentSession: Option<Session>
    var timeRemaining: int
    var isRunning: bool
    var focusMode: FocusMode
    var activitySelection: Option<Selection>
    /** The repeating one-second timer is scheduled and not invalidated. */
    var timerScheduled: bool
    var focusDuration: int
    var breakDuration: int
    var sessionEndTime: Option<int>
    const familyControls: FamilyControlsManager
    const sessionLog: SessionLog.FocusSessionManager

    /**
      While running there is a current session in progress and an end time; when not running there
      is no end time, and the current session, if any, is finished. The timer only ticks while running.
     */
    predicate Valid()
      reads this
    {
      (isRunning ==> currentSession.Some? && currentSession.value.status == InProgress && sessionEndTime.Some?) &&
      (!isRunning ==> sessionEndTime.None?) &&
      (currentSession.Some? ==> (currentSession.value.status == InProgress <==> isRunning)) &&
      (timerScheduled ==> isRunning)
    }

    function Prefs(): Preferences
      reads this
    {
      Preferences(focusMode, activitySelection, focusDuration, breakDuration)
    }

    /** The log's backing store after `finished` is appended to it, as `addSession` writes it. */
    function LoggedEntries(finished: Session): map<string, KeyValueStore.Data>
      reads sessionLog, sessionLog.defaults
    {
      sessionLog.defaults.entries[sessionLog.sessionsKey := KeyValueStore.SessionList(sessionLog.Sessions() + [finished])]
    }

    constructor (familyControls: FamilyControlsManager, sessionLog: SessionLog.FocusSessionManager)
      ensures Valid()
      ensures this.familyControls == familyControls && this.sessionLog == sessionLog
      ensures currentSession == None && timeRemaining == 0 && !isRunning && focusMode == Relax
      ensures activitySelection == None && !timerScheduled && sessionEndTime == None
      ensures focusDuration == 25 * 60 && breakDuration == 5 * 60
    {
      this.familyControls := familyControls;
      this.sessionLog := sessionLog;
      currentSession := None;
      timeRemaining := 0;
      isRunning := false;
      focusMode := Relax;
      activitySelection := None;
      timerScheduled := false;
      focusDuration := 25 * 60;
      breakDuration := 5 * 60;
      sessionEndTime := None;
    }

    /**
      `startFocusSession`: a new in-progress focus session of `focusDuration`, counting down from
      the full duration, ending at `now + focusDuration`; the current mode is applied to the shield
      only when authorised. The log is not written.
     */
    method StartFocusSession(now: int, id: nat)
      modifies this, familyControls.store
      ensures Valid()
      ensures currentSession == Some(NewSession(id, Focus, focusDuration, now))
      ensures timeRemaining == focusDuration && isRunning && timerScheduled
      ensures sessionEndTime == Some(now + focusDuration)
      ensures familyControls.store.shield
              == ShieldAfterBlockApps(old(familyControls.store.shield), familyControls.authorized, focusMode, activitySelection)
      ensures focusMode == old(focusMode) && activitySelection == old(activitySelection)
      ensures focusDuration == old(focusDuration) && breakDuration == old(breakDuration)
    {
      var newSession := NewSession(id, Focus, focusDuration, now);
      currentSession := Some(newSession);
      timeRemaining := focusDuration;
      isRunning := true;
      sessionEndTime := Some(now + focusDuration);
      if familyControls.CheckAuthorization() {
        familyControls.BlockApps(focusMode, activitySelection);
      }
      timerScheduled := true;
    }

    /** `startBreakSession`: a new in-progress short break of `breakDuration`, with blocking stopped. */
    method StartBreakSession(now: int, id: nat)
      modifies this, familyControls.store
      ensures Valid()
      ensures currentSession == Some(NewSession(id, ShortBreak, breakDuration, now))
      ensures timeRemaining == breakDuration && isRunning && timerScheduled
      ensures sessionEndTime == Some(now + breakDuration)
      ensures familyControls.store.shield == Cleared
      ensures focusMode == old(focusMode) && activitySelection == old(activitySelection)
      ensures focusDuration == old(focusDuration) && breakDuration == old(breakDuration)
    {
      var newSession := NewSession(id, ShortBreak, breakDuration, now);
      currentSession := Some(newSession);
      timeRemaining := breakDuration;
      isRunning := true;
      sessionEndTime := Some(now + breakDuration);
      familyControls.StopBlocking();
      timerScheduled := true;
    }

    /**
      `stopSession`: the timer stops, blocking stops, and a current session, if any, is finalised at
      `now` as failed when it is a focus session and completed otherwise, and appended to the log as
      exactly one new record. Without a current session the log is untouched.
     */
    method StopSession(now: int)
      requires Valid()
      modifies this, familyControls.store, sessionLog.defaults
      ensures Valid()
      ensures !isRunning && !timerScheduled && sessionEndTime == None
      ensures familyControls.store.shield == Cleared
      ensures old(currentSession).None? ==> currentSession == None && sessionLog.defaults.entries == old(sessionLog.defaults.entries)
      ensures old(currentSession).Some? ==>
                var finished := Finalized(old(currentSession).value, now, StoppedStatus(old(currentSession).value.kind));
                currentSession == Some(finished) && sessionLog.Sessions() == old(sessionLog.Sessions()) + [finished]
                && sessionLog.defaults.entries == old(LoggedEntries(finished))
      ensures timeRemaining == old(timeRemaining) && Prefs() == old(Prefs())
    {
      timerScheduled := false;
      isRunning := false;
      sessionEndTime := None;
      familyControls.StopBlocking();
      if currentSession.Some? {
        var session := currentSession.value;
        var newStatus := if session.kind == Focus then Failed else Completed;
        var updatedSession := Finalized(session, now, newStatus);
        currentSession := Some(updatedSession);
        sessionLog.AddSession(updatedSession);
      }
    }

    /** `completeSession`: as `stopSession`, except that the record is always completed. */
    method CompleteSession(now: int)
      requires Valid()
      modifies this, familyControls.store, sessionLog.defaults
      ensures Valid()
      ensures !isRunning && !timerScheduled && sessionEndTime == None
      ensures familyControls.store.shield == Cleared
      ensures old(currentSession).None? ==> currentSession == None && sessionLog.defaults.entries == old(sessionLog.defaults.entries)
      ensures old(currentSession).Some? ==>
                var finished := Finalized(old(currentSession).value, now, Completed);
                currentSession == Some(finished) && sessionLog.Sessions() == old(sessionLog.Sessions()) + [finished]
                && sessionLog.defaults.entries == old(LoggedEntries(finished))
      ensures timeRemaining == old(timeRemaining) && Prefs() == old(Prefs())
    {
      timerScheduled := false;
      isRunning := false;
      sessionEndTime := None;
      familyControls.StopBlocking();
      if currentSession.Some? {
        var session := currentSession.value;
        var updatedSession := Finalized(session, now, Completed);
        currentSession := Some(updatedSession);
        sessionLog.AddSession(updatedSession);
      }
    }

    /**
      One firing of the repeating timer. With time left it takes off exactly one second, so whole
      seconds never go below zero; at zero it completes the session. An invalidated timer does not fire.
     */
    method Tick(now: int)
      requires Valid()
      modifies this, familyControls.store, sessionLog.defaults
      ensures Valid()
      ensures Prefs() == old(Prefs())
      ensures !old(timerScheduled) ==>
                timeRemaining == old(timeRemaining) && isRunning == old(isRunning) && !timerScheduled
                && currentSession == old(currentSession) && sessionEndTime == old(sessionEndTime)
                && familyControls.store.shield == old(familyControls.store.shield)
                && sessionLog.defaults.entries == old(sessionLog.defaults.entries)
      ensures old(timerScheduled) && old(timeRemaining) > 0 ==>
                timeRemaining == old(timeRemaining) - 1 && timeRemaining >= 0 && isRunning && timerScheduled
                && currentSession == old(currentSession) && sessionEndTime == old(sessionEndTime)
                && familyControls.store.shield == old(familyControls.store.shield)
                && sessionLog.defaults.entries == old(sessionLog.defaults.entries)
      ensures old(timerScheduled) && old(timeRemaining) <= 0 ==>
                var finished := Finalized(old(currentSession).value, now, Completed);
                !isRunning && !timerScheduled && sessionEndTime == None && timeRemaining == old(timeRemaining)
                && currentSession == Some(finished) && familyControls.store.shield == Cleared
                && sessionLog.Sessions() == old(sessionLog.Sessions()) + [finished]
                && sessionLog.defaults.entries == old(LoggedEntries(finished))
    {
      if !timerScheduled {
        return;
      }
      if timeRemaining > 0 {
        timeRemaining := timeRemaining - 1;
      } else {
        CompleteSession(now);
      }
    }

    /**
      `appWillResignActive`: the foreground timer is invalidated and, while a session runs, its end
      is fixed at `now + timeRemaining`.
     */
    method AppWillResignActive(now: int)
      requires Valid()
      modifies this
      ensures Valid()
      ensures !timerScheduled
      ensures old(isRunning) ==> sessionEndTime == Some(now + timeRemaining)
      ensures !old(isRunning) ==> sessionEndTime == old(sessionEndTime)
      ensures timeRemaining == old(timeRemaining) && isRunning == old(isRunning) && currentSession == old(currentSession)
      ensures focusMode == old(focusMode) && activitySelection == old(activitySelection)
      ensures focusDuration == old(focusDuration) && breakDuration == old(breakDuration)
    {
      timerScheduled := false;
      if isRunning && currentSession.Some? {
        sessionEndTime := Some(now + timeRemaining);
      }
    }

    /**
      `appDidBecomeActive`: while running, the remaining time is recomputed from the stored end.
      When none is left the session completes; otherwise the countdown resumes from the new value.
     */
    method AppDidBecomeActive(now: int)
      requires Valid()
      modifies this, familyControls.store, sessionLog.defaults
      ensures Valid()
      ensures Prefs() == old(Prefs())
      ensures !old(isRunning) ==>
                timeRemaining == old(timeRemaining) && !isRunning && timerScheduled == old(timerScheduled)
                && currentSession == old(currentSession) && sessionEndTime == old(sessionEndTime)
                && familyControls.store.shield == old(familyControls.store.shield)
                && sessionLog.defaults.entries == old(sessionLog.defaults.entries)
      ensures old(isRunning) && Reconcile(old(sessionEndTime).value, now) > 0 ==>
                timeRemaining == Reconcile(old(sessionEndTime).value, now) && isRunning && timerScheduled
                && currentSession == old(currentSession) && sessionEndTime == old(sessionEndTime)
                && familyControls.store.shield == old(familyControls.store.shield)
                && sessionLog.defaults.entries == old(sessionLog.defaults.entries)
      ensures old(isRunning) && Reconcile(old(sessionEndTime).value, now) == 0 ==>
                var finished := Finalized(old(currentSession).value, now, Completed);
                !isRunning && !timerScheduled && sessionEndTime == None && timeRemaining == old(timeRemaining)
                && currentSession == Some(finished) && familyControls.store.shield == Cleared
                && sessionLog.Sessions() == old(sessionLog.Sessions()) + [finished]
                && sessionLog.defaults.entries == old(LoggedEntries(finished))
    {
      if isRunning && sessionEndTime.Some? {
        var endTime := sessionEndTime.value;
        var newTimeRemaining := Reconcile(endTime, now);
        if newTimeRemaining <= 0 {
          CompleteSession(now);
        } else {
          timeRemaining := newTimeRemaining;
          timerScheduled := true;
        }
      }
    }

    /** `setFocusDuration(minutes:)`: the next focus session lasts `minutes` minutes. */
    method SetFocusDuration(minutes: int)
      modifies this
      ensures focusDuration == minutes * 60
      ensures breakDuration == old(breakDuration) && timeRemaining == old(timeRemaining)
      ensures isRunning == old(isRunning) && currentSession == old(currentSession) && sessionEndTime == old(sessionEndTime)
      ensures timerScheduled == old(timerScheduled) && focusMode == old(focusMode) && activitySelection == old(activitySelection)
    {
      focusDuration := minutes * 60;
    }

    /** `setBreakDuration(minutes:)`: the next break lasts `minutes` minutes. */
    method SetBreakDuration(minutes: int)
      modifies this
      ensures breakDuration == minutes * 60
      ensures focusDuration == old(focusDuration) && timeRemaining == old(timeRemaining)
      ensures isRunning == old(isRunning) && currentSession == old(currentSession) && sessionEndTime == old(sessionEndTime)
      ensures timerScheduled == old(timerScheduled) && focusMode == old(focusMode) && activitySelection == old(activitySelection)
    {
      breakDuration := minutes * 60;
    }

    /**
      `updateActivitySelection`: the selection is stored here and in the manager, and the shield is
      recomputed from it only while a whitelist session runs.
     */
    method UpdateActivitySelection(selection: Selection)
      modifies this, familyControls, familyControls.store
      ensures activitySelection == Some(selection) && familyControls.GetSelection() == Some(selection)
      ensures familyControls.authorized == old(familyControls.authorized)
      ensures isRunning && focusMode == Whitelist ==>
                familyControls.store.shield
                == ShieldAfterBlockApps(old(familyControls.store.shield), familyControls.authorized, Whitelist, Some(selection))
      ensures !(isRunning && focusMode == Whitelist) ==> familyControls.store.shield == old(familyControls.store.shield)
      ensures isRunning == old(isRunning) && focusMode == old(focusMode) && currentSession == old(currentSession)
      ensures timeRemaining == old(timeRemaining) && sessionEndTime == old(sessionEndTime) && timerScheduled == old(timerScheduled)
      ensures focusDuration == old(focusDuration) && breakDuration == old(breakDuration)
    {
      activitySelection := Some(selection);
      familyControls.SetSelection(selection);
      if isRunning && focusMode == Whitelist {
        familyControls.BlockApps(focusMode, Some(selection));
      }
    }

    /** `applyCurrentModeBlocking`: while running and authorised, the current mode is applied again. */
    method ApplyCurrentModeBlocking()
      modifies familyControls.store
      ensures isRunning ==>
                familyControls.store.shield
                == ShieldAfterBlockApps(old(familyControls.store.shield), familyControls.authorized, focusMode, activitySelection)
      ensures !isRunning ==> familyControls.store.shield == old(familyControls.store.shield)
    {
      if isRunning {
        if familyControls.CheckAuthorization() {
          familyControls.BlockApps(focusMode, activitySelection);
        }
      }
    }
  }

  /**
    A round trip through the background: resigning and becoming active again at the same instant
    keeps the session running with the same remaining time, and writes nothing to the log.
   */
  method ResignAndResumeAtOnce(vm: TimerViewModel, now: int)
    requires vm.Valid() && vm.isRunning && vm.timeRemaining > 0
    modifies vm, vm.familyControls.store, vm.sessionLog.defaults
    ensures vm.Valid() && vm.isRunning && vm.timerScheduled
    ensures vm.timeRemaining == old(vm.timeRemaining) && vm.currentSession == old(vm.currentSession)
    ensures vm.sessionLog.Sessions() == old(vm.sessionLog.Sessions())
  {
    vm.AppWillResignActive(now);
    ReconcileAfterResign(now, vm.timeRemaining, 0);
    vm.AppDidBecomeActive(now);
  }

  /**
    A focus session stopped early is logged as failed and a break stopped early as completed; either
    way the log grows by one record that keeps the session's identity and start.
   */
  method StopLogsOneRecord(vm: TimerViewModel, now: int, id: nat, focus: bool)
    requires vm.Valid()
    modifies vm, vm.familyControls.store, vm.sessionLog.defaults
    ensures |vm.sessionLog.Sessions()| == |old(vm.sessionLog.Sessions())| + 1
    ensures var last := vm.sessionLog.Sessions()[|vm.sessionLog.Sessions()| - 1];
            last.id == id && last.startTime == now && last.endTime == Some(now)
            && (last.status == Failed <==> focus) && last.status != InProgress
  {
    if focus {
      vm.StartFocusSession(now, id);
    } else {
      vm.StartBreakSession(now, id);
    }
    vm.StopSession(now);
  }
}
