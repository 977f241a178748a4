/**
  The record types of the newer core (Core/FocusSession.swift): a focus session as the persistence
  service stores it, the blocking mode it ran under, and the user's timer settings.
 */
module FocusSessions {
  import opened Optional

  datatype FocusSessionType = Focus | ShortBreak | LongBreak

  datatype FocusSessionStatus = Running | Paused | Stopped | Completed | Failed

  datatype AppBlockingMode = Strict | Whitelist | Relax

  /** The full memberwise initialiser is the datatype constructor. */
  datatype FocusSession = FocusSession(
    id: nat,
    kind: FocusSessionType,
    startTime: int,
    endTime: Option<int>,
    status: FocusSessionStatus,
    blockingMode: AppBlockingMode)

  /**
    The initialiser with its defaulted arguments left out: no end time, running, strict blocking.
    The new UUID and the current time are passed in.
   */
  function NewFocusSession(id: nat, kind: FocusSessionType, now: int): (s: FocusSession)
    ensures s.id == id && s.kind == kind && s.startTime == now
    ensures s.endTime.None? && s.status == Running && s.blockingMode == Strict
  {
    FocusSession(id, kind, now, None, Running, Strict)
  }

  /** The computed `duration`: zero while the session has no end time, else the span from start to end. */
  function Duration(s: FocusSession): (d: int)
    ensures s.endTime.None? ==> d == 0
    ensures s.endTime.Some? ==> s.startTime + d == s.endTime.value
  {
    match s.endTime
    case None => 0
    case Some(end) => end - s.startTime
  }

  /** A session that has just been created has run for no time at all. */
  lemma NewFocusSessionDuration(id: nat, kind: FocusSessionType, now: int)
    ensures Duration(NewFocusSession(id, kind, now)) == 0
  {
  }

  datatype UserSettings = UserSettings(
    focusDuration: int,
    shortBreakDuration: int,
    longBreakDuration: int,
    blockingMode: AppBlockingMode,
    numberOfShortBreaks: int)

  /** `UserSettings.default`: 25, 5 and 15 minutes, strict blocking, four short breaks. */
  function DefaultSettings(): (s: UserSettings)
    ensures s.focusDuration == 1500 && s.shortBreakDuration == 300 && s.longBreakDuration == 900
    ensures s.blockingMode == Strict && s.numberOfShortBreaks == 4
    ensures 0 < s.shortBreakDuration < s.longBreakDuration < s.focusDuration
  {
    UserSettings(25 * 60, 5 * 60, 15 * 60, Strict, 4)
  }
}
