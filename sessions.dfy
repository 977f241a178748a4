/**
  The session record of the older timer (Models/Session.swift): what a focus or break session was,
  when it started, and how it ended. Times are whole seconds since an epoch; `id` stands for the UUID.
 */
module Sessions {
  import opened Optional

  datatype SessionType = Focus | ShortBreak | LongBreak

  datatype SessionStatus = InProgress | Completed | Failed

  datatype Session = Session(
    id: nat,
    kind: SessionType,
    duration: int,
    startTime: int,
    endTime: Option<int>,
    status: SessionStatus)

  /** A record is in progress exactly when it has no end time yet. */
  predicate WellFormed(s: Session)
  {
    s.endTime.None? <==> s.status == InProgress
  }

  /**
    `init(type:duration:)`: a fresh record that has just started. The new UUID and the current
    time are passed in.
   */
  function NewSession(id: nat, kind: SessionType, duration: int, now: int): (s: Session)
    ensures s.id == id && s.kind == kind && s.duration == duration && s.startTime == now
    ensures s.status == InProgress && s.endTime.None?
    ensures WellFormed(s)
  {
    Session(id, kind, duration, now, None, InProgress)
  }

  /**
    The record the timer writes when a session ends: the full initialiser called with every field
    of `s` except the end time, which becomes `end`, and the status, which becomes `status`.
   */
  function Finalized(s: Session, end: int, status: SessionStatus): (r: Session)
    ensures r.id == s.id && r.kind == s.kind && r.duration == s.duration && r.startTime == s.startTime
    ensures r.endTime == Some(end) && r.status == status
    ensures status != InProgress ==> WellFormed(r)
  {
    Session(s.id, s.kind, s.duration, s.startTime, Some(end), status)
  }

  /**
    The computed `remainingTime`: the planned duration while the record has no end time, and the
    span from start to end once it has one.
   */
  function RemainingTime(s: Session): (r: int)
    ensures s.endTime.None? ==> r == s.duration
    ensures s.endTime.Some? ==> s.startTime + r == s.endTime.value
  {
    match s.endTime
    case None => s.duration
    case Some(end) => end - s.startTime
  }

  /**
    Once the timer has finalised a record at `end`, `remainingTime` is the time the session actually
    ran, whatever its planned duration was; before that it is the planned duration.
   */
  lemma RemainingTimeOfFinalized(id: nat, kind: SessionType, duration: int, start: int, end: int, status: SessionStatus)
    ensures RemainingTime(NewSession(id, kind, duration, start)) == duration
    ensures RemainingTime(Finalized(NewSession(id, kind, duration, start), end, status)) == end - start
  {
  }
}
