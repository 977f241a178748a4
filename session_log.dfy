/**
  The session log of the older timer (Managers/FocusSessionManager.swift): a list of session records
  kept under one key of the preference store, appended to by read-append-write, and queried by day
  and by how recently a session started.
 */
module SessionLog {
  import opened Optional
  import opened Lists
  import opened Sessions
  import opened KeyValueStore

  /** Length of a calendar day in seconds; the model's calendar has fixed-length days. */
  const Day: int := 86400

  /** `calendar.startOfDay(for:)`. */
  function StartOfDay(t: int): (r: int)
    ensures r <= t < r + Day
    ensures r % Day == 0
  {
    (t / Day) * Day
  }

  /** `calendar.isDate(_:inSameDayAs:)`. */
  predicate SameDay(a: int, b: int)
  {
    StartOfDay(a) == StartOfDay(b)
  }

  /** The session filters used by the queries, each built once so that every use is the same term. */
  function StartedOnDay(date: int): Session -> bool
  {
    (s: Session) => SameDay(s.startTime, date)
  }

  function StartedSince(cutoff: int): Session -> bool
  {
    (s: Session) => s.startTime >= cutoff
  }

  function StartedWithin(lo: int, hi: int): Session -> bool
  {
    (s: Session) => lo <= s.startTime < hi
  }

  predicate IsCompleted(s: Session) { s.status == Completed }

  predicate IsFailed(s: Session) { s.status == Failed }

  predicate IsInProgress(s: Session) { s.status == InProgress }

  /** Counts over the sessions that started at or after a cutoff. */
  datatype Stats = Stats(totalSessions: nat, completedSessions: nat, failedSessions: nat)

  /**
    The body shared by `getWeeklyStats` and `getMonthlyStats`: the sessions that started at or after
    `cutoff`, and how many of those completed and failed. Completed and failed sessions are among the
    counted ones and never overlap.
   */
  function StatsSince(sessions: seq<Session>, cutoff: int): (r: Stats)
    ensures r.totalSessions == |Filter(sessions, StartedSince(cutoff))| <= |sessions|
    ensures r.completedSessions == |Filter(Filter(sessions, StartedSince(cutoff)), IsCompleted)|
    ensures r.failedSessions == |Filter(Filter(sessions, StartedSince(cutoff)), IsFailed)|
    ensures r.completedSessions + r.failedSessions <= r.totalSessions
  {
    var recent := Filter(sessions, StartedSince(cutoff));
    FilterDisjoint(recent, IsCompleted, IsFailed);
    Stats(|recent|, |Filter(recent, IsCompleted)|, |Filter(recent, IsFailed)|)
  }

  /** Whatever is not completed or failed among the counted sessions is still in progress. */
  lemma StatsBreakdown(sessions: seq<Session>, cutoff: int)
    ensures var st := StatsSince(sessions, cutoff);
      st.totalSessions
        == st.completedSessions + st.failedSessions
           + |Filter(Filter(sessions, StartedSince(cutoff)), IsInProgress)|
  {
    FilterPartition3(Filter(sessions, StartedSince(cutoff)), IsCompleted, IsFailed, IsInProgress);
  }

  /** The start of the window `dayOffset` days back from `now`. */
  function DayStartBack(now: int, dayOffset: int): int
  {
    StartOfDay(now - dayOffset * Day)
  }

  /** Going back one more day moves the day start back by one day. */
  lemma DayStartBackNext(now: int, k: int)
    ensures DayStartBack(now, k + 1) == DayStartBack(now, k) - Day
  {
    DayStartBackShift(now, k);
    DayStartBackShift(now, k + 1);
  }

  /** Going back `k` whole days from `now` lands exactly `k` day starts earlier. */
  lemma DayStartBackShift(now: int, k: int)
    ensures DayStartBack(now, k) == StartOfDay(now) - k * Day
  {
    assert (now - k * Day) / Day == now / Day - k;
  }

  /** How many sessions started in `[lo, hi)`. */
  function CountWithin(sessions: seq<Session>, lo: int, hi: int): nat
  {
    |Filter(sessions, StartedWithin(lo, hi))|
  }

  /**
    The sum of the per-day counts over `n` consecutive day windows going back in time, the first of
    which starts at `lo`: `[lo, lo + Day)`, then `[lo - Day, lo)`, and so on.
   */
  function WindowTotal(sessions: seq<Session>, lo: int, n: nat): nat
    decreases n
  {
    if n == 0 then 0 else CountWithin(sessions, lo, lo + Day) + WindowTotal(sessions, lo - Day, n - 1)
  }

  /** The number of those `n` day windows that contain the instant `t`. */
  function WindowsContaining(t: int, lo: int, n: nat): nat
    decreases n
  {
    if n == 0 then 0 else (if lo <= t < lo + Day then 1 else 0) + WindowsContaining(t, lo - Day, n - 1)
  }

  /** Every one of the windows ends by `lo + Day`, so an instant they contain comes before it. */
  lemma {:induction false} WindowsContainingUpper(t: int, lo: int, n: nat)
    requires WindowsContaining(t, lo, n) > 0
    ensures t < lo + Day
    decreases n
  {
    if !(lo <= t < lo + Day) {
      WindowsContainingUpper(t, lo - Day, n - 1);
    }
  }

  /** The day windows are disjoint, so an instant falls in at most one of them. */
  lemma {:induction false} WindowsContainingAtMostOne(t: int, lo: int, n: nat)
    ensures WindowsContaining(t, lo, n) <= 1
    decreases n
  {
    if n > 0 {
      WindowsContainingAtMostOne(t, lo - Day, n - 1);
      if lo <= t < lo + Day && WindowsContaining(t, lo - Day, n - 1) > 0 {
        WindowsContainingUpper(t, lo - Day, n - 1);
        assert false;
      }
    }
  }

  lemma CountWithinCons(x: Session, rest: seq<Session>, lo: int, hi: int)
    ensures CountWithin([x] + rest, lo, hi) == (if lo <= x.startTime < hi then 1 else 0) + CountWithin(rest, lo, hi)
  {
    FilterCons(x, rest, StartedWithin(lo, hi));
  }

  /** Peeling the first session off the list splits the window total accordingly. */
  lemma {:induction false} WindowTotalCons(sessions: seq<Session>, lo: int, n: nat)
    requires sessions != []
    ensures WindowTotal(sessions, lo, n)
         == WindowsContaining(sessions[0].startTime, lo, n) + WindowTotal(sessions[1..], lo, n)
    decreases n
  {
    if n > 0 {
      WindowTotalCons(sessions, lo - Day, n - 1);
      assert sessions == [sessions[0]] + sessions[1..];
      CountWithinCons(sessions[0], sessions[1..], lo, lo + Day);
    }
  }

  lemma {:induction false} WindowTotalEmpty(lo: int, n: nat)
    ensures WindowTotal([], lo, n) == 0
    decreases n
  {
    if n > 0 {
      WindowTotalEmpty(lo - Day, n - 1);
    }
  }

  /** Because the windows are disjoint, the per-day counts add up to at most the number of sessions. */
  lemma {:induction false} WindowTotalBound(sessions: seq<Session>, lo: int, n: nat)
    ensures WindowTotal(sessions, lo, n) <= |sessions|
  {
    if sessions == [] {
      WindowTotalEmpty(lo, n);
    } else {
      WindowTotalCons(sessions, lo, n);
      WindowsContainingAtMostOne(sessions[0].startTime, lo, n);
      WindowTotalBound(sessions[1..], lo, n);
    }
  }

  /** The entry for the day `i` days back from `now`: its start and how many sessions started in it. */
  function DayEntry(sessions: seq<Session>, now: int, i: int): (r: (int, nat))
    ensures r.0 == StartOfDay(now) - i * Day && r.0 % Day == 0
    ensures r.1 == |Filter(sessions, StartedWithin(r.0, r.0 + Day))| <= |sessions|
  {
    DayStartBackShift(now, i);
    var lo := DayStartBack(now, i);
    (lo, CountWithin(sessions, lo, lo + Day))
  }

  /** One step of the per-day loop keeps its invariant. */
  lemma DayStep(sessions: seq<Session>, now: int, today: int, lo: int, k: nat, days: nat, done: seq<(int, nat)>)
    requires k < days && |done| == k && lo == DayStartBack(now, k)
    requires forall i :: 0 <= i < k ==> done[i] == DayEntry(sessions, now, i)
    requires SumOfCounts(done) + WindowTotal(sessions, lo, days - k) == WindowTotal(sessions, today, days)
    ensures lo - Day == DayStartBack(now, k + 1)
    ensures forall i :: 0 <= i < k + 1 ==> (done + [DayEntry(sessions, now, k)])[i] == DayEntry(sessions, now, i)
    ensures SumOfCounts(done + [DayEntry(sessions, now, k)]) + WindowTotal(sessions, lo - Day, days - (k + 1))
         == WindowTotal(sessions, today, days)
  {
    DayStartBackNext(now, k);
    AppendDay(done, lo, DayEntry(sessions, now, k).1);
  }

  /** The sum of the counts in a `getSessionCountByDay` result. */
  function SumOfCounts(days: seq<(int, nat)>): nat
  {
    if days == [] then 0 else SumOfCounts(days[..|days| - 1]) + days[|days| - 1].1
  }

  lemma AppendDay(days: seq<(int, nat)>, dayStart: int, count: nat)
    ensures SumOfCounts(days + [(dayStart, count)]) == SumOfCounts(days) + count
  {
    assert (days + [(dayStart, count)])[..|days|] == days;
  }

  class FocusSessionManager {
    const defaults: UserDefaults
    const sessionsKey: string := "focusSessions"

    constructor (defaults: UserDefaults)
      ensures this.defaults == defaults
    {
      this.defaults := defaults;
    }

    /** The `sessions` getter: the decoded list, or the empty list when the key is absent or undecodable. */
    function Sessions(): (r: seq<Session>)
      reads defaults
      ensures sessionsKey !in defaults.entries ==> r == []
      ensures sessionsKey in defaults.entries && !defaults.entries[sessionsKey].SessionList? ==> r == []
      ensures sessionsKey in defaults.entries && defaults.entries[sessionsKey].SessionList?
              ==> r == defaults.entries[sessionsKey].sessions
    {
      match defaults.DataFor(sessionsKey)
      case None => []
      case Some(d) => DecodeSessions(d).GetOr([])
    }

    /** The `sessions` setter: stores the encoded list under the key and touches no other key. */
    method SetSessions(newValue: seq<Session>)
      modifies defaults
      ensures defaults.entries == old(defaults.entries)[sessionsKey := SessionList(newValue)]
      ensures Sessions() == newValue
    {
      defaults.Set(SessionList(newValue), sessionsKey);
    }

    /**
      `addSession`: read, append, write. The list is the old one with `session` at the end, and the
      sessions of every day gain `session` at the end exactly when it started on that day.
     */
    method AddSession(session: Session)
      modifies defaults
      ensures defaults.entries == old(defaults.entries)[sessionsKey := SessionList(old(Sessions()) + [session])]
      ensures Sessions() == old(Sessions()) + [session]
      ensures forall date :: GetSessions(date)
                == old(GetSessions(date)) + (if SameDay(session.startTime, date) then [session] else [])
    {
      var currentSessions := Sessions();
      currentSessions := currentSessions + [session];
      SetSessions(currentSessions);
      forall date
        ensures GetSessions(date)
                == old(GetSessions(date)) + (if SameDay(session.startTime, date) then [session] else [])
      {
        FilterAppend(old(Sessions()), [session], StartedOnDay(date));
      }
    }

    /** `getSessions(for:)`: exactly the stored sessions that started on the day of `date`, in stored order. */
    function GetSessions(date: int): (r: seq<Session>)
      reads defaults
      ensures r == Filter(Sessions(), StartedOnDay(date))
      ensures forall s :: s in r <==> s in Sessions() && SameDay(s.startTime, date)
      ensures |r| <= |Sessions()|
    {
      FilterMembers(Sessions(), StartedOnDay(date));
      Filter(Sessions(), StartedOnDay(date))
    }

    /** `getWeeklyStats`: counts over the sessions that started at most seven days before `now`. */
    function GetWeeklyStats(now: int): (r: Stats)
      reads defaults
      ensures r == StatsSince(Sessions(), now - 7 * Day)
      ensures r.totalSessions == |Filter(Sessions(), StartedSince(now - 7 * Day))|
      ensures r.completedSessions == |Filter(Filter(Sessions(), StartedSince(now - 7 * Day)), IsCompleted)|
      ensures r.failedSessions == |Filter(Filter(Sessions(), StartedSince(now - 7 * Day)), IsFailed)|
      ensures r.completedSessions + r.failedSessions <= r.totalSessions <= |Sessions()|
    {
      StatsSince(Sessions(), now - 7 * Day)
    }

    /**
      `getMonthlyStats`: counts over the sessions that started at or after `monthAgo`, the calendar's
      date one month before now (passed in, since month lengths vary).
     */
    function GetMonthlyStats(monthAgo: int): (r: Stats)
      reads defaults
      ensures r == StatsSince(Sessions(), monthAgo)
      ensures r.totalSessions == |Filter(Sessions(), StartedSince(monthAgo))|
      ensures r.completedSessions == |Filter(Filter(Sessions(), StartedSince(monthAgo)), IsCompleted)|
      ensures r.failedSessions == |Filter(Filter(Sessions(), StartedSince(monthAgo)), IsFailed)|
      ensures r.completedSessions + r.failedSessions <= r.totalSessions <= |Sessions()|
    {
      StatsSince(Sessions(), monthAgo)
    }

    /**
      `getSessionCountByDay(forPastDays:)`: one entry per day offset, today first; each entry is the
      start of that day and the number of sessions that started within it. The days do not overlap,
      so the counts add up to at most the number of stored sessions.
     */
    method GetSessionCountByDay(days: nat, now: int) returns (result: seq<(int, nat)>)
      ensures |result| == days
      ensures forall i :: 0 <= i < days ==> result[i] == DayEntry(Sessions(), now, i)
      ensures SumOfCounts(result) <= |Sessions()|
    {
      ghost var stored := Sessions();
      ghost var today := StartOfDay(now);
      ghost var lo := today;
      result := [];
      for dayOffset := 0 to days
        invariant |result| == dayOffset
        invariant lo == DayStartBack(now, dayOffset)
        invariant forall i :: 0 <= i < dayOffset ==> result[i] == DayEntry(stored, now, i)
        invariant SumOfCounts(result) + WindowTotal(stored, lo, days - dayOffset) == WindowTotal(stored, today, days)
      {
        var date := now - dayOffset * Day;
        var dayStart := StartOfDay(date);
        var dayEnd := dayStart + Day;
        var daySessions := Filter(Sessions(), StartedWithin(dayStart, dayEnd));
        assert (dayStart, |daySessions|) == DayEntry(stored, now, dayOffset);
        DayStep(stored, now, today, lo, dayOffset, days, result);
        result := result + [(dayStart, |daySessions|)];
        lo := lo - Day;
      }
      WindowTotalBound(stored, today, days);
    }
  }
}
