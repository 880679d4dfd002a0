/** The stats aggregator of app.js as functions of the stats record: what updateStreak and
    the counting part of recordSession leave in it. Dates are day numbers. */
module Aggregator {
  import opened Records

  function Max(a: int, b: int): int {
    if a < b then b else a
  }

  /** updateStreak on day `today`. */
  function Advance(s: Stats, today: int): Stats {
    var streak := match s.lastSessionDate
      case None => 1
      case Some(last) =>
        if today - last == 0 then s.streak else if today - last == 1 then s.streak + 1 else 1;
    s.(streak := streak, lastSessionDate := Some(today), longestStreak := Max(s.longestStreak, streak))
  }

  /** No earlier session, or a gap other than 0 or 1 days, starts the streak at 1; a gap of
      0 keeps it; a gap of 1 extends it. The date becomes today and the longest streak the
      larger of the old longest and the new streak; the counters are untouched. */
  lemma StreakRules(s: Stats, today: int)
    ensures var r := Advance(s, today);
      (s.lastSessionDate.None? ==> r.streak == 1) &&
      (s.lastSessionDate.Some? && today - s.lastSessionDate.value == 0 ==> r.streak == s.streak) &&
      (s.lastSessionDate.Some? && today - s.lastSessionDate.value == 1 ==> r.streak == s.streak + 1) &&
      (s.lastSessionDate.Some? && today - s.lastSessionDate.value !in {0, 1} ==> r.streak == 1) &&
      r.lastSessionDate == Some(today) &&
      r.longestStreak == Max(s.longestStreak, r.streak) &&
      r.totalMinutes == s.totalMinutes && r.sessions == s.sessions && r.tasksDone == s.tasksDone
  {
  }

  /** The part of recordSession that changes the stats record: one more session in every
      mode, and for a focus interval its minutes and the streak. */
  function SessionRecorded(s: Stats, mode: Mode, minutes: int, today: int): Stats {
    var counted := s.(sessions := s.sessions + 1);
    if mode == Focus then Advance(counted.(totalMinutes := counted.totalMinutes + minutes), today)
    else counted
  }

  lemma SessionCounts(s: Stats, mode: Mode, minutes: int, today: int)
    ensures var r := SessionRecorded(s, mode, minutes, today);
      r.sessions == s.sessions + 1 &&
      r.totalMinutes == s.totalMinutes + (if mode == Focus then minutes else 0) &&
      r.tasksDone == s.tasksDone &&
      (mode == Focus ==> r.lastSessionDate == Some(today) && r == Advance(r.(streak := s.streak,
        lastSessionDate := s.lastSessionDate, longestStreak := s.longestStreak), today)) &&
      (mode != Focus ==>
         r.streak == s.streak && r.longestStreak == s.longestStreak && r.lastSessionDate == s.lastSessionDate)
  {
  }

  /** The stats after focus sessions on the given days, in order. */
  function AdvanceAll(s: Stats, days: seq<int>): Stats
    decreases |days|
  {
    if days == [] then s else AdvanceAll(Advance(s, days[0]), days[1..])
  }

  /** Streak law: when every session falls on the same day as the one before it or on the
      next day, the streak grows by exactly the number of days spanned, the longest streak
      never falls, and it is at least the current streak. */
  lemma {:induction false} StreakRun(s: Stats, start: int, days: seq<int>)
    requires s.lastSessionDate == Some(start)
    requires days != [] ==> 0 <= days[0] - start <= 1
    requires forall i :: 0 < i < |days| ==> 0 <= days[i] - days[i - 1] <= 1
    ensures var r := AdvanceAll(s, days);
      r.streak == s.streak + (if days == [] then 0 else days[|days| - 1] - start) &&
      r.longestStreak >= s.longestStreak &&
      (days != [] ==> r.lastSessionDate == Some(days[|days| - 1]) && r.longestStreak >= r.streak)
    decreases |days|
  {
    if days != [] {
      var s' := Advance(s, days[0]);
      assert s'.streak == s.streak + (days[0] - start);
      var rest := days[1..];
      if rest != [] {
        assert rest[0] - days[0] == days[1] - days[0];
      }
      forall i | 0 < i < |rest| ensures 0 <= rest[i] - rest[i - 1] <= 1 {
        assert rest[i] == days[i + 1] && rest[i - 1] == days[i];
      }
      StreakRun(s', days[0], rest);
      if rest != [] {
        assert rest[|rest| - 1] == days[|days| - 1];
      }
    }
  }

  /** A gap of two days or more, or a date earlier than the last one, restarts the streak at 1. */
  lemma GapRestarts(s: Stats, today: int)
    requires s.lastSessionDate.Some?
    requires today - s.lastSessionDate.value >= 2 || today < s.lastSessionDate.value
    ensures Advance(s, today).streak == 1
  {
  }
}
