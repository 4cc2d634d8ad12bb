/** Daily login and interview streaks. A day is a UTC calendar date, numbered consecutively. */
module Streaks {
  import opened Wrappers
  import opened Identity

  type Day = int

  datatype Kind = Login | Interview

  datatype Streak = Streak(count: int, longest: int, last: Option<Day>)

  datatype Row = Row(login: Streak, interview: Streak)

  const NO_STREAK := Streak(0, 0, None)
  const NEW_ROW := Row(NO_STREAK, NO_STREAK)

  function Max(a: int, b: int): int { if a < b then b else a }

  function Advance(s: Streak, today: Day): Streak {
    if s.last == Some(today) then s
    else
      var count := if s.last.Some? && today - s.last.value == 1 then s.count + 1 else 1;
      Streak(count, Max(s.longest, count), Some(today))
  }

  function Record(row: Row, kind: Kind, today: Day): Row {
    match kind
    case Login => row.(login := Advance(row.login, today))
    case Interview => row.(interview := Advance(row.interview, today))
  }

  /** A check-in dated before the last one, or after a gap, starts over; the record stays. */
  lemma AnyOtherDayStartsOver(s: Streak, today: Day)
    requires s.last.Some? && today != s.last.value && today != s.last.value + 1
    ensures Advance(s, today) == Streak(1, if s.longest < 1 then 1 else s.longest, Some(today))
  {
  }

  // ---- What a streak is ------------------------------------------------------------------------

  /** The `k` days up to and including `end` all had a check-in. */
  ghost predicate IsRun(days: set<Day>, end: Day, k: nat) {
    forall d :: end - k < d <= end ==> d in days
  }

  /** ... and the day before them had none. */
  ghost predicate IsMaximalRun(days: set<Day>, end: Day, k: int) {
    && k >= 1 && IsRun(days, end, k) && end - k !in days
  }

  ghost predicate IsLongestRun(days: set<Day>, k: int) {
    && (exists end :: k >= 1 && IsRun(days, end, k))
    && (forall end, j: nat :: IsRun(days, end, j) ==> j <= k)
  }

  lemma RunHas(days: set<Day>, end: Day, k: nat, d: Day)
    requires IsRun(days, end, k) && end - k < d <= end
    ensures d in days
  {
  }

  lemma MaximalRunIsUnique(days: set<Day>, end: Day, j: int, k: int)
    requires IsMaximalRun(days, end, j) && IsMaximalRun(days, end, k)
    ensures j == k
  {
  }

  lemma LongestRunIsUnique(days: set<Day>, j: int, k: int)
    requires IsLongestRun(days, j) && IsLongestRun(days, k)
    ensures j == k
  {
    var e :| IsRun(days, e, j);
    var f :| IsRun(days, f, k);
  }

  // ---- The counter agrees with it --------------------------------------------------------------

  function Fold(days: seq<Day>): Streak {
    if days == [] then NO_STREAK else Advance(Fold(days[..|days| - 1]), days[|days| - 1])
  }

  ghost predicate Ascending(days: seq<Day>) { forall i, j :: 0 <= i <= j < |days| ==> days[i] <= days[j] }

  function Days(days: seq<Day>): set<Day> { set d | d in days }

  /** The counters after a history of check-ins. */
  ghost predicate Tracks(s: Streak, days: seq<Day>) {
    if days == [] then s == NO_STREAK
    else
      && s.last == Some(days[|days| - 1])
      && IsMaximalRun(Days(days), days[|days| - 1], s.count)
      && IsLongestRun(Days(days), s.longest)
  }

  lemma TracksNext(s: Streak, days: seq<Day>, today: Day)
    requires Tracks(s, days) && Ascending(days + [today])
    ensures Tracks(Advance(s, today), days + [today])
  {
    var before, after := Days(days), Days(days + [today]);
    var t := Advance(s, today);
    assert after == before + {today};
    if days == [] {
      assert after == {today};
      assert IsRun(after, today, 1);
      forall end, j: nat | IsRun(after, end, j) ensures j <= 1 {
        if j >= 2 {
          RunHas(after, end, j, end);
          RunHas(after, end, j, end - 1);
        }
      }
    } else {
      var last := days[|days| - 1];
      assert last == (days + [today])[|days| - 1] && today == (days + [today])[|days|];
      assert forall d :: d in before ==> d <= last by {
        forall d | d in before ensures d <= last {
          var i :| 0 <= i < |days| && days[i] == d;
          assert (days + [today])[i] == d;
        }
      }
      if today == last {
        assert after == before;
      } else {
        TracksNewDay(s, before, last, today);
      }
    }
  }

  lemma TracksNewDay(s: Streak, before: set<Day>, last: Day, today: Day)
    requires s.last == Some(last) && last < today
    requires last in before && forall d :: d in before ==> d <= last
    requires IsMaximalRun(before, last, s.count) && IsLongestRun(before, s.longest)
    ensures IsMaximalRun(before + {today}, today, Advance(s, today).count)
    ensures IsLongestRun(before + {today}, Advance(s, today).longest)
  {
    var after, t := before + {today}, Advance(s, today);
    assert IsMaximalRun(after, today, t.count);
    forall end, j: nat | IsRun(after, end, j) ensures j <= t.longest {
      if j >= 1 && end == today {
        if j > t.count {
          RunHas(after, today, j, today - t.count);
        }
      } else if j >= 1 {
        assert end in after;
        assert IsRun(before, end, j);
      }
    }
    if t.longest == t.count {
      assert IsRun(after, today, t.longest);
    } else {
      var end :| s.longest >= 1 && IsRun(before, end, s.longest);
      assert IsRun(after, end, t.longest);
    }
  }

  /**
   After check-ins on non-decreasing days the counter is the length of the run of consecutive days
   that ends at the last one, and `longest` is the length of the longest run there is.
   */
  lemma {:induction false} StreakIsRunLength(days: seq<Day>)
    requires Ascending(days)
    ensures Tracks(Fold(days), days)
  {
    if days != [] {
      var most := days[..|days| - 1];
      StreakIsRunLength(most);
      assert days == most + [days[|days| - 1]];
      TracksNext(Fold(most), most, days[|days| - 1]);
    }
  }

  // ---- The two counters of a row ----------------------------------------------------------------

  datatype CheckIn = CheckIn(kind: Kind, day: Day)

  function RowAfter(history: seq<CheckIn>): Row {
    if history == [] then NEW_ROW
    else Record(RowAfter(history[..|history| - 1]), history[|history| - 1].kind, history[|history| - 1].day)
  }

  function DaysOf(history: seq<CheckIn>, kind: Kind): seq<Day> {
    if history == [] then [] else
    var rest := DaysOf(history[..|history| - 1], kind);
    if history[|history| - 1].kind == kind then rest + [history[|history| - 1].day] else rest
  }

  /** Logins never touch the interview streak and interviews never touch the login streak. */
  lemma {:induction false} CountersAreIndependent(history: seq<CheckIn>)
    ensures RowAfter(history) == Row(Fold(DaysOf(history, Login)), Fold(DaysOf(history, Interview)))
  {
    if history != [] {
      var most, last := history[..|history| - 1], history[|history| - 1];
      CountersAreIndependent(most);
      assert (DaysOf(most, last.kind) + [last.day])[..|DaysOf(most, last.kind)|] == DaysOf(most, last.kind);
    }
  }

  // ---- The table -------------------------------------------------------------------------------

  class UserStreak {
    var loginStreak: int
    var longestLoginStreak: int
    var loginStreakLastDate: Option<Day>
    var interviewStreak: int
    var longestInterviewStreak: int
    var interviewStreakLastDate: Option<Day>

    function View(): Row
      reads this
    {
      Row(Streak(loginStreak, longestLoginStreak, loginStreakLastDate),
          Streak(interviewStreak, longestInterviewStreak, interviewStreakLastDate))
    }

    constructor ()
      ensures View() == NEW_ROW
    {
      loginStreak, longestLoginStreak, loginStreakLastDate := 0, 0, None;
      interviewStreak, longestInterviewStreak, interviewStreakLastDate := 0, 0, None;
    }
  }

  class StreakTable {
    var rows: map<UserId, UserStreak>

    /** Every user has a row of their own. */
    ghost predicate Valid()
      reads this
    {
      forall u, v :: u in rows && v in rows && rows[u] == rows[v] ==> u == v
    }

    /** The counters of a user; a user without a row has none. */
    function RowOf(user: UserId): Row
      reads this, rows.Values
    {
      if user in rows then rows[user].View() else NEW_ROW
    }

    constructor ()
      ensures Valid() && rows == map[]
    {
      rows := map[];
    }

    method RecordCheckin(user: UserId, kind: Kind, today: Day) returns (row: UserStreak)
      requires Valid()
      modifies this, rows.Values
      ensures Valid() && user in rows && row == rows[user] && rows.Keys == old(rows.Keys) + {user}
      ensures fresh(rows.Values - old(rows.Values))
      ensures RowOf(user) == Record(old(RowOf(user)), kind, today)
      ensures forall v :: v != user ==> RowOf(v) == old(RowOf(v))
    {
      if user in rows {
        row := rows[user];
      } else {
        row := new UserStreak();
        rows := rows[user := row];
      }
      match kind {
        case Login =>
          var s := Advance(Streak(row.loginStreak, row.longestLoginStreak, row.loginStreakLastDate), today);
          row.loginStreak, row.longestLoginStreak, row.loginStreakLastDate := s.count, s.longest, s.last;
        case Interview =>
          var s := Advance(Streak(row.interviewStreak, row.longestInterviewStreak, row.interviewStreakLastDate), today);
          row.interviewStreak, row.longestInterviewStreak, row.interviewStreakLastDate := s.count, s.longest, s.last;
      }
    }
  }
}
