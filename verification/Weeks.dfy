/**
 ISO weeks: they start on Mondays, and the first one of a year holds the 4th of January.
 */
module Weeks {
  import opened Calendar

  // The Monday of a moment's week; day 0 is a Monday.
  function MondayOf(ts: int): (day: int)
    ensures day <= DayOf(ts) < day + 7 && day % 7 == 0
  {
    DayOf(ts) / 7 * 7
  }

  // Two moments are in one ISO week exactly when their Mondays agree.
  lemma {:induction false} SameWeekIffMonday(a: int, b: int)
    ensures IsoWeek(a) == IsoWeek(b) <==> MondayOf(a) == MondayOf(b)
  {
    hide DaysBeforeYear, YearOfDay, YearLength;
    var s, t := ThursdayOf(DayOf(a)), ThursdayOf(DayOf(b));
    assert s == MondayOf(a) + 3 && t == MondayOf(b) + 3;
    if IsoWeek(a) == IsoWeek(b) {
      SameSeventh(s, t, DaysBeforeYear(YearOfDay(s)));
    }
  }

  lemma {:induction false} SameSeventh(s: int, t: int, d: int)
    requires s % 7 == t % 7 && (s - d) / 7 == (t - d) / 7
    ensures s == t
  {
  }

  // The 4th of January is in week 1.
  lemma {:induction false} FirstWeek(y: int)
    ensures IsoWeek(DayNumber(y, 1, 4) * DAY) == (y, 1)
  {
    hide DaysBeforeYear, YearOfDay, Leap, YearLength;
    CarriedMonth(y, 0, 1, 4);
    YearInMonths(y);
    var day := DaysBeforeYear(y) + 3;
    assert DayOf(day * DAY) == day && day - 3 <= ThursdayOf(day) <= day + 3;
    LongYear(y);
    YearIsDetermined(ThursdayOf(day), y);
  }

  lemma {:induction false} LongYear(y: int)
    ensures 365 <= YearLength(y) <= 366
  {
  }

  // Two moments less than 350 days apart are in one ISO week when the week numbers agree.
  lemma {:induction false} SameNumberSameWeek(a: int, b: int)
    requires DayOf(a) <= DayOf(b) < DayOf(a) + 350 && IsoWeek(a).1 == IsoWeek(b).1
    ensures IsoWeek(a) == IsoWeek(b)
  {
    hide DaysBeforeYear, YearOfDay;
    var s, t := ThursdayOf(DayOf(a)), ThursdayOf(DayOf(b));
    var y, z := YearOfDay(s), YearOfDay(t);
    assert s <= t < s + 357;
    if y < z {
      YearsAscend(y, z);
    } else if z < y {
      YearsAscend(z, y);
    }
  }

  // The week after a week is the next number, or week 1 after week 52 or 53.
  lemma {:induction false} NextWeek(ts: int)
    ensures var w, v := IsoWeek(ts), IsoWeek(ts + 7 * DAY);
            v == (w.0, w.1 + 1) || (v == (w.0 + 1, 1) && 52 <= w.1)
  {
    hide DaysBeforeYear, YearOfDay, Leap;
    assert DayOf(ts + 7 * DAY) == DayOf(ts) + 7;
    var s := ThursdayOf(DayOf(ts));
    var y := YearOfDay(s);
    assert ThursdayOf(DayOf(ts) + 7) == s + 7;
    if s + 7 < DaysBeforeYear(y) + YearLength(y) {
      YearIsDetermined(s + 7, y);
    } else {
      NextYear(y);
      YearIsDetermined(s + 7, y + 1);
    }
  }

  // The number of the last ISO week of a year, which holds the 28th of December.
  function WeeksIn(y: int): int {
    IsoWeek(DayNumber(y, 12, 28) * DAY).1
  }

  // The first Thursdays of neighbouring years are that many weeks apart.
  function FirstThursday(y: int): (day: int)
    ensures DaysBeforeYear(y) <= day < DaysBeforeYear(y) + 7 && day % 7 == 3
  {
    hide DaysBeforeYear;
    (DaysBeforeYear(y) + 3) / 7 * 7 + 3
  }

  lemma {:induction false} WeekOfThursday(th: int, y: int)
    requires th % 7 == 3 && DaysBeforeYear(y) <= th
    ensures (th - DaysBeforeYear(y)) / 7 == (th - FirstThursday(y)) / 7
  {
    hide DaysBeforeYear;
  }

  lemma {:induction false} LateDecember(y: int)
    ensures DayNumber(y, 12, 28) == DaysBeforeYear(y + 1) - 4
  {
    hide DaysBeforeYear, YearLength;
    CarriedMonth(y, 0, 12, 28);
    DecemberStarts(y);
    NextYear(y);
  }

  lemma {:induction false} DecemberStarts(y: int)
    ensures DaysBeforeMonth(Leap(y), 12) == YearLength(y) - 31
  {
  }

  lemma {:induction false} WeeksInYear(y: int)
    ensures FirstThursday(y + 1) == FirstThursday(y) + 7 * WeeksIn(y)
    ensures 52 <= WeeksIn(y) <= 53
  {
    hide DaysBeforeYear, YearOfDay, Leap, YearLength, DayNumber;
    LateDecember(y);
    NextYear(y);
    LongYear(y);
    var day := DaysBeforeYear(y + 1) - 4;
    assert DayOf(day * DAY) == day;
    var th := ThursdayOf(day);
    assert th == FirstThursday(y + 1) - 7;
    YearIsDetermined(th, y);
    WeekOfThursday(th, y);
  }

  // The weeks between two moments, by their Mondays.
  function WeeksBetween(a: int, b: int): int {
    (MondayOf(b) - MondayOf(a)) / 7
  }

  // Less than 350 days apart, the numbers differ by the weeks between, less those of the year that
  // has ended.
  lemma {:induction false} WeekDifference(a: int, b: int)
    requires DayOf(a) <= DayOf(b) < DayOf(a) + 350
    ensures var v, w := IsoWeek(a), IsoWeek(b);
            || (w.0 == v.0 && w.1 == v.1 + WeeksBetween(a, b))
            || (w.0 == v.0 + 1 && w.1 == v.1 + WeeksBetween(a, b) - WeeksIn(v.0))
  {
    hide DaysBeforeYear, YearLength, FirstThursday, WeeksIn, Leap, IsoWeek, MondayOf;
    IsoParts(a);
    IsoParts(b);
    NeighbourYears(MondayOf(a) + 3, MondayOf(b) + 3, IsoWeek(a).0, IsoWeek(b).0);
    WeeksInYear(IsoWeek(a).0);
  }

  // Week numbers count from the first Thursday of the week's year.
  lemma {:induction false} IsoParts(ts: int)
    ensures var th, w := MondayOf(ts) + 3, IsoWeek(ts);
            && DaysBeforeYear(w.0) <= th < DaysBeforeYear(w.0) + YearLength(w.0)
            && th == FirstThursday(w.0) + 7 * (w.1 - 1)
  {
    hide DaysBeforeYear, YearOfDay, YearLength, FirstThursday;
    var th := ThursdayOf(DayOf(ts));
    assert th == MondayOf(ts) + 3;
    WeekOfThursday(th, YearOfDay(th));
  }

  lemma {:induction false} NeighbourYears(s: int, t: int, y: int, z: int)
    requires s <= t < s + 357
    requires DaysBeforeYear(y) <= s < DaysBeforeYear(y) + YearLength(y)
    requires DaysBeforeYear(z) <= t < DaysBeforeYear(z) + YearLength(z)
    ensures z == y || z == y + 1
  {
    hide DaysBeforeYear, Leap;
    if z < y {
      YearsAscend(z, y);
    } else if y + 1 < z {
      NextYear(y);
      LongYear(y + 1);
      YearsAscend(y + 1, z);
    }
  }
}
