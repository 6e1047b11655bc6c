/**
 Queried periods: a month, a half-year, a quarter or a year, with the inclusive range of moments
 the query reads.
 */
module Periods {
  import opened Calendar

  datatype PeriodMode = Monthly | Halfyear | Quarterly | Yearly

  // Years and segments may be any numbers; months past the year carry over.
  datatype Period = Period(mode: PeriodMode, year: int, segment: int) {
    function StartMonth(): int {
      match mode
      case Monthly => segment
      case Halfyear => (segment - 1) * 6 + 1
      case Quarterly => (segment - 1) * 3 + 1
      case Yearly => 1
    }

    function Months(): int {
      match mode
      case Monthly => 1
      case Halfyear => 6
      case Quarterly => 3
      case Yearly => 12
    }

    function Start(): int {
      DayNumber(year, StartMonth(), 1) * DAY
    }

    // The first moment after the period.
    function Stop(): int {
      DayNumber(year, StartMonth() + Months(), 1) * DAY
    }

    // The last moment the query reads: for a year its last slot, else the stop itself.
    function End(): int {
      if mode == Yearly then DayNumber(year, 12, 31) * DAY + 23 * 60 + 45 else Stop()
    }

    predicate Includes(ts: int) {
      Start() <= ts < Stop()
    }

    predicate InRange(ts: int) {
      Start() <= ts <= End()
    }

    // The year and month the period starts in, and the month it stops at, 13 for the next January.
    function FirstYear(): int {
      year + match mode
             case Monthly => (segment - 1) / 12
             case Halfyear => (segment - 1) / 2
             case Quarterly => (segment - 1) / 4
             case Yearly => 0
    }

    function FirstMonth(): (m: int)
      ensures 1 <= m && m + Months() <= 13
    {
      match mode
      case Monthly => (segment - 1) % 12 + 1
      case Halfyear => (segment - 1) % 2 * 6 + 1
      case Quarterly => (segment - 1) % 4 * 3 + 1
      case Yearly => 1
    }

    function StopMonth(): int {
      FirstMonth() + Months()
    }
  }

  lemma {:induction false} MonthsCarry(p: Period)
    ensures p.StartMonth() - 1 == 12 * (p.FirstYear() - p.year) + p.FirstMonth() - 1
  {
  }

  lemma {:induction false} PeriodDays(p: Period)
    ensures var leap := Leap(p.FirstYear());
            && p.Start() == (DaysBeforeYear(p.FirstYear()) + DaysBeforeMonth(leap, p.FirstMonth())) * DAY
            && p.Stop() == (DaysBeforeYear(p.FirstYear()) + DaysBeforeMonth(leap, p.StopMonth())) * DAY
            && (p.mode == Yearly ==> p.End() == p.Stop() - Slots(1))
  {
    hide Leap, DayNumber, DaysBeforeYear, DaysBeforeMonth, Period.FirstMonth, Period.FirstYear;
    var k := p.FirstYear() - p.year;
    MonthsCarry(p);
    CarriedMonth(p.year, k, p.FirstMonth(), 1);
    if p.StopMonth() == 13 {
      CarriedMonth(p.year, k + 1, 1, 1);
      DecemberEnds(p.FirstYear());
    } else {
      CarriedMonth(p.year, k, p.StopMonth(), 1);
    }
    if p.mode == Yearly {
      YearlyStart(p);
      YearInMonths(p.year);
      LastOfYear(p.year);
    }
  }

  lemma {:induction false} YearlyStart(p: Period)
    requires p.mode == Yearly
    ensures p.FirstYear() == p.year && p.FirstMonth() == 1
  {
  }

  lemma {:induction false} LastOfYear(y: int)
    ensures DayNumber(y, 12, 31) == DaysBeforeYear(y) + YearLength(y) - 1
  {
    assert (12 - 1) / 12 == 0 && (12 - 1) % 12 == 11;
  }

  // The moments of a period are those of its months.
  lemma {:induction false} IncludesMonths(p: Period, ts: int)
    ensures p.Includes(ts) <==> YearOf(ts) == p.FirstYear() && p.FirstMonth() <= MonthOf(ts) < p.StopMonth()
  {
    hide Leap, DaysBeforeMonth, DaysBeforeYear, YearOf, MonthOf, Period.Start, Period.Stop, Period.FirstYear,
         Period.FirstMonth,
         DayOfMonth;
    PeriodDays(p);
    var y, leap := p.FirstYear(), Leap(p.FirstYear());
    InMonth(ts);
    WholeDays(ts, DaysBeforeYear(y) + DaysBeforeMonth(leap, p.FirstMonth()));
    WholeDays(ts, DaysBeforeYear(y) + DaysBeforeMonth(leap, p.StopMonth()));
    if p.Includes(ts) {
      YearOfMoment(ts, y, p.FirstMonth(), p.StopMonth());
    }
    if YearOf(ts) == y {
      var m := MonthOf(ts);
      if m < p.FirstMonth() {
        MonthsAscend(leap, m + 1, p.FirstMonth());
      } else {
        MonthsAscend(leap, p.FirstMonth(), m);
      }
      if m < p.StopMonth() {
        MonthsAscend(leap, m + 1, p.StopMonth());
      } else {
        MonthsAscend(leap, p.StopMonth(), m);
      }
    }
  }

  lemma {:induction false} WholeDays(ts: int, day: int)
    ensures day * DAY <= ts <==> day <= DayOf(ts)
  {
  }

  lemma {:induction false} YearOfMoment(ts: int, y: int, m: int, n: int)
    requires 1 <= m <= n <= 13
    requires DaysBeforeYear(y) + DaysBeforeMonth(Leap(y), m) <= DayOf(ts) < DaysBeforeYear(y)
             + DaysBeforeMonth(Leap(y), n)
    ensures YearOf(ts) == y
  {
    hide Leap, DaysBeforeYear;
    MonthsAscend(Leap(y), 1, m);
    MonthsAscend(Leap(y), n, 13);
    YearInMonths(y);
    YearIsDetermined(DayOf(ts), y);
    YearOfDate(DateOfDay(DayOf(ts)));
  }

  // The stop is the first of a month, and is outside the period.
  lemma {:induction false} StopIsFirst(p: Period)
    ensures DayOfMonth(p.Stop()) == 1 && MonthOf(p.Stop()) == (if p.StopMonth() == 13 then 1 else p.StopMonth())
    ensures DayOfMonth(p.Start()) == 1 && MonthOf(p.Start()) == p.FirstMonth() && p.Start() < p.Stop()
  {
    hide Leap, DaysBeforeYear, DaysBeforeMonth, MonthOf, DayOfMonth, YearOf, Period.Start, Period.Stop,
         Period.FirstMonth,
         Period.FirstYear;
    PeriodDays(p);
    var y := p.FirstYear();
    MonthsAscend(Leap(y), p.FirstMonth(), p.StopMonth());
    FirstOfMonth(y, p.FirstMonth());
    if p.StopMonth() == 13 {
      DecemberEnds(y);
      FirstOfMonth(y + 1, 1);
    } else {
      FirstOfMonth(y, p.StopMonth());
    }
  }

  lemma {:induction false} DecemberEnds(y: int)
    ensures DaysBeforeYear(y) + DaysBeforeMonth(Leap(y), 13) == DaysBeforeYear(y + 1) + DaysBeforeMonth(Leap(y + 1), 1)
  {
    hide Leap, DaysBeforeMonth, DaysBeforeYear, YearLength;
    NextYear(y);
    YearInMonths(y);
    YearInMonths(y + 1);
  }

  lemma {:induction false} FirstOfMonth(y: int, m: int)
    requires 1 <= m <= 12
    ensures var ts := (DaysBeforeYear(y) + DaysBeforeMonth(Leap(y), m)) * DAY;
            DayOfMonth(ts) == 1 && MonthOf(ts) == m && YearOf(ts) == y
  {
    hide Leap, DaysBeforeYear, DaysBeforeMonth, DateOfDay, DayNumber, YearOfDay;
    var d := Date(y, m, 1);
    MonthLength(Leap(y), m);
    DateRoundTrip(d);
    CarriedMonth(y, 0, m, 1);
    var day := DaysBeforeYear(y) + DaysBeforeMonth(Leap(y), m);
    assert DayOf(day * DAY) == day;
  }

  // The last day of a period ends a month, so its number is not 1.
  lemma {:induction false} LastDayIsLate(p: Period, ts: int)
    requires p.Includes(ts) && p.Stop() - DAY <= ts
    ensures 28 <= DayOfMonth(ts) && MonthOf(ts) == p.StopMonth() - 1
  {
    hide Leap, DaysBeforeMonth, DaysBeforeYear, YearOf, MonthOf, DayOfMonth, Period.Start, Period.Stop,
         Period.FirstYear,
         Period.FirstMonth;
    PeriodDays(p);
    IncludesMonths(p, ts);
    InMonth(ts);
    var leap, m := Leap(p.FirstYear()), MonthOf(ts);
    WholeDays(ts, DaysBeforeYear(p.FirstYear()) + DaysBeforeMonth(leap, p.StopMonth()) - 1);
    MonthsAscend(leap, m + 1, p.StopMonth());
    MonthsAscend(leap, m, m + 1);
  }

  // The days of a month carry different numbers.
  lemma {:induction false} DaysOfMonthDiffer(p: Period, a: int, b: int)
    requires p.mode == Monthly && p.Includes(a) && p.Includes(b)
    ensures DayOfMonth(a) == DayOfMonth(b) <==> DayOf(a) == DayOf(b)
  {
    hide Leap, DaysBeforeMonth, DaysBeforeYear, YearOf, MonthOf, DayOfMonth, Period.Start, Period.Stop,
         Period.FirstYear,
         Period.FirstMonth;
    IncludesMonths(p, a);
    IncludesMonths(p, b);
    InMonth(a);
    InMonth(b);
  }
}
