/**
 The positions of the participant charts: which days of a queried period share one.
 */
module ChartPositions {
  import opened Calendar
  import opened Periods
  import opened Weeks

  // The 1-based position of a day in the chart. The remainders are never negative.
  function ChartPosition(p: Period, ts: int): (b: nat)
    ensures 1 <= b <= match p.mode case Monthly => 31 case Halfyear => 52 case Quarterly => 51 case Yearly => 12
  {
    match p.mode
    case Monthly => DayOfMonth(ts)
    case Halfyear => (var a := (IsoWeek(ts).1 - IsoWeek(p.Start()).1) % 53; if a < 1 then 1 else a)
    case Quarterly => (var a := (IsoWeek(ts).1 - IsoWeek(p.Start()).1) % 52; if a < 1 then 1 else a)
    case Yearly => (MonthOf(ts) - 1) % 12 + 1
  }

  // In a yearly report the position of a day is its month.
  lemma {:induction false} YearlyPositionIsMonth(p: Period, ts: int)
    requires p.mode == Yearly
    ensures ChartPosition(p, ts) == MonthOf(ts)
  {
    hide IsoWeek, MonthOf, DayOfMonth;
  }

  // In a monthly report each day has its own position, except that the first slot of the next
  // month, which the inclusive query reads too, is counted on the first day.
  lemma {:induction false} MonthlyPositions(p: Period, a: int, b: int)
    requires p.mode == Monthly && p.InRange(a) && p.InRange(b)
    ensures ChartPosition(p, a) == ChartPosition(p, b) <==>
              || DayOf(a) == DayOf(b)
              || (a == p.Stop() && DayOf(b) == DayOf(p.Start()))
              || (b == p.Stop() && DayOf(a) == DayOf(p.Start()))
  {
    hide DayOfMonth, DayOf, Period.Start, Period.Stop;
    StopIsFirst(p);
    if a < p.Stop() && b < p.Stop() {
      DaysOfMonthDiffer(p, a, b);
    } else if a < p.Stop() {
      DaysOfMonthDiffer(p, a, p.Start());
    } else if b < p.Stop() {
      DaysOfMonthDiffer(p, b, p.Start());
    }
    StopIsAnotherDay(p, a);
    StopIsAnotherDay(p, b);
  }

  lemma {:induction false} StopIsAnotherDay(p: Period, ts: int)
    ensures p.Includes(ts) ==> DayOf(ts) != DayOf(p.Stop())
  {
    hide DayNumber;
  }

  // ---- Weeks. ----

  // Half-years and quarters have at least 90 and at most 184 days.
  lemma {:induction false} PeriodLength(p: Period)
    requires p.mode == Halfyear || p.mode == Quarterly
    ensures p.Start() + 90 * DAY <= p.Stop() <= p.Start() + 184 * DAY
    ensures p.Start() % DAY == 0 && p.End() == p.Stop()
  {
    hide DaysBeforeYear, Leap;
    PeriodDays(p);
  }

  // (w - s) modulo 53 and 52, for week numbers.
  lemma {:induction false} WeekOffsets(w: int, s: int)
    requires 1 <= w <= 53 && 1 <= s <= 53
    ensures (w - s) % 53 == if s <= w then w - s else w - s + 53
    ensures (w - s) % 52 == if w - s == 52 || s - w == 52 then 0 else if s <= w then w - s else w - s + 52
  {
  }

  // The ISO weeks that a quarter starting in week s shows at position 1.
  predicate AtFirstPosition(s: int, w: int) {
    w == s || w == s + 1 || (s == 1 && w == 53) || (s == 52 && w == 1) || (s == 53 && w <= 2)
  }

  // Two different ISO weeks of a queried half-year share a position exactly when they are the
  // week it starts in and the number after it (1 after 53). In a quarter the numbers 53 and 1
  // count as one, so they share a position too, and up to three weeks share the first.
  lemma {:induction false} WeeksSharePosition(p: Period, a: int, b: int)
    requires p.mode == Halfyear || p.mode == Quarterly
    requires p.InRange(a) && p.InRange(b) && IsoWeek(a) != IsoWeek(b)
    ensures var s, v, w := IsoWeek(p.Start()).1, IsoWeek(a).1, IsoWeek(b).1;
            ChartPosition(p, a) == ChartPosition(p, b) <==>
              if p.mode == Halfyear then (v == s && w == s % 53 + 1) || (w == s && v == s % 53 + 1)
              else (AtFirstPosition(s, v) && AtFirstPosition(s, w)) || (v == 1 && w == 53) || (v == 53 && w == 1)
  {
    hide IsoWeek, Period.Start, Period.Stop, ChartPosition, AtFirstPosition;
    PeriodLength(p);
    if IsoWeek(a).1 == IsoWeek(b).1 {
      if a <= b {
        SameNumberSameWeek(a, b);
      } else {
        SameNumberSameWeek(b, a);
      }
    }
    WeekPosition(p, a);
    WeekPosition(p, b);
    PositionsMeet(IsoWeek(p.Start()).1, IsoWeek(a).1, IsoWeek(b).1);
  }

  // The position of an ISO week in the chart of a half-year or quarter that starts in week s.
  function PositionOfWeek(mode: PeriodMode, s: int, w: int): int {
    var a := (w - s) % if mode == Halfyear then 53 else 52;
    if a < 1 then 1 else a
  }

  lemma {:induction false} WeekPosition(p: Period, ts: int)
    requires p.mode == Halfyear || p.mode == Quarterly
    ensures ChartPosition(p, ts) == PositionOfWeek(p.mode, IsoWeek(p.Start()).1, IsoWeek(ts).1)
  {
    hide IsoWeek, Period.Start;
  }

  lemma {:induction false} PositionsMeet(s: int, v: int, w: int)
    requires 1 <= s <= 53 && 1 <= v <= 53 && 1 <= w <= 53 && v != w
    ensures PositionOfWeek(Halfyear, s, v) == PositionOfWeek(Halfyear, s, w)
            <==> (v == s && w == s % 53 + 1) || (w == s && v == s % 53 + 1)
    ensures PositionOfWeek(Quarterly, s, v) == PositionOfWeek(Quarterly, s, w)
            <==> (AtFirstPosition(s, v) && AtFirstPosition(s, w)) || (v == 1 && w == 53) || (v == 53 && w == 1)
  {
    WeekOffsets(v, s);
    WeekOffsets(w, s);
  }

  // Two days of different weeks at one position.
  predicate Collide(p: Period, a: int, b: int) {
    p.InRange(a) && p.InRange(b) && IsoWeek(a) != IsoWeek(b) && ChartPosition(p, a) == ChartPosition(p, b)
  }

  // A half-year or quarter shows two weeks at one position, unless it is a half-year that starts
  // in ISO week 52.
  lemma {:induction false} SomeWeeksCollideIff(p: Period)
    requires p.mode == Halfyear || p.mode == Quarterly
    ensures (exists a, b :: Collide(p, a, b)) <==> !(p.mode == Halfyear && IsoWeek(p.Start()).1 == 52)
  {
    hide IsoWeek, Period.Start, Period.Stop, ChartPosition;
    PeriodLength(p);
    if p.mode == Halfyear && IsoWeek(p.Start()).1 == 52 {
      forall a, b ensures !Collide(p, a, b) {
        if Collide(p, a, b) {
          WeeksSharePosition(p, a, b);
          NoWeek53(p, a);
          NoWeek53(p, b);
        }
      }
    } else {
      var a, b := p.Start(), p.Start() + 7 * DAY;
      NextWeek(a);
      WeeksSharePosition(p, a, b);
      assert Collide(p, a, b);
    }
  }

  // A half-year that starts in week 52 starts in the last week of the year before, and has no
  // week 53.
  lemma {:induction false} NoWeek53(p: Period, ts: int)
    requires p.mode == Halfyear && p.InRange(ts) && IsoWeek(p.Start()).1 == 52
    ensures IsoWeek(ts).1 != 53
  {
    hide DaysBeforeYear, YearOfDay, Period.Start, Period.Stop;
    var y := p.FirstYear();
    PeriodLength(p);
    PeriodDays(p);
    var s, d := DayOf(p.Start()), DayOf(ts);
    assert s <= d <= s + 184 && s == DaysBeforeYear(y) + DaysBeforeMonth(Leap(y), p.FirstMonth());
    EarlyWeek(s, y);
    if d <= DaysBeforeYear(y) + 184 {
      EarlyWeek(d, y);
    }
  }

  // A day up to the first of July or so of a year: its week is at most 27, or the last of the
  // year before, which also holds the first of January.
  lemma {:induction false} EarlyWeek(d: int, y: int)
    requires DaysBeforeYear(y) <= d <= DaysBeforeYear(y) + 184
    ensures var w := IsoWeek(d * DAY);
            w == IsoWeek(DaysBeforeYear(y) * DAY) || w.1 <= 27
    ensures d == DaysBeforeYear(y) + 181 || d == DaysBeforeYear(y) + 182 ==> IsoWeek(d * DAY).1 <= 27
  {
    hide DaysBeforeYear, YearOfDay;
    var s := DaysBeforeYear(y);
    assert DayOf(d * DAY) == d && DayOf(s * DAY) == s;
    var t := ThursdayOf(d);
    if s <= t {
      YearIsDetermined(t, y);
    } else {
      assert t == ThursdayOf(s);
    }
  }

  // ---- The position itself. ----

  // In a monthly report the position of a day is its place in the month.
  lemma {:induction false} MonthlyPositionIsDay(p: Period, ts: int)
    requires p.mode == Monthly
    ensures p.Includes(ts) ==> ChartPosition(p, ts) == DayOf(ts) - DayOf(p.Start()) + 1
    ensures ChartPosition(p, p.Stop()) == 1
  {
    hide Leap, DaysBeforeMonth, DaysBeforeYear, YearOf, MonthOf, DayOfMonth, Period.Start, Period.Stop,
         Period.FirstYear,
         Period.FirstMonth;
    StopIsFirst(p);
    if p.Includes(ts) {
      IncludesMonths(p, ts);
      InMonth(ts);
      PeriodDays(p);
    }
  }

  // In a half-year or quarter it is the number of weeks since the week of the first day, but at
  // least 1. After the end of the ISO year that week lies in, a half-year counts one more when that
  // year had 52 weeks, and a quarter one less when it had 53.
  lemma {:induction false} WeeklyPositionIsWeeks(p: Period, ts: int)
    requires (p.mode == Halfyear || p.mode == Quarterly) && p.InRange(ts)
    ensures var year := IsoWeek(p.Start()).0;
            var weeks := WeeksBetween(p.Start(), ts);
            var n := if IsoWeek(ts).0 == year then weeks
                     else if p.mode == Halfyear then weeks + 53 - WeeksIn(year)
                     else weeks + 52 - WeeksIn(year);
            52 <= WeeksIn(year) <= 53 && ChartPosition(p, ts) == if n < 1 then 1 else n
  {
    hide IsoWeek, Period.Start, Period.Stop, ChartPosition, WeeksIn, WeeksBetween;
    PeriodLength(p);
    DaysApart(p.Start(), ts);
    WeekDifference(p.Start(), ts);
    WeeksInYear(IsoWeek(p.Start()).0);
    WeekPosition(p, ts);
    WeekOffsets(IsoWeek(ts).1, IsoWeek(p.Start()).1);
  }

  // Half a year apart is at most 27 weeks apart.
  lemma {:induction false} DaysApart(a: int, b: int)
    requires a <= b <= a + 184 * DAY
    ensures DayOf(a) <= DayOf(b) < DayOf(a) + 350 && 0 <= WeeksBetween(a, b) <= 27
  {
  }

  // Where a reader looks for a moment in the chart.
  function CalendarPosition(p: Period, ts: int): int {
    match p.mode
    case Monthly => if ts == p.Stop() then 1 else DayOf(ts) - DayOf(p.Start()) + 1
    case Yearly => MonthOf(ts)
    case _ =>
      var year := IsoWeek(p.Start()).0;
      var m := if p.mode == Halfyear then 53 else 52;
      var n := WeeksBetween(p.Start(), ts) + if IsoWeek(ts).0 == year then 0 else m - WeeksIn(year);
      if n < 1 then 1 else n
  }

  lemma {:induction false} PositionIsCalendar(p: Period, ts: int)
    requires p.InRange(ts)
    ensures ChartPosition(p, ts) == CalendarPosition(p, ts)
  {
    hide IsoWeek, Period.Start, Period.Stop, ChartPosition, WeeksIn, WeeksBetween, MonthOf, DayOf;
    match p.mode
    case Monthly => MonthlyPositionIsDay(p, ts);
    case Yearly => YearlyPositionIsMonth(p, ts);
    case _ => WeeklyPositionIsWeeks(p, ts);
  }

  // ---- Inputs. ----

  lemma {:induction false} WeekOfDay(day: int, y: int)
    requires DaysBeforeYear(y) <= ThursdayOf(day) < DaysBeforeYear(y) + 365
    ensures IsoWeek(day * DAY) == (y, (ThursdayOf(day) - DaysBeforeYear(y)) / 7 + 1)
  {
    hide DaysBeforeYear, YearOfDay;
    YearIsDetermined(ThursdayOf(day), y);
    assert DayOf(day * DAY) == day;
  }

  lemma {:induction false} StartsInJanuary(p: Period)
    requires p.segment == 1
    ensures p.Start() == DaysBeforeYear(p.year) * DAY
  {
    hide Leap, DaysBeforeYear;
    PeriodDays(p);
    assert p.FirstYear() == p.year && p.FirstMonth() == 1;
  }

  lemma {:induction false} SecondHalf(p: Period)
    requires p == Period(Halfyear, 1, 2)
    ensures p.Start() == 181 * DAY
  {
    hide DaysBeforeYear, Period.Start;
    PeriodDays(p);
    FirstYears();
    assert p.FirstYear() == 1 && p.FirstMonth() == 7;
  }

  lemma {:induction false} FirstYears()
    ensures DaysBeforeYear(1) == 0 && DaysBeforeYear(2) == 365 && DaysBeforeYear(4) == 1095
    ensures DaysBeforeYear(5) == 1461 && DaysBeforeYear(6) == 1826
  {
  }

  // January of year 5: the first slot of February, 31 days later, is counted on the first day.
  lemma {:induction false} EndSlotOnFirstDay()
    ensures var p := Period(Monthly, 5, 1);
            && p.InRange(p.Stop()) && MonthOf(p.Start()) == 1 && MonthOf(p.Stop()) == 2
            && p.Stop() == p.Start() + 31 * DAY
            && ChartPosition(p, p.Stop()) == ChartPosition(p, p.Start()) == 1
  {
    var p := Period(Monthly, 5, 1);
    hide DaysBeforeYear, Leap, MonthOf, DayOfMonth;
    assert p.StopMonth() == 2 && p.End() == p.Stop();
    StopIsFirst(p);
    PeriodDays(p);
  }

  // The second half of year 1 starts in week 26, which shares position 1 with week 27.
  lemma {:induction false} TwoWeeksCollide()
    ensures var p := Period(Halfyear, 1, 2);
            var a, b := p.Start(), p.Start() + 7 * DAY;
            && IsoWeek(a) == (1, 26) && IsoWeek(b) == (1, 27) && ChartPosition(p, a) == ChartPosition(p, b) == 1
  {
    var p := Period(Halfyear, 1, 2);
    FirstYears();
    SecondHalf(p);
    hide DaysBeforeYear, IsoWeek, Period.Start, Leap, YearLength;
    WeekOfDay(181, 1);
    WeekOfDay(188, 1);
  }

  // The first quarter of year 5 starts in week 53, and has weeks 53, 1 and 2 at position 1.
  lemma {:induction false} ThreeWeeksCollide()
    ensures var p := Period(Quarterly, 5, 1);
            var a := p.Start();
            && IsoWeek(a) == (4, 53) && IsoWeek(a + 7 * DAY) == (5, 1) && IsoWeek(a + 14 * DAY) == (5, 2)
            && ChartPosition(p, a) == ChartPosition(p, a + 7 * DAY) == ChartPosition(p, a + 14 * DAY) == 1
  {
    var p := Period(Quarterly, 5, 1);
    hide DaysBeforeYear, IsoWeek, Period.Start, Leap, YearLength;
    FirstYears();
    StartsInJanuary(p);
    WeekOfDay(1461, 4);
    WeekOfDay(1468, 5);
    WeekOfDay(1475, 5);
  }

  // The first half of year 6 starts in week 52, and its weeks keep apart.
  lemma {:induction false} NoWeeksCollide()
    ensures var p := Period(Halfyear, 6, 1);
            var a := p.Start();
            && IsoWeek(a) == (5, 52) && IsoWeek(a + DAY) == (6, 1)
            && ChartPosition(p, a) == 1 && ChartPosition(p, a + DAY) == 2
  {
    var p := Period(Halfyear, 6, 1);
    hide DaysBeforeYear, IsoWeek, Period.Start, Leap, YearLength;
    FirstYears();
    StartsInJanuary(p);
    WeekOfDay(1826, 5);
    WeekOfDay(1827, 6);
  }
}
