/**
 The proleptic Gregorian calendar. A moment is a whole number of local minutes since
 0001-01-01 00:00 in one fixed zone; days count from the same origin.
 */
module Calendar {
  const DAY := 1440

  // n quarter-hours in minutes.
  function Slots(n: int): int { 15 * n }

  predicate Leap(y: int) {
    y % 4 == 0 && (y % 100 != 0 || y % 400 == 0)
  }

  function YearLength(y: int): int {
    if Leap(y) then 366 else 365
  }

  // Three leap years in four, leaving out the centuries that 400 does not divide.
  function DaysBeforeYear(y: int): (d: int) {
    365 * (y - 1) + (y - 1) / 4 - (y - 1) / 100 + (y - 1) / 400
  }

  // A year has the days of its length, which is what makes a leap year.
  lemma {:induction false} NextYear(y: int)
    ensures DaysBeforeYear(y + 1) == DaysBeforeYear(y) + YearLength(y)
  {
    Multiples(y, 4);
    Multiples(y, 100);
    Multiples(y, 400);
    Hundreds(y);
    FourHundreds(y);
  }

  lemma {:induction false} Multiples(y: int, n: int)
    requires n == 4 || n == 100 || n == 400
    ensures y / n == (y - 1) / n + if y % n == 0 then 1 else 0
  {
  }

  lemma {:induction false} Hundreds(y: int)
    ensures y % 100 == 0 ==> y % 4 == 0
  {
    assert y == 100 * (y / 100) + y % 100;
    assert y % 100 == 0 ==> y == 4 * (25 * (y / 100));
  }

  lemma {:induction false} FourHundreds(y: int)
    ensures y % 400 == 0 ==> y % 100 == 0
  {
    assert y == 400 * (y / 400) + y % 400;
    assert y % 400 == 0 ==> y == 100 * (4 * (y / 400));
  }

  lemma {:induction false} YearsAscend(y: int, z: int)
    requires y <= z
    ensures DaysBeforeYear(y) + 365 * (z - y) <= DaysBeforeYear(z)
    ensures y < z ==> DaysBeforeYear(y) + YearLength(y) <= DaysBeforeYear(z)
    decreases z - y
  {
    if y < z {
      hide DaysBeforeYear, Leap;
      YearsAscend(y + 1, z);
      NextYear(y);
    }
  }

  function YearFrom(day: int, y: int): (r: int)
    ensures DaysBeforeYear(r) <= day < DaysBeforeYear(r) + YearLength(r)
    decreases if day < DaysBeforeYear(y) then DaysBeforeYear(y) - day else day - DaysBeforeYear(y)
  {
    hide DaysBeforeYear, Leap;
    NextYear(y);
    NextYear(y - 1);
    if day < DaysBeforeYear(y) then YearDown(day, y - 1)
    else if day < DaysBeforeYear(y + 1) then y
    else YearFrom(day, y + 1)
  }

  // Years before the first: the last year that starts no later than the day.
  function YearDown(day: int, y: int): (r: int)
    requires day < DaysBeforeYear(y) + YearLength(y)
    ensures DaysBeforeYear(r) <= day < DaysBeforeYear(r) + YearLength(r)
    decreases DaysBeforeYear(y) + YearLength(y) - day
  {
    hide DaysBeforeYear, Leap;
    NextYear(y - 1);
    if DaysBeforeYear(y) <= day then y else YearDown(day, y - 1)
  }

  function YearOfDay(day: int): (y: int)
    ensures DaysBeforeYear(y) <= day < DaysBeforeYear(y) + YearLength(y)
  {
    YearFrom(day, 1)
  }

  lemma {:induction false} YearIsDetermined(day: int, y: int)
    requires DaysBeforeYear(y) <= day < DaysBeforeYear(y) + YearLength(y)
    ensures y == YearOfDay(day)
  {
    var z := YearOfDay(day);
    if y < z {
      YearsAscend(y, z);
    } else if z < y {
      YearsAscend(z, y);
    }
  }

  // Days of the year before month m, for m in 1..13.
  function DaysBeforeMonth(leap: bool, m: int): (d: int)
    requires 1 <= m <= 13
  {
    var shift := if leap then 1 else 0;
    if m == 1 then 0
    else if m == 2 then 31
    else shift + [59, 90, 120, 151, 181, 212, 243, 273, 304, 334, 365][m - 3]
  }

  // The months by their lengths.
  lemma {:induction false} MonthLengths(leap: bool)
    ensures DaysBeforeMonth(leap, 1) == 0
    ensures forall m :: 1 <= m <= 12 ==>
              DaysBeforeMonth(leap, m + 1) - DaysBeforeMonth(leap, m)
              == [31, if leap then 29 else 28, 31, 30, 31, 30, 31, 31, 30, 31, 30, 31][m - 1]
  {
  }

  function MonthFrom(leap: bool, yday: int, m: int): (r: int)
    requires 1 <= m <= 12
    requires DaysBeforeMonth(leap, m) <= yday < DaysBeforeMonth(leap, 13)
    ensures 1 <= r <= 12
    ensures DaysBeforeMonth(leap, r) <= yday < DaysBeforeMonth(leap, r + 1)
    decreases 13 - m
  {
    if yday < DaysBeforeMonth(leap, m + 1) then m else MonthFrom(leap, yday, m + 1)
  }

  lemma {:induction false} MonthsAscend(leap: bool, m: int, n: int)
    requires 1 <= m <= n <= 13
    ensures DaysBeforeMonth(leap, m) <= DaysBeforeMonth(leap, n)
    ensures m < n ==> DaysBeforeMonth(leap, m) + 28 <= DaysBeforeMonth(leap, n)
  {
  }

  datatype Date = Date(year: int, month: int, day: int)

  // A date of the calendar, as opposed to an overflowing one.
  ghost predicate ValidDate(d: Date) {
    && 1 <= d.month <= 12
    && 1 <= d.day <= DaysBeforeMonth(Leap(d.year), d.month + 1) - DaysBeforeMonth(Leap(d.year), d.month)
  }

  // The date is built from the year, the day within it and the month that holds that day.
  function DateOfDay(day: int): (d: Date)
    ensures ValidDate(d)
    ensures DayNumber(d.year, d.month, d.day) == day
    ensures 1 <= d.month <= 12 && 1 <= d.day <= 31
  {
    hide DaysBeforeYear, DaysBeforeMonth, DayNumber, Leap, YearLength, YearOfDay, MonthFrom, ValidDate;
    var y := YearOfDay(day);
    YearInMonths(y);
    var m := MonthFrom(Leap(y), day - DaysBeforeYear(y), 1);
    DateInMonth(y, m, day);
    Date(y, m, day - DaysBeforeYear(y) - DaysBeforeMonth(Leap(y), m) + 1)
  }

  lemma {:induction false} YearInMonths(y: int)
    ensures DaysBeforeMonth(Leap(y), 1) == 0 && DaysBeforeMonth(Leap(y), 13) == YearLength(y)
  {
  }

  lemma {:induction false} MonthLength(leap: bool, m: int)
    requires 1 <= m <= 12
    ensures 28 <= DaysBeforeMonth(leap, m + 1) - DaysBeforeMonth(leap, m) <= 31
  {
  }

  // A month number that carries whole years over.
  lemma {:induction false} CarriedMonth(y: int, k: int, m: int, d: int)
    requires 1 <= m <= 12
    ensures DayNumber(y, 12 * k + m, d) == DaysBeforeYear(y + k) + DaysBeforeMonth(Leap(y + k), m) + d - 1
  {
    hide DaysBeforeYear, DaysBeforeMonth, Leap;
    assert (12 * k + m - 1) / 12 == k && (12 * k + m - 1) % 12 == m - 1;
  }

  lemma {:induction false} DateInMonth(y: int, m: int, day: int)
    requires 1 <= m <= 12
    requires DaysBeforeMonth(Leap(y), m) <= day - DaysBeforeYear(y) < DaysBeforeMonth(Leap(y), m + 1)
    ensures var d := day - DaysBeforeYear(y) - DaysBeforeMonth(Leap(y), m) + 1;
            1 <= d <= 31 && ValidDate(Date(y, m, d)) && DayNumber(y, m, d) == day
  {
    hide DaysBeforeYear, DaysBeforeMonth, Leap, DayNumber;
    MonthLength(Leap(y), m);
    CarriedMonth(y, 0, m, day - DaysBeforeYear(y) - DaysBeforeMonth(Leap(y), m) + 1);
  }

  // Months and days outside their ranges carry over, as in time.Date.
  function DayNumber(y: int, m: int, d: int): int {
    var yy := y + (m - 1) / 12;
    var mm := (m - 1) % 12 + 1;
    DaysBeforeYear(yy) + DaysBeforeMonth(Leap(yy), mm) + d - 1
  }

  lemma {:induction false} YearOfDate(d: Date)
    requires ValidDate(d)
    ensures YearOfDay(DayNumber(d.year, d.month, d.day)) == d.year
    ensures DayNumber(d.year, d.month, d.day)
            == DaysBeforeYear(d.year) + DaysBeforeMonth(Leap(d.year), d.month) + d.day - 1
  {
    hide DaysBeforeYear, Leap, YearOfDay, DaysBeforeMonth, DayNumber, YearLength;
    MonthsAscend(Leap(d.year), 1, d.month);
    MonthsAscend(Leap(d.year), d.month + 1, 13);
    CarriedMonth(d.year, 0, d.month, d.day);
    YearInMonths(d.year);
    YearIsDetermined(DayNumber(d.year, d.month, d.day), d.year);
  }

  // Days of the calendar by their numbers, with a Monday at 0.
  lemma {:induction false} KnownDays()
    ensures DayNumber(1, 1, 1) == 0 && DayNumber(1970, 1, 1) == 719162 && DayNumber(2023, 1, 1) == 738520
    ensures DayNumber(2000, 3, 1) == DayNumber(2000, 2, 28) + 2 && DayNumber(1900, 3, 1) == DayNumber(1900, 2, 28) + 1
  {
  }

  // Printing a day as a date and reading the date back are inverse.
  lemma {:induction false} DateRoundTrip(d: Date)
    requires ValidDate(d)
    ensures DateOfDay(DayNumber(d.year, d.month, d.day)) == d
  {
    hide DaysBeforeYear, Leap, YearOfDay, DaysBeforeMonth, DateOfDay, DayNumber;
    var e := DateOfDay(DayNumber(d.year, d.month, d.day));
    YearOfDate(d);
    YearOfDate(e);
    if d.month < e.month {
      MonthsAscend(Leap(d.year), d.month + 1, e.month);
    } else if e.month < d.month {
      MonthsAscend(Leap(d.year), e.month + 1, d.month);
    }
  }

  function DayOf(ts: int): int { ts / DAY }

  function MinuteOfDay(ts: int): int { ts % DAY }

  function Midnight(ts: int): (m: int)
    ensures m <= ts < m + DAY && m % DAY == 0
  {
    ts / DAY * DAY
  }

  function YearOf(ts: int): int { DateOfDay(DayOf(ts)).year }

  function MonthOf(ts: int): (m: int)
    ensures 1 <= m <= 12
  {
    DateOfDay(DayOf(ts)).month
  }

  function DayOfMonth(ts: int): (d: int)
    ensures 1 <= d <= 31
  {
    DateOfDay(DayOf(ts)).day
  }

  function YearDay(ts: int): (n: int)
    ensures 1 <= n <= 366
  {
    var y := YearOfDay(DayOf(ts));
    DayOf(ts) - DaysBeforeYear(y) + 1
  }

  // The Thursday of the ISO week of a day; day 0 is a Monday.
  function ThursdayOf(day: int): int { day / 7 * 7 + 3 }

  // ISO 8601 week: the year and week number of the week's Thursday.
  function IsoWeek(ts: int): (w: (int, int))
    ensures 1 <= w.1 <= 53
  {
    var th := ThursdayOf(DayOf(ts));
    var y := YearOfDay(th);
    (y, (th - DaysBeforeYear(y)) / 7 + 1)
  }

  // Two lines less than half an hour apart are on the same day exactly when they carry the
  // same number within the year: a whole year cannot pass between them.
  lemma {:induction false} SameYearDay(a: int, b: int)
    requires a <= b < a + DAY
    ensures YearDay(a) == YearDay(b) <==> DayOf(a) == DayOf(b)
  {
    var y, z := YearOfDay(DayOf(a)), YearOfDay(DayOf(b));
    if z < y {
      YearsAscend(z, y);
      assert false;
    }
    if y < z {
      YearsAscend(y, z);
    }
  }

  lemma {:induction false} YearsInOrder(a: int, b: int)
    requires a <= b
    ensures YearOf(a) <= YearOf(b)
  {
    var y, z := YearOfDay(DayOf(a)), YearOfDay(DayOf(b));
    if z < y {
      YearsAscend(z, y);
    }
  }

  lemma {:induction false} SameMonthDays(a: int, b: int)
    requires a <= b && YearOf(a) == YearOf(b) && MonthOf(a) == MonthOf(b)
    ensures DayOfMonth(a) <= DayOfMonth(b)
  {
    var d, e := DateOfDay(DayOf(a)), DateOfDay(DayOf(b));
    assert DayNumber(d.year, d.month, d.day) <= DayNumber(e.year, e.month, e.day);
  }

  // A moment lies between the starts of its month and of the next.
  lemma {:induction false} InMonth(ts: int)
    ensures var leap, day := Leap(YearOf(ts)), DayOf(ts) - DaysBeforeYear(YearOf(ts));
            && DaysBeforeMonth(leap, MonthOf(ts)) <= day < DaysBeforeMonth(leap, MonthOf(ts) + 1)
            && day == DaysBeforeMonth(leap, MonthOf(ts)) + DayOfMonth(ts) - 1
  {
    hide DaysBeforeYear, DaysBeforeMonth, Leap, DayNumber, DateOfDay;
    var d := DateOfDay(DayOf(ts));
    CarriedMonth(d.year, 0, d.month, d.day);
  }

  // Within a year the month does not fall, and rises by at most one in a day.
  lemma {:induction false} MonthStep(a: int, b: int)
    requires a <= b && YearOf(a) == YearOf(b)
    ensures MonthOf(a) <= MonthOf(b)
    ensures b < a + DAY ==> MonthOf(b) <= MonthOf(a) + 1
  {
    hide YearOf, MonthOf, Leap, DaysBeforeMonth, DaysBeforeYear;
    InMonth(a);
    InMonth(b);
    var leap, m, n := Leap(YearOf(a)), MonthOf(a), MonthOf(b);
    if n < m {
      MonthsAscend(leap, n + 1, m);
    }
    if m + 1 < n {
      MonthsAscend(leap, m + 1, n);
    }
  }
}
