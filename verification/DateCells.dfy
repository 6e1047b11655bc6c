/**
 The date cells of the "Energiedaten" sheet, "DD.MM.YYYY hh:mm:ss": printing by the export and
 reading by the import, and for exactly which moments reading undoes printing.
 */
module DateCells {
  import opened Outcomes
  import opened Calendar
  import opened Codes
  import opened RowId
  import opened Rounding

  // How the spreadsheet library shows a number, how a text reads as a number (in millionths),
  // and the minutes local time is ahead of UTC.
  datatype Formats = Formats(show: real -> string, number: string -> Option<real>, zone: int)

  // returnFloat: blank and unreadable cells count as 0.
  function ReadNumber(fmt: Formats, cell: string): real {
    var c := Trim(cell);
    if c == "" then 0.0
    else
      match fmt.number(c)
      case Some(v) => v
      case None => 0.0
  }

  // %.Nd: the sign does not count.
  function PrintPrecise(n: int, digits: nat): string {
    if 0 <= n then PrintNat(n, digits) else ['-'] + PrintNat(-n, digits)
  }

  function PrintDay(ts: int): string {
    PrintPrecise(DayOfMonth(ts), 2) + "." + PrintPrecise(MonthOf(ts), 2) + "." + PrintPrecise(YearOf(ts), 4)
  }

  // The first cell of a data row.
  function PrintMoment(ts: int): string {
    PrintDay(ts) + " " + PrintPrecise(MinuteOfDay(ts) / 60, 2) + ":" + PrintPrecise(MinuteOfDay(ts) % 60, 2) + ":00"
  }

  // The regular expression for date lines: digits and separators at fixed places.
  predicate IsDateLine(s: string) {
    && |s| == 19 && s[2] == '.' && s[5] == '.' && s[13] == ':' && s[16] == ':'
    && s[10] as int in [9, 10, 12, 13, 32]
    && AllDigits(s[..2]) && AllDigits(s[3..5]) && AllDigits(s[6..10]) && AllDigits(s[11..13]) && AllDigits(s[14..16])
       && AllDigits(s[17..])
  }

  predicate IsNumberLine(s: string) {
    s != "" && forall i :: 0 <= i < |s| ==> IsDigit(s[i]) || s[i] == '.' || s[i] == ','
  }

  function Seconds(minutes: int): int { 60 * minutes }

  // A date of the calendar and a time of the day, in seconds; the separator must be a space.
  function ParseDateLine(s: string): Option<int>
    requires IsDateLine(s)
  {
    var d, mo, y := Value(s[..2]), Value(s[3..5]), Value(s[6..10]);
    var h, mi, se := Value(s[11..13]), Value(s[14..16]), Value(s[17..]);
    if s[10] != ' ' || !IsDate(y, mo, d) || 24 <= h || 60 <= mi || 60 <= se then None
    else Some(Seconds(Moment(y, mo, d, h, mi)) + se)
  }

  predicate IsDate(y: int, m: int, d: int) {
    1 <= m <= 12 && 1 <= d <= DaysBeforeMonth(Leap(y), m + 1) - DaysBeforeMonth(Leap(y), m)
  }

  // A serial date: days since 1899-12-30 in UTC, rounded to the quarter-hour.
  function SerialMoment(zone: int, days: real): int {
    Seconds(DayNumber(1899, 12, 30) * DAY + zone + Slots((days * 96.0 + HALF).Floor))
  }

  predicate IsDateCell(cell: string) {
    IsDateLine(Trim(cell)) || IsNumberLine(Trim(cell))
  }

  function ParseDateCell(fmt: Formats, cell: string): Option<int> {
    var c := Trim(cell);
    if IsDateLine(c) then ParseDateLine(c)
    else if IsNumberLine(c) then
      match fmt.number(c)
      case Some(v) => Some(SerialMoment(fmt.zone, v / 1000000.0))
      case None => None
    else None
  }

  // ---- Reading undoes printing. ----

  // A number of exactly that many digits.
  predicate Fits(s: string, n: int, digits: nat) {
    |s| == digits && AllDigits(s) && Value(s) == n
  }

  lemma {:induction false} TwoDigits(n: int)
    requires 0 <= n < 100
    ensures Fits(PrintPrecise(n, 2), n, 2)
  {
    DigitsLength(n);
    ValueZeros(2 - |Digits(n)|, Digits(n));
    ValueDigits(n);
  }

  predicate DatePrintable(ts: int) {
    0 <= YearOf(ts) < 10000
  }

  lemma {:induction false} YearDigits(y: int)
    ensures 0 <= y < 10000 ==> Fits(PrintPrecise(y, 4), y, 4)
    ensures |PrintPrecise(y, 4)| == 4 <==> 0 <= y < 10000
    ensures 4 <= |PrintPrecise(y, 4)|
  {
    if 0 <= y {
      DigitsLength(y);
      ValueZeros(4 - |Digits(y)|, Digits(y));
      ValueDigits(y);
    } else {
      DigitsLength(-y);
    }
  }

  // The pieces of a date line are where the regular expression looks for them.
  lemma {:induction false} Pieces(d: string, m: string, y: string, h: string, mi: string, se: string)
    requires |d| == |m| == |h| == |mi| == |se| == 2
    requires |y| == 4
    ensures var s := d + "." + m + "." + y + " " + h + ":" + mi + ":" + se;
            && |s| == 19 && s[2] == '.' && s[5] == '.' && s[10] == ' ' && s[13] == ':' && s[16] == ':'
            && s[..2] == d && s[3..5] == m && s[6..10] == y && s[11..13] == h && s[14..16] == mi && s[17..] == se
  {
  }

  lemma {:induction false} ValueZeroZero()
    ensures Fits("00", 0, 2)
  {
    assert "00"[..1] == "0" && "0"[..0] == "";
    assert Value("0") == 0;
  }

  // Day, month, year and time in this order, for every text of the right shape: a moment when they
  // are a date of the calendar and a time of the day, and nothing otherwise.
  lemma {:induction false} LineOfPieces(d: string, m: string, y: string, h: string, mi: string, se: string,
                                        dd: int, mm: int, yy: int, hh: int, mn: int, ss: int)
    requires Fits(d, dd, 2) && Fits(m, mm, 2) && Fits(y, yy, 4) && Fits(h, hh, 2) && Fits(mi, mn, 2) && Fits(se, ss, 2)
    ensures var s := d + "." + m + "." + y + " " + h + ":" + mi + ":" + se;
            && IsDateLine(s)
            && ParseDateLine(s) == if !IsDate(yy, mm, dd) || 24 <= hh || 60 <= mn || 60 <= ss then None
                 else Some(60 * (DayNumber(yy, mm, dd) * 1440 + hh * 60 + mn) + ss)
  {
    hide Value, IsDate, DayNumber;
    Pieces(d, m, y, h, mi, se);
    var s := d + "." + m + "." + y + " " + h + ":" + mi + ":" + se;
    assert [9, 10, 12, 13, 32][4] == s[10] as int;
  }

  lemma {:induction false} DateLineRoundTrip(ts: int)
    requires DatePrintable(ts)
    ensures IsDateLine(PrintMoment(ts)) && ParseDateLine(PrintMoment(ts)) == Some(Seconds(ts))
  {
    hide PrintPrecise, PrintMoment, Fits, DayNumber, IsDateLine, ParseDateLine, YearOf, MonthOf, DayOfMonth,
         MinuteOfDay;
    var h, mi := MinuteOfDay(ts) / 60, MinuteOfDay(ts) % 60;
    ClockInRange(ts);
    TwoDigits(DayOfMonth(ts));
    TwoDigits(MonthOf(ts));
    YearDigits(YearOf(ts));
    TwoDigits(h);
    TwoDigits(mi);
    ValueZeroZero();
    LineOfPieces(PrintPrecise(DayOfMonth(ts), 2), PrintPrecise(MonthOf(ts), 2), PrintPrecise(YearOf(ts), 4),
                 PrintPrecise(h, 2), PrintPrecise(mi, 2), "00", DayOfMonth(ts), MonthOf(ts), YearOf(ts), h, mi, 0);
    MomentText(ts);
    MomentOfParts(ts);
  }

  lemma {:induction false} ClockInRange(ts: int)
    ensures 0 <= MinuteOfDay(ts) / 60 < 24 && 0 <= MinuteOfDay(ts) % 60 < 60
    ensures IsDate(YearOf(ts), MonthOf(ts), DayOfMonth(ts))
  {
    hide DayNumber;
  }

  lemma {:induction false} MomentText(ts: int)
    ensures PrintMoment(ts)
            == PrintPrecise(DayOfMonth(ts), 2) + "." + PrintPrecise(MonthOf(ts), 2) + "." + PrintPrecise(YearOf(ts), 4)
               + " " + PrintPrecise(MinuteOfDay(ts) / 60, 2) + ":" + PrintPrecise(MinuteOfDay(ts) % 60, 2) + ":" + "00"
  {
    hide PrintPrecise, YearOf, MonthOf, DayOfMonth, MinuteOfDay;
  }

  lemma {:induction false} TrimKeepsMoment(ts: int)
    ensures PrintMoment(ts) != "" && IsDigit(PrintMoment(ts)[0]) && Trim(PrintMoment(ts)) == PrintMoment(ts)
  {
    hide Moment, PrintNat, Digits, Trim, YearOf, MonthOf, DayOfMonth;
    var s := PrintMoment(ts);
    var p := PrintPrecise(DayOfMonth(ts), 2);
    assert s[0] == p[0];
    assert s[|s| - 1] == '0';
  }

  // A year that needs more than four characters makes the line too long to be a date.
  lemma {:induction false} WideYearIsNoDate(ts: int)
    requires !DatePrintable(ts)
    ensures !IsDateCell(PrintMoment(ts))
  {
    hide PrintPrecise, Moment, YearOf;
    TrimKeepsMoment(ts);
    var s := PrintMoment(ts);
    TwoDigits(DayOfMonth(ts));
    TwoDigits(MonthOf(ts));
    TwoDigits(MinuteOfDay(ts) / 60);
    TwoDigits(MinuteOfDay(ts) % 60);
    YearDigits(YearOf(ts));
    assert |s| != 19;
    assert s[|s| - 3] == ':';
  }

  // A printed moment is read back exactly when its year fits four digits; otherwise the cell is
  // not taken for a date at all.
  lemma {:induction false} DateCellRoundTrip(fmt: Formats, ts: int)
    ensures DatePrintable(ts) ==>
              IsDateCell(PrintMoment(ts)) && ParseDateCell(fmt, PrintMoment(ts)) == Some(Seconds(ts))
    ensures !DatePrintable(ts) ==> !IsDateCell(PrintMoment(ts)) && ParseDateCell(fmt, PrintMoment(ts)) == None
  {
    hide PrintMoment, IsDateLine, ParseDateLine, IsNumberLine;
    TrimKeepsMoment(ts);
    if DatePrintable(ts) {
      DateLineRoundTrip(ts);
    } else {
      WideYearIsNoDate(ts);
    }
  }

  // A date text in its pieces; the separator is any white space of ASCII.
  ghost predicate IsDateText(s: string, d: string, m: string, y: string, sep: char, h: string, mi: string, se: string) {
    && s == d + "." + m + "." + y + [sep] + h + ":" + mi + ":" + se && sep as int in [9, 10, 12, 13, 32]
    && |d| == |m| == |h| == |mi| == |se| == 2 && |y| == 4
    && AllDigits(d) && AllDigits(m) && AllDigits(y) && AllDigits(h) && AllDigits(mi) && AllDigits(se)
  }

  // The cells that are taken for dates, for every text.
  lemma {:induction false} DatesByText(s: string)
    ensures IsDateLine(s) <==> exists d, m, y, sep, h, mi, se :: IsDateText(s, d, m, y, sep, h, mi, se)
    ensures IsNumberLine(s) <==> s != "" && forall i :: 0 <= i < |s| ==> s[i] in "0123456789.,"
    ensures IsDateCell(s) <==> IsDateLine(Trim(s)) || IsNumberLine(Trim(s))
  {
    hide Trim;
    DigitsByChar();
    if IsDateLine(s) {
      assert s == s[..2] + "." + s[3..5] + "." + s[6..10] + [s[10]] + s[11..13] + ":" + s[14..16] + ":" + s[17..];
      assert IsDateText(s, s[..2], s[3..5], s[6..10], s[10], s[11..13], s[14..16], s[17..]);
    }
    if d, m, y, sep, h, mi, se :| IsDateText(s, d, m, y, sep, h, mi, se) {
      TextPieces(s, d, m, y, sep, h, mi, se);
    }
  }

  lemma {:induction false} TextPieces(s: string, d: string, m: string, y: string, sep: char, h: string, mi: string,
                                      se: string)
    requires IsDateText(s, d, m, y, sep, h, mi, se)
    ensures IsDateLine(s)
  {
    assert s[..2] == d && s[3..5] == m && s[6..10] == y && s[11..13] == h && s[14..16] == mi && s[17..] == se;
  }

  lemma {:induction false} DigitsByChar()
    ensures forall c {:trigger IsDigit(c)} :: IsDigit(c) <==> c in "0123456789"
  {
  }

  // ---- Serial dates. ----

  // A serial date names the quarter-hour of UTC nearest to it, the later one of two: 44927 is the
  // start of 2023-01-01, and one day is 1.
  lemma {:induction false} SerialIsNearest(zone: int, days: real)
    ensures var start := 60 * (DayNumber(2023, 1, 1) * 1440 + zone);
            var x := SerialMoment(zone, days);
            && (x - 60 * zone) % 900 == 0
            && -450.0 < (x - start) as real - (days - 44927.0) * 86400.0 <= 450.0
  {
    hide DayNumber;
    EpochDays();
    var n := (days * 96.0 + HALF).Floor;
    assert n as real <= days * 96.0 + HALF < n as real + 1.0;
    QuarterSeconds(zone, n);
  }

  lemma {:induction false} EpochDays()
    ensures DayNumber(2023, 1, 1) == DayNumber(1899, 12, 30) + 44927
  {
  }

  lemma {:induction false} QuarterSeconds(zone: int, n: int)
    ensures Seconds(DayNumber(1899, 12, 30) * DAY + zone + Slots(n)) - 60 * zone
            == 900 * (DayNumber(1899, 12, 30) * 96 + n)
  {
    hide DayNumber;
  }

  // One day more is exactly a day later.
  lemma {:induction false} SerialSteps(zone: int, days: real)
    ensures SerialMoment(zone, days + 1.0) == SerialMoment(zone, days) + 86400
    ensures SerialMoment(zone, 44927.0) == 60 * (DayNumber(2023, 1, 1) * 1440 + zone)
  {
    hide DayNumber;
    EpochDays();
    FloorShift(days * 96.0 + HALF, 96);
    assert (44927.0 * 96.0 + HALF).Floor == 44927 * 96;
  }

  lemma {:induction false} FloorShift(x: real, n: int)
    ensures (x + n as real).Floor == x.Floor + n
  {
  }

  // A cell of digits, points and commas is such a date, in days.
  lemma {:induction false} NumberCellIsSerial(fmt: Formats, cell: string, v: real)
    requires IsNumberLine(Trim(cell)) && fmt.number(Trim(cell)) == Some(v)
    ensures IsDateCell(cell) && ParseDateCell(fmt, cell) == Some(SerialMoment(fmt.zone, v / 1000000.0))
  {
    hide Trim, SerialMoment;
    assert !IsDateLine(Trim(cell));
  }

  // The text 44927, read as the number it shows, is the first moment of 2023-01-01 in UTC.
  lemma {:induction false} NewYearCell(fmt: Formats)
    requires fmt.number("44927") == Some(44927000000.0)
    ensures IsDateCell("44927")
    ensures ParseDateCell(fmt, "44927") == Some(60 * (DayNumber(2023, 1, 1) * 1440 + fmt.zone))
  {
    hide DayNumber, SerialMoment;
    assert Trim("44927") == "44927" && IsNumberLine("44927");
    NumberCellIsSerial(fmt, "44927", 44927000000.0);
    SerialSteps(fmt.zone, 0.0);
    assert 44927000000.0 / 1000000.0 == 44927.0;
  }

  // The clock texts: the moment is shown with its day first, then month, year and time.
  lemma {:induction false} MomentAsText(ts: int)
    requires YearOf(ts) == 2023 && MonthOf(ts) == 12 && DayOfMonth(ts) == 31 && MinuteOfDay(ts) == 22 * 60 + 45
    ensures PrintMoment(ts) == "31.12.2023 22:45:00"
  {
    hide YearOf, MonthOf, DayOfMonth, MinuteOfDay, PrintPrecise;
    ClockDigits();
    assert PrintDay(ts) == "31.12.2023";
    assert "31.12.2023" + " " + "22" + ":" + "45" + ":00" == "31.12.2023 22:45:00";
  }

  lemma {:induction false} ClockDigits()
    ensures PrintPrecise(31, 2) == "31" && PrintPrecise(12, 2) == "12" && PrintPrecise(2023, 4) == "2023"
    ensures PrintPrecise(22, 2) == "22" && PrintPrecise(45, 2) == "45"
  {
    TwoDigitText(31);
    TwoDigitText(12);
    TwoDigitText(22);
    TwoDigitText(45);
    FourDigitText();
  }
}
