/**
 Row ids: "CP/YYYY/MM/DD/hh/mm". Printing and scanning follow the Go verbs %0Nd, and the
 theorem says for exactly which moments scanning undoes printing.
 */
module RowId {
  import opened Outcomes
  import opened Calendar

  predicate IsDigit(c: char) { '0' <= c <= '9' }

  function DigitChar(n: int): (c: char)
    requires 0 <= n <= 9
    ensures IsDigit(c) && DigitValue(c) == n
  {
    "0123456789"[n]
  }

  function DigitValue(c: char): int {
    c as int - '0' as int
  }

  function Digits(n: nat): (s: string)
    ensures |s| >= 1
    ensures AllDigits(s)
  {
    if n < 10 then [DigitChar(n)] else Digits(n / 10) + [DigitChar(n % 10)]
  }

  predicate AllDigits(s: string) {
    forall i :: 0 <= i < |s| ==> IsDigit(s[i])
  }

  // The number a run of digits denotes.
  function Value(s: string): int {
    if s == [] then 0 else Value(s[..|s| - 1]) * 10 + DigitValue(s[|s| - 1])
  }

  function Zeros(n: int): (s: string)
    ensures |s| == if n < 0 then 0 else n
    ensures AllDigits(s)
  {
    if n <= 0 then "" else Zeros(n - 1) + "0"
  }

  function PrintNat(n: nat, width: int): (s: string)
    ensures AllDigits(s) && s != ""
  {
    Zeros(width - |Digits(n)|) + Digits(n)
  }

  // %0Wd: the sign counts towards the width, and a wider number is not cut.
  function PrintInt(n: int, width: nat): string {
    if 0 <= n then PrintNat(n, width) else ['-'] + PrintNat(-n, width - 1)
  }

  // The length of the run of digits at the head of s, looking at no more than `width`.
  function DigitRun(s: string, width: nat): (n: nat)
    ensures n <= |s| && n <= width
    ensures AllDigits(s[..n])
    ensures n < width && n < |s| ==> !IsDigit(s[n])
  {
    if width == 0 || s == [] || !IsDigit(s[0]) then 0
    else
      var n := DigitRun(s[1..], width - 1);
      assert s[..n + 1] == [s[0]] + s[1..][..n];
      n + 1
  }

  datatype Scan = Scanned(value: int, rest: string) | Failed

  // Scanning an unsigned number of at most `width` digits.
  function ScanNat(s: string, width: nat): Scan {
    var n := DigitRun(s, width);
    if n == 0 then Failed else Scanned(Value(s[..n]), s[n..])
  }

  // %0Wd on the scanning side: an optional sign, which counts towards the width.
  function ScanInt(s: string, width: nat): Scan {
    if s != "" && width > 0 && s[0] == '-' then
      match ScanNat(s[1..], width - 1)
      case Failed => Failed
      case Scanned(v, rest) => Scanned(-v, rest)
    else if s != "" && width > 0 && s[0] == '+' then ScanNat(s[1..], width - 1)
    else ScanNat(s, width)
  }

  // A literal character followed by a number.
  function ScanAfter(c: char, s: string, width: nat): Scan {
    if s == "" || s[0] != c then Failed else ScanInt(s[1..], width)
  }

  // One "/NN" field in front of the fields that follow it.
  function Field(n: int, width: nat, rest: string): string {
    ['/'] + (PrintInt(n, width) + rest)
  }

  function DayAndTime(ts: int): string {
    Field(DayOfMonth(ts), 2, Field(MinuteOfDay(ts) / 60, 2, Field(MinuteOfDay(ts) % 60, 2, "")))
  }

  function Fields(ts: int): string {
    Field(YearOf(ts), 4, Field(MonthOf(ts), 2, DayAndTime(ts)))
  }

  function RowIdForTs(ts: int): string {
    "CP" + Fields(ts)
  }

  function Moment(y: int, mo: int, d: int, h: int, mi: int): int {
    DayNumber(y, mo, d) * DAY + h * 60 + mi
  }

  // Text after the five numbers is ignored, as Sscanf ignores it.
  function ScanFields(s: string): Result<int> {
    var y := ScanAfter('/', s, 4);
    if y.Failed? then Err("invalid row id") else
    var mo := ScanAfter('/', y.rest, 2);
    if mo.Failed? then Err("invalid row id") else
    var d := ScanAfter('/', mo.rest, 2);
    if d.Failed? then Err("invalid row id") else
    var h := ScanAfter('/', d.rest, 2);
    if h.Failed? then Err("invalid row id") else
    var mi := ScanAfter('/', h.rest, 2);
    if mi.Failed? then Err("invalid row id") else
    Ok(Moment(y.value, mo.value, d.value, h.value, mi.value))
  }

  function ParseRowIdTs(id: string): Result<int> {
    if |id| < 2 || id[..2] != "CP" then Err("invalid row id") else ScanFields(id[2..])
  }

  lemma {:induction false} ValueSnoc(s: string, c: char)
    ensures Value(s + [c]) == Value(s) * 10 + DigitValue(c)
  {
    assert (s + [c])[..|s|] == s;
  }

  lemma {:induction false} ValueZeros(k: int, s: string)
    ensures Value(Zeros(k) + s) == Value(s)
  {
    if s == "" {
      assert Zeros(k) + s == Zeros(k);
      if 0 < k {
        ValueZeros(k - 1, "");
        assert Zeros(k - 1) + "" == Zeros(k - 1);
        ValueSnoc(Zeros(k - 1), '0');
      }
    } else {
      var n := |s| - 1;
      ValueZeros(k, s[..n]);
      assert Zeros(k) + s == (Zeros(k) + s[..n]) + [s[n]];
      ValueSnoc(Zeros(k) + s[..n], s[n]);
    }
  }

  lemma {:induction false} ValueDigits(n: nat)
    ensures Value(Digits(n)) == n
  {
    if n < 10 {
      ValueSnoc("", DigitChar(n));
      assert "" + [DigitChar(n)] == Digits(n);
    } else {
      ValueDigits(n / 10);
      ValueSnoc(Digits(n / 10), DigitChar(n % 10));
    }
  }

  lemma {:induction false} DigitsLength(n: nat)
    ensures |Digits(n)| <= 1 <==> n < 10
    ensures |Digits(n)| <= 2 <==> n < 100
    ensures |Digits(n)| <= 3 <==> n < 1000
    ensures |Digits(n)| <= 4 <==> n < 10000
  {
    if 10 <= n {
      DigitsLength(n / 10);
    }
  }

  // A run of digits no longer than the width is read whole when something else follows.
  lemma {:induction false} RunOfDigits(ds: string, rest: string, width: nat)
    requires AllDigits(ds)
    requires |ds| <= width
    requires |ds| == width || rest == "" || !IsDigit(rest[0])
    ensures DigitRun(ds + rest, width) == |ds|
  {
    if ds == "" {
      assert ds + rest == rest;
    } else {
      assert (ds + rest)[1..] == ds[1..] + rest;
      RunOfDigits(ds[1..], rest, width - 1);
    }
  }

  lemma {:induction false} ScanNatPrinted(n: nat, rest: string, width: nat)
    requires |PrintNat(n, width)| == width
    ensures ScanNat(PrintNat(n, width) + rest, width) == Scanned(n, rest)
  {
    var ds := PrintNat(n, width);
    RunOfDigits(ds, rest, width);
    ValueZeros(width - |Digits(n)|, Digits(n));
    ValueDigits(n);
    assert (ds + rest)[..|ds|] == ds && (ds + rest)[|ds|..] == rest;
  }

  // Reading back a number that fits its width.
  lemma {:induction false} ScanPrinted(n: int, width: nat, rest: string)
    requires 1 < width && |PrintInt(n, width)| == width
    ensures ScanInt(PrintInt(n, width) + rest, width) == Scanned(n, rest)
  {
    hide PrintNat, ScanNat, Digits;
    if 0 <= n {
      var p := PrintNat(n, width);
      ScanNatPrinted(n, rest, width);
      assert (p + rest)[0] == p[0] && IsDigit(p[0]);
    } else {
      var p := PrintNat(-n, width - 1);
      ScanNatPrinted(-n, rest, width - 1);
      assert PrintInt(n, width) == ['-'] + p;
      assert (['-'] + p + rest)[1..] == p + rest;
    }
  }

  // A run of digits wider than the width leaves a digit behind.
  lemma {:induction false} ScanNatTooWide(ds: string, width: nat, rest: string)
    requires 0 < width < |ds| && AllDigits(ds)
    ensures var s := ScanNat(ds + rest, width);
            s.Scanned? && s.rest != "" && IsDigit(s.rest[0])
  {
    var back := ds[width..] + rest;
    assert ds[..width] + back == ds + rest;
    RunOfDigits(ds[..width], back, width);
    assert (ds + rest)[width..] == back;
    assert back[0] == ds[width];
  }

  lemma {:induction false} ScanTooWide(n: int, width: nat, rest: string)
    requires 1 < width < |PrintInt(n, width)|
    ensures var s := ScanInt(PrintInt(n, width) + rest, width);
            s.Scanned? && s.rest != "" && IsDigit(s.rest[0])
  {
    hide ScanNat, Digits, Zeros;
    var p := PrintInt(n, width);
    if 0 <= n {
      assert p == Digits(n);
      ScanNatTooWide(p, width, rest);
      assert (p + rest)[0] == p[0] && IsDigit(p[0]);
    } else {
      assert PrintNat(-n, width - 1) == Digits(-n);
      ScanNatTooWide(Digits(-n), width - 1, rest);
      assert (p + rest)[1..] == Digits(-n) + rest;
    }
  }

  lemma {:induction false} YearWidth(y: int)
    ensures |PrintInt(y, 4)| == 4 <==> -1000 < y < 10000
    ensures |PrintInt(y, 4)| >= 4
  {
    DigitsLength(if 0 <= y then y else -y);
  }

  lemma {:induction false} PrintTwo(n: int)
    requires 0 <= n < 100
    ensures |PrintInt(n, 2)| == 2
  {
    DigitsLength(n);
  }

  // Scanning one printed field.
  lemma {:induction false} ScanField(n: int, width: nat, rest: string)
    requires 1 < width && |PrintInt(n, width)| == width
    ensures ScanAfter('/', Field(n, width, rest), width) == Scanned(n, rest)
  {
    assert Field(n, width, rest)[1..] == PrintInt(n, width) + rest;
    ScanPrinted(n, width, rest);
  }

  lemma {:induction false} ScanTwo(n: int, rest: string)
    requires 0 <= n < 100
    ensures ScanAfter('/', Field(n, 2, rest), 2) == Scanned(n, rest)
  {
    PrintTwo(n);
    ScanField(n, 2, rest);
  }

  lemma {:induction false} MomentOfParts(ts: int)
    ensures Moment(YearOf(ts), MonthOf(ts), DayOfMonth(ts), MinuteOfDay(ts) / 60, MinuteOfDay(ts) % 60) == ts
  {
    var m := MinuteOfDay(ts);
    assert m / 60 * 60 + m % 60 == m;
    assert DayOf(ts) * DAY + m == ts;
  }

  predicate Printable(ts: int) {
    -1000 < YearOf(ts) < 10000
  }

  lemma {:induction false} ScanFieldsPrinted(ts: int)
    requires Printable(ts)
    ensures ScanFields(Fields(ts)) == Ok(ts)
  {
    var h, mi := MinuteOfDay(ts) / 60, MinuteOfDay(ts) % 60;
    YearWidth(YearOf(ts));
    ScanField(YearOf(ts), 4, Field(MonthOf(ts), 2, DayAndTime(ts)));
    ScanTwo(MonthOf(ts), DayAndTime(ts));
    ScanTwo(DayOfMonth(ts), Field(h, 2, Field(mi, 2, "")));
    ScanTwo(h, Field(mi, 2, ""));
    ScanTwo(mi, "");
    MomentOfParts(ts);
  }

  lemma {:induction false} ScanFieldsTooWide(ts: int)
    requires !Printable(ts)
    ensures ScanFields(Fields(ts)).Err?
  {
    var p, rest := PrintInt(YearOf(ts), 4), Field(MonthOf(ts), 2, DayAndTime(ts));
    YearWidth(YearOf(ts));
    ScanTooWide(YearOf(ts), 4, rest);
    assert Fields(ts)[1..] == p + rest;
  }

  // Scanning undoes printing for exactly the moments whose year fits four characters.
  lemma {:induction false} RowIdRoundTrip(ts: int)
    ensures ParseRowIdTs(RowIdForTs(ts)) == Ok(ts) <==> Printable(ts)
    ensures ParseRowIdTs(RowIdForTs(ts)).Err? <==> !Printable(ts)
  {
    assert RowIdForTs(ts)[..2] == "CP" && RowIdForTs(ts)[2..] == Fields(ts);
    if Printable(ts) {
      ScanFieldsPrinted(ts);
    } else {
      ScanFieldsTooWide(ts);
    }
  }

  lemma {:induction false} StartOfYear(y: int) returns (ts: int)
    ensures YearOf(ts) == y && MonthOf(ts) == DayOfMonth(ts) == 1 && MinuteOfDay(ts) == 0
  {
    hide DaysBeforeYear, YearOfDay;
    ts := Moment(y, 1, 1, 0, 0);
    DateRoundTrip(Date(y, 1, 1));
  }

  lemma {:induction false} DigitsOfYear()
    ensures Digits(10000) == "10000" && Digits(1) == "1" && Digits(0) == "0"
  {
    assert Digits(10) == "10";
    assert Digits(100) == Digits(10) + "0";
    assert Digits(1000) == Digits(100) + "0";
    assert Digits(10000) == Digits(1000) + "0";
  }

  lemma {:induction false} PrintedParts()
    ensures PrintInt(10000, 4) == "10000" && PrintInt(1, 2) == "01" && PrintInt(0, 2) == "00"
  {
    DigitsOfYear();
    hide Digits;
    assert Zeros(1) == "0" && Zeros(0 - 1) == "";
    assert "0" + "1" == "01" && "0" + "0" == "00" && "" + "10000" == "10000";
  }

  lemma {:induction false} JoinedParts()
    ensures Field(10000, 4, Field(1, 2, Field(1, 2, Field(0, 2, Field(0, 2, ""))))) == "/10000/01/01/00/00"
  {
    PrintedParts();
    hide PrintInt;
    assert Field(0, 2, "") == "/00";
    assert Field(0, 2, "/00") == "/00/00";
    assert Field(1, 2, "/00/00") == "/01/00/00";
    assert Field(1, 2, "/01/00/00") == "/01/01/00/00";
  }

  // The first moment of the year 10000: five digits are printed, and four are scanned.
  lemma {:induction false} WideYearIsRefused() returns (ts: int)
    ensures RowIdForTs(ts) == "CP/10000/01/01/00/00" && ParseRowIdTs(RowIdForTs(ts)).Err?
  {
    hide Field, YearOf, MonthOf, DayOfMonth, MinuteOfDay, ParseRowIdTs;
    ts := StartOfYear(10000);
    JoinedParts();
    assert Fields(ts) == "/10000/01/01/00/00";
    RowIdRoundTrip(ts);
  }

  // A row id shows year, month, day, hour and minute in this order.
  lemma {:induction false} RowIdAsText(ts: int)
    requires YearOf(ts) == 2023 && MonthOf(ts) == 12 && DayOfMonth(ts) == 31 && MinuteOfDay(ts) == 22 * 60 + 45
    ensures RowIdForTs(ts) == "CP/2023/12/31/22/45"
  {
    hide YearOf, MonthOf, DayOfMonth, MinuteOfDay, Field;
    TextParts();
    assert Fields(ts) == "/2023/12/31/22/45";
  }

  lemma {:induction false} TextParts()
    ensures Field(2023, 4, Field(12, 2, Field(31, 2, Field(22, 2, Field(45, 2, ""))))) == "/2023/12/31/22/45"
  {
    ClockTexts();
    hide PrintInt;
    assert Field(45, 2, "") == "/45";
    assert Field(22, 2, "/45") == "/22/45";
    assert Field(31, 2, "/22/45") == "/31/22/45";
    assert Field(12, 2, "/31/22/45") == "/12/31/22/45";
  }

  lemma {:induction false} ClockTexts()
    ensures PrintInt(2023, 4) == "2023" && PrintInt(12, 2) == "12" && PrintInt(31, 2) == "31"
    ensures PrintInt(22, 2) == "22" && PrintInt(45, 2) == "45"
  {
    hide PrintInt, Digits;
    TwoDigitText(12);
    TwoDigitText(31);
    TwoDigitText(22);
    TwoDigitText(45);
    FourDigitText();
  }

  lemma {:induction false} TwoDigitText(n: nat)
    requires 10 <= n < 100
    ensures PrintInt(n, 2) == [DigitChar(n / 10), DigitChar(n % 10)] == Digits(n)
  {
    assert Digits(n) == Digits(n / 10) + [DigitChar(n % 10)] && Digits(n / 10) == [DigitChar(n / 10)];
    assert Zeros(2 - |Digits(n)|) == "";
  }

  lemma {:induction false} FourDigitText()
    ensures PrintInt(2023, 4) == Digits(2023) == "2023"
  {
    assert Digits(20) == [DigitChar(2), DigitChar(0)];
    assert Digits(202) == Digits(20) + [DigitChar(2)];
    assert Digits(2023) == Digits(202) + [DigitChar(3)];
    assert Zeros(4 - |Digits(2023)|) == "";
  }
}
