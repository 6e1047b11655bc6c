/**
 Export and import as a printer and a parser: reading an exported sheet gives back the
 metering points, numbered in export order, and every exported value.
 */
module SheetRoundTrip {
  import opened Outcomes
  import opened Calendar
  import opened Codes
  import opened CounterPoints
  import opened DateCells
  import opened Loader
  import opened RawLine
  import opened Rounding
  import opened RowId
  import opened SheetExport
  import opened SheetImport

  // ---- Labels. ----

  function KindFor(d: Direction, j: nat): Kind
    requires j < Stride(d)
  {
    match d
    case Consumer => if j == 0 then TotalCode else if j == 1 then ShareCode else CoverageCode
    case Producer => if j == 0 then TotalProdCode else ProfitCode
  }

  // A text without one letter of a word, or without two of its letters in a row, does not
  // contain the word.
  lemma {:induction false} LacksLetter(s: string, sub: string, k: nat)
    requires k < |sub| && sub[k] !in s
    ensures !Contains(s, sub)
  {
    forall i: nat ensures !OccursAt(s, sub, i) {
      if i + |sub| <= |s| {
        assert s[i..i + |sub|][k] == s[i + k];
      }
    }
  }

  predicate NoPair(s: string, x: char, y: char) {
    forall i :: 0 <= i < |s| - 1 && s[i] == x ==> s[i + 1] != y
  }

  lemma {:induction false} LacksPair(s: string, sub: string, k: nat)
    requires k + 1 < |sub| && NoPair(s, sub[k], sub[k + 1])
    ensures !Contains(s, sub)
  {
    forall i: nat ensures !OccursAt(s, sub, i) {
      if i + |sub| <= |s| {
        assert s[i..i + |sub|][k] == s[i + k] && s[i..i + |sub|][k + 1] == s[i + k + 1];
      }
    }
  }

  lemma {:induction false} LacksLetterPlus(a: string, b: string, sub: string, k: nat)
    requires k < |sub| && sub[k] !in a && sub[k] !in b
    ensures !Contains(a + b, sub)
  {
    LacksLetter(a + b, sub, k);
  }

  lemma {:induction false} LacksPairPlus(a: string, b: string, sub: string, k: nat)
    requires k + 1 < |sub| && NoPair(a, sub[k], sub[k + 1]) && NoPair(b, sub[k], sub[k + 1])
             && (a == "" || a[|a| - 1] != sub[k])
    ensures !Contains(a + b, sub)
  {
    LacksPair(a + b, sub, k);
  }

  lemma {:induction false} UpperPlus(a: string, b: string)
    ensures Upper(a + b) == Upper(a) + Upper(b)
  {
  }

  lemma {:induction false} WordAt(a: string, word: string, b: string)
    ensures Contains(a + (word + b), word)
  {
    assert OccursAt(a + (word + b), word, |a|);
  }

  lemma {:induction false} WordAhead(word: string, b: string)
    ensures Contains(word + b, word)
  {
    WordAt("", word, b);
    assert "" + (word + b) == word + b;
  }

  const UPPER_COMMUNITY := " GEMEINSCHAFTLICHE ERZEUGUNG [KWH]"

  lemma {:induction false} UpperCommunity()
    ensures Upper(COMMUNITY) == UPPER_COMMUNITY
  {
  }

  lemma {:induction false} CommunityLetters()
    ensures 'V' !in UPPER_COMMUNITY && NoPair(UPPER_COMMUNITY, 'S', 'A') && NoPair(UPPER_COMMUNITY, 'A', 'N')
  {
    hide UPPER_COMMUNITY;
    CommunityPairs('S', 'A');
    CommunityPairs('A', 'N');
    assert 'V' !in UPPER_COMMUNITY by {
      NoV();
    }
  }

  lemma {:induction false} NoV()
    ensures 'V' !in UPPER_COMMUNITY
  {
  }

  lemma {:induction false} CommunityPairs(x: char, y: char)
    requires (x == 'S' && y == 'A') || (x == 'A' && y == 'N')
    ensures NoPair(UPPER_COMMUNITY, x, y)
  {
  }

  lemma {:induction false} ConsumedLabel()
    ensures ClassifyMeterCode(Upper(TOTAL_CONSUMED)) == TotalCode
  {
    var word, rest := "Gesamtverbrauch", " lt. Messung (bei Teilnahme gem. Erzeugung) [KWH]";
    UpperPlus(word, rest);
    assert Upper(word) == "GESAMTVERBRAUCH";
    WordAhead(Upper(word), Upper(rest));
  }

  // The words that come first, in a label that goes on with the community text.
  lemma {:induction false} NotConsumed(word: string)
    requires 'V' !in word
    ensures !Contains(word + UPPER_COMMUNITY, "GESAMTVERBRAUCH")
  {
    hide UPPER_COMMUNITY;
    CommunityLetters();
    assert "GESAMTVERBRAUCH"[6] == 'V';
    LacksLetterPlus(word, UPPER_COMMUNITY, "GESAMTVERBRAUCH", 6);
  }

  lemma {:induction false} NotProduced(word: string)
    requires NoPair(word, 'S', 'A') && word != "" && word[|word| - 1] != 'S'
    ensures !Contains(word + UPPER_COMMUNITY, "GESAMTE GEMEINSCHAFTLICHE")
  {
    hide UPPER_COMMUNITY;
    CommunityLetters();
    assert "GESAMTE GEMEINSCHAFTLICHE"[2] == 'S' && "GESAMTE GEMEINSCHAFTLICHE"[3] == 'A';
    LacksPairPlus(word, UPPER_COMMUNITY, "GESAMTE GEMEINSCHAFTLICHE", 2);
  }

  lemma {:induction false} NotShare(word: string)
    requires NoPair(word, 'A', 'N') && word != "" && word[|word| - 1] != 'A'
    ensures !Contains(word + UPPER_COMMUNITY, "ANTEIL")
  {
    hide UPPER_COMMUNITY;
    CommunityLetters();
    assert "ANTEIL"[0] == 'A' && "ANTEIL"[1] == 'N';
    LacksPairPlus(word, UPPER_COMMUNITY, "ANTEIL", 0);
  }

  lemma {:induction false} ShareLabel()
    ensures ClassifyMeterCode(Upper(SHARE_OF_COMMUNITY)) == ShareCode
  {
    UpperPlus("Anteil", COMMUNITY);
    assert Upper("Anteil") == "ANTEIL";
    UpperCommunity();
    hide UPPER_COMMUNITY, Upper, Contains;
    NotConsumed("ANTEIL");
    NotProduced("ANTEIL");
    WordAhead("ANTEIL", UPPER_COMMUNITY);
  }

  lemma {:induction false} CoverageLabel()
    ensures ClassifyMeterCode(Upper(OWN_COVERAGE)) == CoverageCode
  {
    UpperPlus("Eigendeckung", COMMUNITY);
    assert Upper("Eigendeckung") == "EIGENDECKUNG";
    UpperCommunity();
    hide UPPER_COMMUNITY, Upper, Contains;
    NotConsumed("EIGENDECKUNG");
    NotProduced("EIGENDECKUNG");
    NotShare("EIGENDECKUNG");
    WordAhead("EIGENDECKUNG", UPPER_COMMUNITY);
  }

  lemma {:induction false} UpperProduced()
    ensures Upper(TOTAL_PRODUCED) == "GESAMTE GEMEINSCHAFTLICHE" + " ERZEUGUNG [KWH]"
    ensures 'V' !in "GESAMTE GEMEINSCHAFTLICHE" && 'V' !in " ERZEUGUNG [KWH]"
  {
    UpperPlus("Gesamte gemeinschaftliche", " Erzeugung [KWH]");
    assert Upper("Gesamte gemeinschaftliche") == "GESAMTE GEMEINSCHAFTLICHE";
    assert Upper(" Erzeugung [KWH]") == " ERZEUGUNG [KWH]";
  }

  lemma {:induction false} ProducedLabel()
    ensures ClassifyMeterCode(Upper(TOTAL_PRODUCED)) == TotalProdCode
  {
    hide Upper, Contains, TOTAL_PRODUCED;
    UpperProduced();
    WordLetters();
    LacksLetterPlus("GESAMTE GEMEINSCHAFTLICHE", " ERZEUGUNG [KWH]", "GESAMTVERBRAUCH", 6);
    WordAhead("GESAMTE GEMEINSCHAFTLICHE", " ERZEUGUNG [KWH]");
  }

  const UPPER_SURPLUS_REST := ", GEMEINSCHAFTSÜBERSCHUSS [KWH]"

  lemma {:induction false} UpperSurplusHead()
    ensures Upper("Gesamt/") == "GESAMT/" && Upper("Überschusserzeugung") == "ÜBERSCHUSSERZEUGUNG"
  {
  }

  lemma {:induction false} UpperSurplusRest()
    ensures Upper(", Gemeinschaftsüberschuss [KWH]") == UPPER_SURPLUS_REST
  {
  }

  lemma {:induction false} UpperSurplus()
    ensures Upper(SURPLUS) == "GESAMT/" + ("ÜBERSCHUSSERZEUGUNG" + UPPER_SURPLUS_REST)
  {
    hide Upper, UPPER_SURPLUS_REST;
    UpperPlus("Gesamt/", "Überschusserzeugung" + ", Gemeinschaftsüberschuss [KWH]");
    UpperPlus("Überschusserzeugung", ", Gemeinschaftsüberschuss [KWH]");
    UpperSurplusHead();
    UpperSurplusRest();
  }

  lemma {:induction false} SurplusLetters(c: char)
    requires c == 'V' || c == 'L' || c == 'D'
    ensures c !in "GESAMT/" && c !in "ÜBERSCHUSSERZEUGUNG" && c !in UPPER_SURPLUS_REST
  {
    assert c !in "GESAMT/";
    assert c !in "ÜBERSCHUSSERZEUGUNG";
    SurplusRestLetters(c);
  }

  lemma {:induction false} SurplusRestLetters(c: char)
    requires c == 'V' || c == 'L' || c == 'D'
    ensures c !in UPPER_SURPLUS_REST
  {
  }

  lemma {:induction false} WordLetters()
    ensures "GESAMTVERBRAUCH"[6] == 'V' && "GESAMTE GEMEINSCHAFTLICHE"[20] == 'L' && "ANTEIL"[5] == 'L'
            && "EIGENDECKUNG"[5] == 'D'
  {
  }

  lemma {:induction false} LacksLetterThrice(a: string, word: string, b: string, sub: string, k: nat)
    requires k < |sub| && sub[k] !in a && sub[k] !in word && sub[k] !in b
    ensures !Contains(a + (word + b), sub)
  {
    LacksLetterPlus(a, word + b, sub, k);
  }

  lemma {:induction false} SurplusLabel()
    ensures ClassifyMeterCode(Upper(SURPLUS)) == ProfitCode
  {
    hide Upper, Contains, UPPER_SURPLUS_REST, SURPLUS;
    UpperSurplus();
    SurplusLetters('V');
    SurplusLetters('L');
    SurplusLetters('D');
    WordLetters();
    var a, word, b := "GESAMT/", "ÜBERSCHUSSERZEUGUNG", UPPER_SURPLUS_REST;
    LacksLetterThrice(a, word, b, "GESAMTVERBRAUCH", 6);
    LacksLetterThrice(a, word, b, "GESAMTE GEMEINSCHAFTLICHE", 20);
    LacksLetterThrice(a, word, b, "ANTEIL", 5);
    LacksLetterThrice(a, word, b, "EIGENDECKUNG", 5);
    WordAt(a, word, b);
  }

  // Every exported label is recognised as what it stands for.
  lemma {:induction false} LabelsClassify(d: Direction, j: nat)
    requires j < Stride(d)
    ensures ClassifyMeterCode(Upper(MeterCode(d, j))) == KindFor(d, j)
    ensures KindFor(d, j) != BadCode && Role(KindFor(d, j)) == j
  {
    hide ClassifyMeterCode, Upper;
    ConsumedLabel();
    ShareLabel();
    CoverageLabel();
    ProducedLabel();
    SurplusLabel();
  }

  lemma {:induction false} TitlesClassify()
    ensures RowKindOf("MeteringpointID") == IdRow && RowKindOf("Name") == SkippedRow
            && RowKindOf("Energy direction") == DirectionRow
    ensures RowKindOf("Period start") == StartRow && RowKindOf("Period end") == EndRow
            && RowKindOf("Metercode") == CodeRow
  {
    hide SKIPPED;
    SkippedTitles();
  }

  lemma {:induction false} SkippedTitles()
    ensures "Name" in SKIPPED && "Energy direction" !in SKIPPED
    ensures "Period start" !in SKIPPED && "Period end" !in SKIPPED && "Metercode" !in SKIPPED
  {
    assert SKIPPED[2] == "Name";
    assert forall t :: t in SKIPPED ==> t[0] != 'E' && t[0] != 'P' && |t| != 9;
  }

  // A text that starts with a digit is no title.
  lemma {:induction false} DigitsAreNoTitle(s: string)
    requires s != "" && IsDigit(s[0])
    ensures RowKindOf(s) == OtherRow
  {
  }

  // ---- Reading a sheet. ----

  function ReadCell(fmt: Formats, c: Cell): string {
    match c
    case Text(s) => s
    case Num(v) => fmt.show(v)
  }

  function ReadRow(fmt: Formats, row: seq<Cell>): (r: seq<string>)
    ensures |r| == |row| && forall k :: 0 <= k < |row| ==> r[k] == ReadCell(fmt, row[k])
  {
    seq(|row|, k requires 0 <= k < |row| => ReadCell(fmt, row[k]))
  }

  function ReadSheet(fmt: Formats, sheet: Sheet): (r: seq<seq<string>>)
    ensures |r| == |sheet| && forall n :: 0 <= n < |sheet| ==> r[n] == ReadRow(fmt, sheet[n])
  {
    seq(|sheet|, n requires 0 <= n < |sheet| => ReadRow(fmt, sheet[n]))
  }

  // The spreadsheet library keeps six-decimal numbers.
  ghost predicate Faithful(fmt: Formats) {
    forall v :: Micro(v) ==> ReadNumber(fmt, fmt.show(v)) == v
  }

  // Numbers of millionths, as text.
  function ShowUnits(v: real): (s: string)
    ensures s != "" && (IsDigit(s[0]) || s[0] == '-') && IsDigit(s[|s| - 1])
  {
    if 0 <= v.Floor then Digits(v.Floor) else ['-'] + Digits(-v.Floor)
  }

  function ReadUnits(s: string): Option<real> {
    if s == "" then None
    else if s[0] == '-' then Some(-(Value(s[1..]) as real))
    else Some(Value(s) as real)
  }

  lemma {:induction false} UnitsReadBack(v: real)
    requires Micro(v)
    ensures ReadUnits(ShowUnits(v)) == Some(v) && Trim(ShowUnits(v)) == ShowUnits(v)
  {
    hide Digits, Value, TrimLeft, TrimRight;
    var n := v.Floor;
    ValueDigits(if 0 <= n then n else -n);
    if n < 0 {
      assert ShowUnits(v)[1..] == Digits(-n);
    }
  }

  // There is such a library: it shows a number as its millionths.
  lemma {:induction false} UnitsAreFaithful(zone: int)
    ensures Faithful(Formats(ShowUnits, ReadUnits, zone))
  {
    hide Micro, ShowUnits, ReadUnits, Trim;
    forall v | Micro(v) ensures ReadNumber(Formats(ShowUnits, ReadUnits, zone), ShowUnits(v)) == v {
      UnitsReadBack(v);
    }
  }

  // A name the import takes over as it is.
  predicate Importable(name: string) {
    Trim(name) == name && NameOk(name)
  }

  ghost predicate AllImportable(meta: seq<CounterPoint>) {
    forall i :: 0 <= i < |meta| ==> Importable(meta[i].meter)
  }

  // ---- The header comes back. ----

  // The header of the context by columns.
  ghost predicate IsExported(fmt: Formats, ctx: RunnerContext, h: Columns)
    requires ctx.Valid()
  {
    && |h.ids| == |h.dirs| == |h.codes| == |h.starts| == |h.ends| == ctx.Columns()
    && forall k :: 0 <= k < ctx.Columns() ==> ColumnExported(fmt, ctx, h, k)
  }

  predicate ColumnExported(fmt: Formats, ctx: RunnerContext, h: Columns, k: nat)
    requires ctx.Valid() && k < ctx.Columns()
    requires |h.ids| == |h.dirs| == |h.codes| == |h.starts| == |h.ends| == ctx.Columns()
  {
    var m, j := ctx.meta[OwnerAt(ctx.countCons, k)], SlotAt(ctx.countCons, k);
    && h.ids[k] == m.meter && h.dirs[k] == Some(m.direction) && h.codes[k] == KindFor(m.direction, j)
    && h.starts[k] == ParseDateCell(fmt, PeriodStartCell(ctx, m))
         && h.ends[k] == ParseDateCell(fmt, PeriodEndCell(ctx, m))
  }

  function HeaderOf(h: Columns): Header {
    Header(Some(h.ids), Some(h.dirs), Some(h.codes), h.starts, h.ends)
  }

  function TitledText(fmt: Formats, ctx: RunnerContext, value: (CounterPoint, nat) -> Cell, k: nat): string
    requires ctx.Valid() && k < ctx.Columns()
  {
    ReadCell(fmt, value(ctx.meta[OwnerAt(ctx.countCons, k)], SlotAt(ctx.countCons, k)))
  }

  lemma {:induction false} TitledRow(fmt: Formats, ctx: RunnerContext, title: string,
                                     value: (CounterPoint, nat) -> Cell,
                                     row: seq<Cell>)
    requires ctx.Valid() && IsTitled(ctx, title, value, row)
    ensures var r := ReadRow(fmt, row);
            && r != [] && r[0] == title && |r[1..]| == ctx.Columns()
            && forall k :: 0 <= k < ctx.Columns() ==> r[1..][k] == TitledText(fmt, ctx, value, k)
  {
    forall k | 0 <= k < ctx.Columns() ensures ReadRow(fmt, row)[1..][k] == TitledText(fmt, ctx, value, k) {
      assert row[1..][k] == row[k + 1];
    }
  }

  // What the six header rows leave in the header.
  function DecodedColumns(fmt: Formats, rows: seq<seq<string>>): Columns
    requires 7 <= |rows| && forall n :: 1 <= n < 7 ==> rows[n] != []
  {
    Columns(rows[1][1..], ParseDirections(rows[3][1..]), ParseKinds(rows[6][1..]), ParseDates(fmt, rows[4][1..]),
            ParseDates(fmt, rows[5][1..]))
  }

  lemma {:induction false} ScanSnoc(fmt: Formats, rows: seq<seq<string>>, n: nat)
    requires n < |rows|
    ensures ReadRows(fmt, rows[..n + 1]) == ReadNextRow(fmt, ReadRows(fmt, rows[..n]), rows[n])
  {
    assert rows[..n + 1][..n] == rows[..n];
  }

  predicate HasTitles(rows: seq<seq<string>>) {
    && 7 <= |rows| && rows[0] == []
    && (forall n :: 1 <= n < 7 ==> rows[n] != [])
    && rows[1][0] == "MeteringpointID" && rows[2][0] == "Name" && rows[3][0] == "Energy direction"
    && rows[4][0] == "Period start" && rows[5][0] == "Period end" && rows[6][0] == "Metercode"
  }

  lemma {:induction false} HeaderScan(fmt: Formats, rows: seq<seq<string>>)
    requires HasTitles(rows)
    ensures ReadRows(fmt, rows[..7]) == State(HeaderOf(DecodedColumns(fmt, rows)), None, [], false)
  {
    TitlesClassify();
    hide RowKindOf, ClassifyMeterCode, ParseDateCell, IsDateCell, ParseDirection, ReadRows, AtData;
    StartScan(fmt, rows);
    ScanSnoc(fmt, rows, 0);
    ScanSnoc(fmt, rows, 1);
    ScanSnoc(fmt, rows, 2);
    ScanSnoc(fmt, rows, 3);
    ScanSnoc(fmt, rows, 4);
    ScanSnoc(fmt, rows, 5);
    ScanSnoc(fmt, rows, 6);
  }

  lemma {:induction false} StartScan(fmt: Formats, rows: seq<seq<string>>)
    ensures ReadRows(fmt, rows[..0]) == START
  {
  }

  lemma {:induction false} HeaderDecodes(fmt: Formats, ctx: RunnerContext, sheet: Sheet)
    requires ctx.Valid() && HasHeader(ctx, sheet)
    ensures HasTitles(ReadSheet(fmt, sheet)) && IsExported(fmt, ctx, DecodedColumns(fmt, ReadSheet(fmt, sheet)))
  {
    hide IsTitled, PeriodStartCell, PeriodEndCell, ParseDateCell, ClassifyMeterCode, MeterCode, DirectionString,
         ParseDirection;
    var rows := ReadSheet(fmt, sheet);
    TitledRow(fmt, ctx, "MeteringpointID", IdValue(ctx), sheet[1]);
    TitledRow(fmt, ctx, "Name", NameValue(ctx), sheet[2]);
    TitledRow(fmt, ctx, "Energy direction", DirectionValue(ctx), sheet[3]);
    TitledRow(fmt, ctx, "Period start", StartValue(ctx), sheet[4]);
    TitledRow(fmt, ctx, "Period end", EndValue(ctx), sheet[5]);
    TitledRow(fmt, ctx, "Metercode", CodeValue(ctx), sheet[6]);
    assert HasTitles(rows);
    var h := DecodedColumns(fmt, rows);
    forall k | 0 <= k < ctx.Columns() ensures ColumnExported(fmt, ctx, h, k) {
      OwnerInRange(ctx, k);
      var m, j := ctx.meta[OwnerAt(ctx.countCons, k)], SlotAt(ctx.countCons, k);
      DirectionRoundTrip(m.direction);
      LabelsClassify(m.direction, j);
    }
  }

  // ---- Numbering. ----

  lemma {:induction false} ColumnOwner(fmt: Formats, ctx: RunnerContext, h: Columns, k: nat)
    requires ctx.Valid() && IsExported(fmt, ctx, h) && AllImportable(ctx.meta) && k < ctx.Columns()
    ensures OwnerAt(ctx.countCons, k) < |ctx.meta| && Owner(h, k) == Some(ctx.meta[OwnerAt(ctx.countCons, k)].meter)
    ensures Role(KindAt(h, k)) == SlotAt(ctx.countCons, k)
  {
    hide NameOk, Trim, OwnerAt, SlotAt, ParseDateCell, PeriodStartCell, PeriodEndCell, Base;
    OwnerInRange(ctx, k);
    assert ColumnExported(fmt, ctx, h, k);
    assert Importable(ctx.meta[OwnerAt(ctx.countCons, k)].meter);
  }

  // Every column of the i-th metering point is where the layout put it.
  lemma {:induction false} ColumnsOfMeter(fmt: Formats, ctx: RunnerContext, h: Columns, i: nat)
    requires ctx.Valid() && IsExported(fmt, ctx, h) && AllImportable(ctx.meta) && DistinctMeters(ctx.meta)
             && i < |ctx.meta|
    ensures var m, b := ctx.meta[i], Base(ctx.countCons, i);
            && FirstColumn(h, m.meter, |h.ids|) == b
            && LastColumn(h, m.meter, 0, |h.ids|) == b && LastColumn(h, m.meter, 1, |h.ids|) == b + 1
            && LastColumn(h, m.meter, 2, |h.ids|) == if m.direction == Consumer then b + 2 else -1
  {
    hide Owner, KindAt, Role, IsExported, Importable, OwnerAt, SlotAt, Base, FirstColumn, LastColumn;
    var mp, c := ctx.meta[i].meter, ctx.countCons;
    forall k | 0 <= k < ctx.Columns() ensures Owner(h, k) == Some(mp) <==> OwnerAt(c, k) == i {
      ColumnOwner(fmt, ctx, h, k);
    }
    RoleColumn(fmt, ctx, h, i, 0);
    RoleColumn(fmt, ctx, h, i, 1);
    if ctx.meta[i].direction == Consumer {
      RoleColumn(fmt, ctx, h, i, 2);
    } else {
      NoCoverage(fmt, ctx, h, i);
    }
    FirstIsBase(fmt, ctx, h, i);
  }

  lemma {:induction false} BlockInRange(ctx: RunnerContext, i: nat, j: nat)
    requires ctx.Valid() && i < |ctx.meta| && j < Stride(ctx.meta[i].direction)
    ensures Base(ctx.countCons, i) + j < ctx.Columns()
    ensures forall k: nat :: k < ctx.Columns() && OwnerAt(ctx.countCons, k) == i ==> Base(ctx.countCons, i) <= k
  {
  }

  lemma {:induction false} RoleColumn(fmt: Formats, ctx: RunnerContext, h: Columns, i: nat, j: nat)
    requires ctx.Valid() && IsExported(fmt, ctx, h) && AllImportable(ctx.meta) && i < |ctx.meta|
             && j < Stride(ctx.meta[i].direction)
    requires forall k :: 0 <= k < ctx.Columns() ==>
               (Owner(h, k) == Some(ctx.meta[i].meter) <==> OwnerAt(ctx.countCons, k) == i)
    ensures LastColumn(h, ctx.meta[i].meter, j, |h.ids|) == Base(ctx.countCons, i) + j
  {
    hide Owner, KindAt, Role, Importable, OwnerAt, SlotAt, Base, LastColumn, ColumnExported;
    var b := Base(ctx.countCons, i) + j;
    BlockInRange(ctx, i, j);
    ColumnsAreBlocks(ctx.countCons, i, j, b);
    ColumnOwner(fmt, ctx, h, b);
    var l := LastColumn(h, ctx.meta[i].meter, j, |h.ids|);
    assert 0 <= l;
    ColumnOwner(fmt, ctx, h, l);
    ColumnsAreBlocks(ctx.countCons, i, j, l);
  }

  lemma {:induction false} NoCoverage(fmt: Formats, ctx: RunnerContext, h: Columns, i: nat)
    requires ctx.Valid() && IsExported(fmt, ctx, h) && AllImportable(ctx.meta) && i < |ctx.meta|
             && ctx.meta[i].direction == Producer
    requires forall k :: 0 <= k < ctx.Columns() ==>
               (Owner(h, k) == Some(ctx.meta[i].meter) <==> OwnerAt(ctx.countCons, k) == i)
    ensures LastColumn(h, ctx.meta[i].meter, 2, |h.ids|) == -1
  {
    hide Owner, KindAt, Role, Importable, OwnerAt, SlotAt, Base, LastColumn, ColumnExported;
    var l := LastColumn(h, ctx.meta[i].meter, 2, |h.ids|);
    if 0 <= l {
      ColumnOwner(fmt, ctx, h, l);
      OwnerInRange(ctx, l);
    }
  }

  lemma {:induction false} FirstIsBase(fmt: Formats, ctx: RunnerContext, h: Columns, i: nat)
    requires ctx.Valid() && IsExported(fmt, ctx, h) && i < |ctx.meta|
    requires forall k :: 0 <= k < ctx.Columns() ==>
               (Owner(h, k) == Some(ctx.meta[i].meter) <==> OwnerAt(ctx.countCons, k) == i)
    ensures FirstColumn(h, ctx.meta[i].meter, |h.ids|) == Base(ctx.countCons, i)
  {
    hide Owner, OwnerAt, SlotAt, Base, FirstColumn, ColumnExported;
    var b, f := Base(ctx.countCons, i), FirstColumn(h, ctx.meta[i].meter, |h.ids|);
    BlockInRange(ctx, i, 0);
    ColumnsAreBlocks(ctx.countCons, i, 0, b);
  }

  // The first columns of all metering points, in order.
  function Bases(ctx: RunnerContext): (bs: seq<nat>)
    ensures |bs| == |ctx.meta| && forall i :: 0 <= i < |bs| ==> bs[i] == Base(ctx.countCons, i)
  {
    seq(|ctx.meta|, i requires 0 <= i < |ctx.meta| => Base(ctx.countCons, i))
  }

  lemma {:induction false} TotalsAreBases(fmt: Formats, ctx: RunnerContext, h: Columns)
    requires ctx.Valid() && IsExported(fmt, ctx, h) && AllImportable(ctx.meta) && DistinctMeters(ctx.meta)
    ensures TotalColumns(h, |h.ids|) == Bases(ctx)
  {
    hide Owner, IsExported, Importable, OwnerAt, SlotAt, LastColumn, FirstColumn, KindAt, Role;
    var cols := TotalColumns(h, |h.ids|);
    assert |h.ids| == ctx.Columns() by {
      ExportedWidth(fmt, ctx, h);
    }
    hide TotalColumns;
    forall x ensures x in cols <==> x in Bases(ctx) {
      if x in cols {
        TotalIsBase(fmt, ctx, h, x);
        assert Bases(ctx)[OwnerAt(ctx.countCons, x)] == x;
      }
      if x in Bases(ctx) {
        var i :| 0 <= i < |ctx.meta| && Base(ctx.countCons, i) == x;
        BaseIsTotal(fmt, ctx, h, i);
      }
    }
    AscendingIsUnique(cols, Bases(ctx));
  }

  lemma {:induction false} ExportedWidth(fmt: Formats, ctx: RunnerContext, h: Columns)
    requires ctx.Valid() && IsExported(fmt, ctx, h)
    ensures |h.ids| == |h.dirs| == |h.codes| == |h.starts| == |h.ends| == ctx.Columns()
  {
  }

  lemma {:induction false} TotalIsBase(fmt: Formats, ctx: RunnerContext, h: Columns, x: nat)
    requires ctx.Valid() && IsExported(fmt, ctx, h) && AllImportable(ctx.meta) && DistinctMeters(ctx.meta)
    requires x < ctx.Columns() && IsTotalColumn(h, x)
    ensures OwnerAt(ctx.countCons, x) < |ctx.meta| && x == Base(ctx.countCons, OwnerAt(ctx.countCons, x))
  {
    hide Owner, IsExported, Importable, LastColumn, FirstColumn, KindAt, Role, OwnerAt, SlotAt, Base;
    ColumnOwner(fmt, ctx, h, x);
    ColumnsOfMeter(fmt, ctx, h, OwnerAt(ctx.countCons, x));
  }

  lemma {:induction false} BaseIsTotal(fmt: Formats, ctx: RunnerContext, h: Columns, i: nat)
    requires ctx.Valid() && IsExported(fmt, ctx, h) && AllImportable(ctx.meta) && DistinctMeters(ctx.meta)
             && i < |ctx.meta|
    ensures Base(ctx.countCons, i) < ctx.Columns() && IsTotalColumn(h, Base(ctx.countCons, i))
    ensures Owner(h, Base(ctx.countCons, i)) == Some(ctx.meta[i].meter)
  {
    hide Owner, IsExported, Importable, LastColumn, FirstColumn, KindAt, Role, OwnerAt, SlotAt, Base;
    BlockInRange(ctx, i, 0);
    ColumnsOfMeter(fmt, ctx, h, i);
    ColumnsAreBlocks(ctx.countCons, i, 0, Base(ctx.countCons, i));
    ColumnOwner(fmt, ctx, h, Base(ctx.countCons, i));
  }

  // The record of the i-th metering point: its rank in export order, and its columns.
  function ExpectedRecord(fmt: Formats, ctx: RunnerContext, i: nat): CpRecord
    requires ctx.Valid() && i < |ctx.meta|
  {
    var m, b := ctx.meta[i], Base(ctx.countCons, i);
    CpRecord(m.meter, m.direction, if i < ctx.countCons then i else i - ctx.countCons,
             ParseDateCell(fmt, PeriodStartCell(ctx, m)), ParseDateCell(fmt, PeriodEndCell(ctx, m)),
             b, b + 1, if m.direction == Consumer then b + 2 else -1)
  }

  function ExpectedRecords(fmt: Formats, ctx: RunnerContext, n: nat): (rs: seq<CpRecord>)
    requires ctx.Valid() && n <= |ctx.meta|
    ensures |rs| == n && forall i :: 0 <= i < n ==> rs[i] == ExpectedRecord(fmt, ctx, i)
  {
    seq(n, i requires 0 <= i < n => ExpectedRecord(fmt, ctx, i))
  }

  lemma {:induction false} BaseExported(fmt: Formats, ctx: RunnerContext, h: Columns, i: nat)
    requires ctx.Valid() && IsExported(fmt, ctx, h) && i < |ctx.meta|
    ensures var m, b := ctx.meta[i], Base(ctx.countCons, i);
            && b < |h.dirs| == |h.starts| == |h.ends| && h.dirs[b] == Some(m.direction)
            && h.starts[b] == ParseDateCell(fmt, PeriodStartCell(ctx, m))
               && h.ends[b] == ParseDateCell(fmt, PeriodEndCell(ctx, m))
  {
    hide PeriodStartCell, PeriodEndCell, ParseDateCell, OwnerAt, SlotAt, Base, KindFor;
    BlockInRange(ctx, i, 0);
    ColumnsAreBlocks(ctx.countCons, i, 0, Base(ctx.countCons, i));
    assert ColumnExported(fmt, ctx, h, Base(ctx.countCons, i));
  }

  lemma {:induction false} RecordOfMeter(fmt: Formats, ctx: RunnerContext, h: Columns, i: nat)
    requires ctx.Valid() && IsExported(fmt, ctx, h) && AllImportable(ctx.meta) && DistinctMeters(ctx.meta)
             && i < |ctx.meta|
    ensures Owner(h, Base(ctx.countCons, i)).Some? && DirectionAt(h, Base(ctx.countCons, i)) == ctx.meta[i].direction
    ensures RecordAt(h, Base(ctx.countCons, i), if i < ctx.countCons then i else i - ctx.countCons)
            == ExpectedRecord(fmt, ctx, i)
  {
    hide Owner, AllImportable, DistinctMeters, IsExported, LastColumn, FirstColumn, KindAt, Role, OwnerAt, SlotAt, Base,
         PeriodStartCell, PeriodEndCell, ParseDateCell, IsTotalColumn;
    BaseIsTotal(fmt, ctx, h, i);
    ColumnsOfMeter(fmt, ctx, h, i);
    BaseExported(fmt, ctx, h, i);
  }

  lemma {:induction false} RecordsStep(h: Columns, cols: seq<nat>, n: nat, d: Direction)
    requires n < |cols| && forall k :: 0 <= k < |cols| ==> Owner(h, cols[k]).Some?
    requires DirectionAt(h, cols[n]) == d
    ensures Records(h, cols[..n + 1]) == Records(h, cols[..n]) + [RecordAt(h, cols[n], CountOf(h, cols[..n], d))]
    ensures forall e :: CountOf(h, cols[..n + 1], e) == CountOf(h, cols[..n], e) + if e == d then 1 else 0
  {
    hide Owner, DirectionAt, RecordAt;
    assert cols[..n + 1][..n] == cols[..n];
  }

  lemma {:induction false} BasesOwned(fmt: Formats, ctx: RunnerContext, h: Columns)
    requires ctx.Valid() && IsExported(fmt, ctx, h) && AllImportable(ctx.meta) && DistinctMeters(ctx.meta)
    ensures forall i :: 0 <= i < |Bases(ctx)| ==> Owner(h, Bases(ctx)[i]).Some?
  {
    hide Owner, IsExported, Importable, LastColumn, FirstColumn, Base, IsTotalColumn;
    forall i | 0 <= i < |ctx.meta| ensures Owner(h, Bases(ctx)[i]).Some? {
      BaseIsTotal(fmt, ctx, h, i);
    }
  }

  lemma {:induction false} RecordsAreExpected(fmt: Formats, ctx: RunnerContext, h: Columns, n: nat)
    requires ctx.Valid() && IsExported(fmt, ctx, h) && AllImportable(ctx.meta) && DistinctMeters(ctx.meta)
             && n <= |ctx.meta|
    ensures forall i :: 0 <= i < |Bases(ctx)| ==> Owner(h, Bases(ctx)[i]).Some?
    ensures Records(h, Bases(ctx)[..n]) == ExpectedRecords(fmt, ctx, n)
    ensures CountOf(h, Bases(ctx)[..n], Consumer) == (if n < ctx.countCons then n else ctx.countCons)
    ensures CountOf(h, Bases(ctx)[..n], Producer) == (if n < ctx.countCons then 0 else n - ctx.countCons)
  {
    hide Owner, IsExported, Importable, AllImportable, DistinctMeters, Base, RecordAt, DirectionAt, ExpectedRecord,
         Records, CountOf;
    BasesOwned(fmt, ctx, h);
    if n == 0 {
      NoRecords(h);
      assert Bases(ctx)[..0] == [];
    } else {
      RecordsAreExpected(fmt, ctx, h, n - 1);
      RecordOfMeter(fmt, ctx, h, n - 1);
      RecordsStep(h, Bases(ctx), n - 1, ctx.meta[n - 1].direction);
    }
  }

  // The metering points come back, each numbered by its rank in export order.
  lemma {:induction false} HeaderRoundTrip(fmt: Formats, ctx: RunnerContext, sheet: Sheet)
    requires ctx.Valid() && HasHeader(ctx, sheet) && AllImportable(ctx.meta) && DistinctMeters(ctx.meta)
    ensures var s := ReadRows(fmt, ReadSheet(fmt, sheet)[..7]);
            && s.records.None? && s.slots == [] && !s.failed
            && Build(s.header) == Ok(ExpectedRecords(fmt, ctx, |ctx.meta|))
  {
    hide HasHeader, IsExported, Importable, ExpectedRecords, Records, TotalColumns, ReadRows, DistinctMeters,
         AllImportable, DecodedColumns, ReadSheet, RunnerContext.Valid, Bases;
    HeaderDecodes(fmt, ctx, sheet);
    var rows := ReadSheet(fmt, sheet);
    HeaderScan(fmt, rows);
    var h := DecodedColumns(fmt, rows);
    TotalsAreBases(fmt, ctx, h);
    RecordsAreExpected(fmt, ctx, h, |ctx.meta|);
    assert Bases(ctx)[..|ctx.meta|] == Bases(ctx);
  }
}
