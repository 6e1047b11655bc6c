/**
 The promises of the spreadsheet round trip: the import of an export, the canonical numbering
 of any imported sheet, and what the loader sees of the imported slots.
 */
module SheetTheorems {
  import opened Outcomes
  import opened Calendar
  import opened Codes
  import opened CounterPoints
  import opened DateCells
  import opened Loader
  import opened RawLine
  import opened Rounding
  import opened RowId
  import opened SheetExport
  import opened SheetImport
  import opened SheetRoundTrip

  // ---- Values. ----

  // What a cell comes back as: shown values as they are shown, blank cells as 0.
  function ValueOf(c: Cell): real {
    match c
    case Text(_) => 0.0
    case Num(v) => v
  }

  // One slot of one exported metering point.
  function ExpectedSlot(ctx: RunnerContext, e: Entry, i: nat, j: nat): SheetSlot
    requires ctx.Valid() && i < |ctx.meta| && j < Stride(ctx.meta[i].direction)
  {
    var m := ctx.meta[i];
    SheetSlot(m.meter, CodeForSlot(m.direction, j), Seconds(e.ts),
              ValueOf(ShownCell(e.line, m.direction, CellIdx(m, j))), 1)
  }

  function MeterSlots(ctx: RunnerContext, e: Entry, i: nat): (r: seq<SheetSlot>)
    requires ctx.Valid() && i < |ctx.meta|
    ensures |r| == Stride(ctx.meta[i].direction)
    ensures forall j :: 0 <= j < |r| ==> r[j] == ExpectedSlot(ctx, e, i, j)
  {
    seq(Stride(ctx.meta[i].direction), j requires 0 <= j < Stride(ctx.meta[i].direction) => ExpectedSlot(ctx, e, i, j))
  }

  // The slots of the first n metering points of a line.
  function LineSlots(ctx: RunnerContext, e: Entry, n: nat): seq<SheetSlot>
    requires ctx.Valid() && n <= |ctx.meta|
  {
    if n == 0 then [] else LineSlots(ctx, e, n - 1) + MeterSlots(ctx, e, n - 1)
  }

  // The slots of all lines whose moment can be printed.
  function AllSlots(ctx: RunnerContext, es: seq<Entry>): seq<SheetSlot>
    requires ctx.Valid()
  {
    if es == [] then [] else
    var e := es[|es| - 1];
    AllSlots(ctx, es[..|es| - 1]) + if DatePrintable(e.ts) then LineSlots(ctx, e, |ctx.meta|) else []
  }

  predicate AnyPrintable(es: seq<Entry>) {
    exists n :: 0 <= n < |es| && DatePrintable(es[n].ts)
  }

  lemma {:induction false} ReadBack(fmt: Formats, l: RawSourceLine, d: Direction, k: nat)
    requires Faithful(fmt)
    ensures ReadNumber(fmt, ReadCell(fmt, ShownCell(l, d, k))) == ValueOf(ShownCell(l, d, k))
  {
    hide RawSourceLine.Cell, RawSourceLine.Qov;
  }

  // One cell of a data row, read back.
  lemma {:induction false} CellBack(fmt: Formats, ctx: RunnerContext, e: Entry, row: seq<Cell>, i: nat, j: nat)
    requires ctx.Valid() && IsLineRow(ctx, e, row) && Faithful(fmt) && i < |ctx.meta|
             && j < Stride(ctx.meta[i].direction)
    ensures var m, k := ctx.meta[i], Base(ctx.countCons, i) + j;
            ReadNumber(fmt, SafeCol(ReadRow(fmt, row), k + 1)) == ValueOf(ShownCell(e.line, m.direction, CellIdx(m, j)))
  {
    hide ShownCell, ColumnCell, Base, ReadNumber, PrintMoment, CellIdx, ReadCell, ValueOf;
    var k := Base(ctx.countCons, i) + j;
    ColumnCellAt(ctx, e.line, i, j);
    assert row[1..][k] == row[k + 1];
    ReadBack(fmt, e.line, ctx.meta[i].direction, CellIdx(ctx.meta[i], j));
  }

  lemma {:induction false} MeterSlotsBack(fmt: Formats, ctx: RunnerContext, e: Entry, row: seq<Cell>, i: nat)
    requires ctx.Valid() && IsLineRow(ctx, e, row) && Faithful(fmt) && i < |ctx.meta|
    ensures SlotsForRow(fmt, ExpectedRecord(fmt, ctx, i), Seconds(e.ts), ReadRow(fmt, row)) == MeterSlots(ctx, e, i)
  {
    hide ShownCell, Base, ReadNumber, IsLineRow, Faithful, ParseDateCell, PeriodStartCell, PeriodEndCell, ReadRow,
         SafeCol, CellIdx;
    CellBack(fmt, ctx, e, row, i, 0);
    CellBack(fmt, ctx, e, row, i, 1);
    if ctx.meta[i].direction == Consumer {
      CellBack(fmt, ctx, e, row, i, 2);
    }
  }

  lemma {:induction false} RecordsSnoc(fmt: Formats, ctx: RunnerContext, seconds: int, cols: seq<string>, n: nat)
    requires ctx.Valid() && n < |ctx.meta|
    ensures RowSlots(fmt, ExpectedRecords(fmt, ctx, n + 1), seconds, cols)
            == RowSlots(fmt, ExpectedRecords(fmt, ctx, n), seconds, cols)
              + SlotsForRow(fmt, ExpectedRecord(fmt, ctx, n), seconds, cols)
    ensures RowSlots(fmt, ExpectedRecords(fmt, ctx, 0), seconds, cols) == []
  {
    hide SlotsForRow, ExpectedRecord;
    assert ExpectedRecords(fmt, ctx, n + 1)[..n] == ExpectedRecords(fmt, ctx, n);
  }

  lemma {:induction false} LineSlotsBack(fmt: Formats, ctx: RunnerContext, e: Entry, row: seq<Cell>, n: nat)
    requires ctx.Valid() && IsLineRow(ctx, e, row) && Faithful(fmt) && n <= |ctx.meta|
    ensures RowSlots(fmt, ExpectedRecords(fmt, ctx, n), Seconds(e.ts), ReadRow(fmt, row)) == LineSlots(ctx, e, n)
  {
    hide IsLineRow, Faithful, SlotsForRow, MeterSlots, ExpectedRecord, ExpectedRecords, ReadRow, PrintMoment, Seconds;
    if 0 < n {
      hide RowSlots;
      LineSlotsBack(fmt, ctx, e, row, n - 1);
      MeterSlotsBack(fmt, ctx, e, row, n - 1);
      RecordsSnoc(fmt, ctx, Seconds(e.ts), ReadRow(fmt, row), n - 1);
    }
  }

  // ---- The import of an export. ----

  // The state after the header and n lines.
  ghost predicate ReadSoFar(fmt: Formats, ctx: RunnerContext, es: seq<Entry>, s: State)
    requires ctx.Valid()
  {
    && !s.failed && s.slots == AllSlots(ctx, es)
    && Build(s.header) == Ok(ExpectedRecords(fmt, ctx, |ctx.meta|))
    && s.records == if AnyPrintable(es) then Some(ExpectedRecords(fmt, ctx, |ctx.meta|)) else None
  }

  // A data row in a state whose header is complete.
  lemma {:induction false} DataRowRead(fmt: Formats, s: State, cols: seq<string>, rs: seq<CpRecord>)
    requires !s.failed && Build(s.header) == Ok(rs) && (s.records == None || s.records == Some(rs))
    requires cols != [] && RowKindOf(cols[0]) == OtherRow
             && (IsDateCell(cols[0]) <==> ParseDateCell(fmt, cols[0]).Some?)
    ensures ReadNextRow(fmt, s, cols)
            == if IsDateCell(cols[0])
               then s.(records := Some(rs), slots := s.slots
                       + RowSlots(fmt, rs, ParseDateCell(fmt, cols[0]).value, cols)) else s
  {
    hide Build, RowKindOf, IsDateCell, ParseDateCell, RowSlots;
  }

  lemma {:induction false} DataTitle(fmt: Formats, ctx: RunnerContext, e: Entry, row: seq<Cell>)
    requires ctx.Valid() && IsLineRow(ctx, e, row)
    ensures var cols := ReadRow(fmt, row);
            && cols != [] && RowKindOf(cols[0]) == OtherRow
            && (DatePrintable(e.ts) ==> IsDateCell(cols[0]) && ParseDateCell(fmt, cols[0]) == Some(Seconds(e.ts)))
            && (!DatePrintable(e.ts) ==> !IsDateCell(cols[0]) && ParseDateCell(fmt, cols[0]) == None)
  {
    hide PrintMoment, RowKindOf, IsDateCell, ParseDateCell, IsDataRow, DatePrintable, Seconds;
    TrimKeepsMoment(e.ts);
    DigitsAreNoTitle(PrintMoment(e.ts));
    DateCellRoundTrip(fmt, e.ts);
    assert ReadRow(fmt, row)[0] == PrintMoment(e.ts);
  }

  lemma {:induction false} AllSlotsSnoc(ctx: RunnerContext, es: seq<Entry>, e: Entry)
    requires ctx.Valid()
    ensures AllSlots(ctx, es + [e]) == AllSlots(ctx, es) + if DatePrintable(e.ts) then LineSlots(ctx, e, |ctx.meta|)
            else []
  {
    hide DatePrintable, LineSlots;
    assert (es + [e])[..|es|] == es;
  }

  lemma {:induction false} NextLineRead(fmt: Formats, ctx: RunnerContext, es: seq<Entry>, e: Entry, row: seq<Cell>,
                                        s: State)
    requires ctx.Valid() && Faithful(fmt) && IsLineRow(ctx, e, row) && ReadSoFar(fmt, ctx, es, s)
    ensures ReadSoFar(fmt, ctx, es + [e], ReadNextRow(fmt, s, ReadRow(fmt, row)))
  {
    hide *;
    var cols, rs := ReadRow(fmt, row), ExpectedRecords(fmt, ctx, |ctx.meta|);
    DataTitle(fmt, ctx, e, row);
    LineSlotsBack(fmt, ctx, e, row, |ctx.meta|);
    MorePrintable(es, e);
    AllSlotsSnoc(ctx, es, e);
    SoFarFacts(fmt, ctx, es, s);
    DataRowRead(fmt, s, cols, rs);
    FactsSoFar(fmt, ctx, es + [e], ReadNextRow(fmt, s, cols));
  }

  lemma {:induction false} SoFarFacts(fmt: Formats, ctx: RunnerContext, es: seq<Entry>, s: State)
    requires ctx.Valid() && ReadSoFar(fmt, ctx, es, s)
    ensures var rs := ExpectedRecords(fmt, ctx, |ctx.meta|);
            !s.failed && s.slots == AllSlots(ctx, es) && Build(s.header) == Ok(rs)
               && s.records == if AnyPrintable(es) then Some(rs) else None
  {
  }

  lemma {:induction false} FactsSoFar(fmt: Formats, ctx: RunnerContext, es: seq<Entry>, s: State)
    requires ctx.Valid()
    requires var rs := ExpectedRecords(fmt, ctx, |ctx.meta|);
             !s.failed && s.slots == AllSlots(ctx, es) && Build(s.header) == Ok(rs)
                && s.records == if AnyPrintable(es) then Some(rs) else None
    ensures ReadSoFar(fmt, ctx, es, s)
  {
  }

  lemma {:induction false} MorePrintable(es: seq<Entry>, e: Entry)
    ensures AnyPrintable(es + [e]) <==> AnyPrintable(es) || DatePrintable(e.ts)
  {
    hide DatePrintable;
    if AnyPrintable(es) {
      var n :| 0 <= n < |es| && DatePrintable(es[n].ts);
      assert (es + [e])[n] == es[n];
    }
    if DatePrintable(e.ts) {
      assert (es + [e])[|es|] == e;
    }
    if AnyPrintable(es + [e]) {
      var n :| 0 <= n < |es + [e]| && DatePrintable((es + [e])[n].ts);
      assert n < |es| ==> es[n] == (es + [e])[n];
    }
  }

  lemma {:induction false} EmptyRows(fmt: Formats, rows: seq<seq<string>>)
    requires 10 <= |rows| && rows[7] == rows[8] == rows[9] == []
    ensures ReadRows(fmt, rows[..10]) == ReadRows(fmt, rows[..7])
  {
    hide RowKindOf, IsDateCell, ParseDateCell, AtData;
    RowsSnoc(fmt, rows, 7);
    RowsSnoc(fmt, rows, 8);
    RowsSnoc(fmt, rows, 9);
  }

  lemma {:induction false} RowsSnoc(fmt: Formats, rows: seq<seq<string>>, n: nat)
    requires n < |rows| && rows[n] == []
    ensures ReadRows(fmt, rows[..n + 1]) == ReadRows(fmt, rows[..n])
  {
    ScanSnoc(fmt, rows, n);
  }

  lemma {:induction false} DataRead(fmt: Formats, ctx: RunnerContext, es: seq<Entry>, sheet: Sheet, n: nat)
    requires ctx.Valid() && IsSheet(ctx, es, sheet) && Faithful(fmt) && AllImportable(ctx.meta)
             && DistinctMeters(ctx.meta)
    requires es != [] && n <= |es|
    ensures ReadSoFar(fmt, ctx, es[..n], ReadRows(fmt, ReadSheet(fmt, sheet)[..10 + n]))
  {
    var rows := ReadSheet(fmt, sheet);
    hide Faithful, HasHeader, IsLineRow, AllImportable, DistinctMeters, ReadNextRow, Build, ExpectedRecords, ReadRow,
         DatePrintable;
    if n == 0 {
      BlankRows(fmt, sheet);
      EmptyRows(fmt, rows);
      HeaderRoundTrip(fmt, ctx, sheet);
      assert es[..0] == [];
    } else {
      hide ReadSoFar, IsSheet;
      DataRead(fmt, ctx, es, sheet, n - 1);
      LineRowAt(ctx, es, sheet, n - 1);
      ScanSnoc(fmt, rows, 10 + n - 1);
      NextLineRead(fmt, ctx, es[..n - 1], es[n - 1], sheet[10 + n - 1], ReadRows(fmt, rows[..10 + n - 1]));
      assert es[..n] == es[..n - 1] + [es[n - 1]];
    }
  }

  lemma {:induction false} BlankRows(fmt: Formats, sheet: Sheet)
    requires 10 <= |sheet| && sheet[7] == sheet[8] == sheet[9] == []
    ensures var rows := ReadSheet(fmt, sheet); rows[7] == rows[8] == rows[9] == []
  {
  }

  lemma {:induction false} LineRowAt(ctx: RunnerContext, es: seq<Entry>, sheet: Sheet, n: nat)
    requires ctx.Valid() && IsSheet(ctx, es, sheet) && n < |es|
    ensures |sheet| == 10 + |es| && IsLineRow(ctx, es[n], sheet[10 + n])
  {
  }

  // Importing an exported sheet: every exported metering point, numbered by its rank in export
  // order, and every exported value under its metering point, code and moment. A sheet without
  // a readable data row is refused.
  lemma {:induction false} ExportThenImport(fmt: Formats, ctx: RunnerContext, es: seq<Entry>, sheet: Sheet)
    requires ctx.Valid() && IsSheet(ctx, es, sheet) && Faithful(fmt) && AllImportable(ctx.meta)
             && DistinctMeters(ctx.meta)
    ensures OutcomeOf(ReadRows(fmt, ReadSheet(fmt, sheet)))
            == if AnyPrintable(es) then Ok(Imported(ExpectedRecords(fmt, ctx, |ctx.meta|), AllSlots(ctx, es)))
               else Err("no header rows found")
  {
    hide Faithful, HasHeader, IsLineRow, AllImportable, DistinctMeters, ReadRows, Build, ExpectedRecords, ReadSheet,
         DatePrintable;
    var rows := ReadSheet(fmt, sheet);
    assert rows[..|rows|] == rows;
    if es == [] {
      HeaderRoundTrip(fmt, ctx, sheet);
    } else {
      DataRead(fmt, ctx, es, sheet, |es|);
      assert es[..|es|] == es;
    }
  }

  // A sheet without rows of data is refused, whatever its metering points are called.
  lemma {:induction false} EmptyExportIsRefused(fmt: Formats, ctx: RunnerContext, sheet: Sheet)
    requires ctx.Valid() && IsSheet(ctx, [], sheet)
    ensures OutcomeOf(ReadRows(fmt, ReadSheet(fmt, sheet))) == Err("no header rows found")
  {
    hide HasHeader, ReadRows, ReadSheet, DecodedColumns, IsExported, HasTitles;
    HeaderDecodes(fmt, ctx, sheet);
    HeaderScan(fmt, ReadSheet(fmt, sheet));
    SameLength(fmt, sheet);
    assert ReadSheet(fmt, sheet)[..7] == ReadSheet(fmt, sheet);
  }

  lemma {:induction false} SameLength(fmt: Formats, sheet: Sheet)
    ensures |ReadSheet(fmt, sheet)| == |sheet|
  {
  }

  // ---- Numbering is canonical, for every header. ----

  // The columns a record reads as Total, share and coverage, negative for none.
  function ColumnIn(r: CpRecord, role: nat): int {
    if role == 0 then r.total else if role == 1 then r.share else r.coverage
  }

  // What any imported header guarantees of its k-th record: the name is one the import accepts,
  // every column the record reads belongs to that name and is labelled for its role, and the
  // Total column is present.
  ghost predicate OwnsColumns(h: Columns, r: CpRecord) {
    && Importable(r.meter)
    && 0 <= r.total < |h.ids|
    && OwnsColumn(h, r, 0) && OwnsColumn(h, r, 1) && OwnsColumn(h, r, 2)
  }

  predicate OwnsColumn(h: Columns, r: CpRecord, role: nat) {
    var c := ColumnIn(r, role);
    0 <= c ==> Owner(h, c) == Some(r.meter) && Role(KindAt(h, c)) == role
  }

  lemma {:induction false} OwnersAreImportable(h: Columns, i: nat)
    requires Owner(h, i).Some?
    ensures Importable(Owner(h, i).value)
  {
    hide NameOk;
  }

  lemma {:induction false} RecordOwns(h: Columns, i: nat, idx: nat)
    requires i < |h.ids| && IsTotalColumn(h, i)
    ensures OwnsColumns(h, RecordAt(h, i, idx)) && RecordAt(h, i, idx).total == i
    ensures RecordAt(h, i, idx).direction == DirectionAt(h, i) && RecordAt(h, i, idx).sourceIdx == idx
  {
    hide Owner, Importable;
    OwnersAreImportable(h, i);
  }

  ghost predicate AreTotals(h: Columns, cols: seq<nat>) {
    && (forall k :: 0 <= k < |cols| ==> cols[k] < |h.ids| && IsTotalColumn(h, cols[k]))
    && (forall j, k :: 0 <= j < k < |cols| ==> cols[j] < cols[k])
  }

  // How many records are of a direction.
  function InDirection(rs: seq<CpRecord>, d: Direction): nat {
    if rs == [] then 0 else InDirection(rs[..|rs| - 1], d) + if rs[|rs| - 1].direction == d then 1 else 0
  }

  // The last of some Total columns, its record, and the records before it.
  lemma {:induction false} LastTotal(h: Columns, cols: seq<nat>)
    requires AreTotals(h, cols) && cols != []
    ensures var n := |cols| - 1;
            && AreTotals(h, cols[..n]) && cols[n] < |h.ids| && IsTotalColumn(h, cols[n])
            && (forall k :: 0 <= k < |cols| ==> Owner(h, cols[k]).Some?)
            && CountOf(h, cols, Consumer) == CountOf(h, cols[..n], Consumer)
                 + (if DirectionAt(h, cols[n]) == Consumer then 1 else 0)
            && CountOf(h, cols, Producer) == CountOf(h, cols[..n], Producer)
                 + (if DirectionAt(h, cols[n]) == Producer then 1 else 0)
            && Records(h, cols) == Records(h, cols[..n])
                 + [RecordAt(h, cols[n], CountOf(h, cols[..n], DirectionAt(h, cols[n])))]
  {
    hide Owner, RecordAt, DirectionAt;
  }

  lemma {:induction false} InDirectionSnoc(rs: seq<CpRecord>, r: CpRecord, d: Direction)
    ensures InDirection(rs + [r], d) == InDirection(rs, d) + if r.direction == d then 1 else 0
  {
    assert (rs + [r])[..|rs|] == rs;
  }

  lemma {:induction false} CountsAgree(h: Columns, cols: seq<nat>, d: Direction)
    requires AreTotals(h, cols)
    ensures CountOf(h, cols, d) == InDirection(Records(h, cols), d)
  {
    if cols == [] {
    } else {
      hide Owner, RecordAt, OwnsColumns, DirectionAt, AreTotals, IsTotalColumn, Records, CountOf, InDirection;
      var n := |cols| - 1;
      LastTotal(h, cols);
      CountsAgree(h, cols[..n], d);
      var r := RecordAt(h, cols[n], CountOf(h, cols[..n], DirectionAt(h, cols[n])));
      RecordOwns(h, cols[n], r.sourceIdx);
      InDirectionSnoc(Records(h, cols[..n]), r, d);
      assert CountOf(h, cols, d) == InDirection(Records(h, cols), d);
    }
  }

  lemma {:induction false} NumberedByRank(h: Columns, cols: seq<nat>, k: nat)
    requires AreTotals(h, cols) && k < |cols|
    ensures var rs := Records(h, cols);
            && rs[k] == RecordAt(h, cols[k], rs[k].sourceIdx)
            && rs[k].sourceIdx == InDirection(rs[..k], rs[k].direction)
  {
    hide Owner, RecordAt, OwnsColumns, DirectionAt, AreTotals, IsTotalColumn, Records, CountOf, InDirection;
    var n := |cols| - 1;
    LastTotal(h, cols);
    RecordOwns(h, cols[n], CountOf(h, cols[..n], DirectionAt(h, cols[n])));
    var before := Records(h, cols[..n]);
    if k < n {
      NumberedByRank(h, cols[..n], k);
      assert Records(h, cols)[..k] == before[..k];
    } else {
      CountsAgree(h, cols[..n], DirectionAt(h, cols[n]));
      assert Records(h, cols)[..n] == before;
    }
  }

  // For every header: records stand in Total-column order, each numbered by the records of its
  // direction before it; no column is read for two metering points.
  lemma {:induction false} NumberingIsCanonical(h: Columns)
    ensures var rs := AllRecords(h);
            && (forall k :: 0 <= k < |rs| ==>
                  OwnsColumns(h, rs[k]) && rs[k].sourceIdx == InDirection(rs[..k], rs[k].direction))
            && (forall j, k :: 0 <= j < k < |rs| ==> rs[j].total < rs[k].total && rs[j].meter != rs[k].meter)
  {
    hide Owner, RecordAt, FirstColumn, LastColumn, TotalColumns, Importable, IsTotalColumn, Records, InDirection;
    var cols := TotalColumns(h, |h.ids|);
    var rs := AllRecords(h);
    forall k | 0 <= k < |rs|
      ensures OwnsColumns(h, rs[k]) && rs[k].total == cols[k]
              && rs[k].sourceIdx == InDirection(rs[..k], rs[k].direction)
    {
      NumberedByRank(h, cols, k);
      RecordOwns(h, cols[k], rs[k].sourceIdx);
    }
    forall j, k | 0 <= j < k < |rs| ensures rs[j].meter != rs[k].meter {
      assert OwnsColumns(h, rs[j]) && OwnsColumns(h, rs[k]);
      MeterHasOneTotal(h, cols[j], cols[k]);
    }
  }

  lemma {:induction false} MeterHasOneTotal(h: Columns, i: nat, j: nat)
    requires IsTotalColumn(h, i) && IsTotalColumn(h, j)
    ensures Owner(h, i) == Owner(h, j) ==> i == j
  {
  }

  // A column is read by one record at most, and in one role.
  lemma {:induction false} ColumnsAreNotShared(h: Columns, j: nat, k: nat, a: nat, b: nat)
    requires j < |AllRecords(h)| && k < |AllRecords(h)| && a < 3 && b < 3
    requires 0 <= ColumnIn(AllRecords(h)[j], a) == ColumnIn(AllRecords(h)[k], b)
    ensures j == k && a == b
  {
    hide Owner, AllRecords, Importable, KindAt, Role, ColumnIn, InDirection;
    NumberingIsCanonical(h);
    var rs := AllRecords(h);
    assert OwnsColumns(h, rs[j]) && OwnsColumns(h, rs[k]);
    assert OwnsColumn(h, rs[j], a) && OwnsColumn(h, rs[k], b);
    assert rs[j].meter == rs[k].meter;
  }

  // Within a direction the numbers are 0, 1, 2, ... without gaps or repeats.
  lemma {:induction false} NumbersAreGapless(rs: seq<CpRecord>, d: Direction, idx: nat) returns (k: nat)
    requires forall k :: 0 <= k < |rs| ==> rs[k].sourceIdx == InDirection(rs[..k], rs[k].direction)
    requires idx < InDirection(rs, d)
    ensures k < |rs| && rs[k].direction == d && rs[k].sourceIdx == idx
  {
    var n := |rs| - 1;
    if idx < InDirection(rs[..n], d) {
      forall k | 0 <= k < n ensures rs[..n][k].sourceIdx == InDirection(rs[..n][..k], rs[..n][k].direction) {
        assert rs[..n][..k] == rs[..k];
      }
      k := NumbersAreGapless(rs[..n], d, idx);
    } else {
      k := n;
    }
  }

  lemma {:induction false} CountsGrow(rs: seq<CpRecord>, j: nat, k: nat, d: Direction)
    requires j <= k <= |rs|
    ensures InDirection(rs[..j], d) <= InDirection(rs[..k], d)
    ensures j < k && rs[j].direction == d ==> InDirection(rs[..j], d) < InDirection(rs[..k], d)
    decreases k
  {
    if j < k {
      assert rs[..k][..k - 1] == rs[..k - 1];
      CountsGrow(rs, j, k - 1, d);
    }
  }

  // The metering points the import writes to the counterpoint table.
  function CounterPointsOf(rs: seq<CpRecord>): (cps: seq<CounterPoint>)
    ensures |cps| == |rs|
    ensures forall k :: 0 <= k < |rs| ==>
              cps[k] == CounterPoint(rs[k].meter, rs[k].direction, rs[k].sourceIdx, rs[k].start, rs[k].end, "")
  {
    seq(|rs|, k requires 0 <= k < |rs| => CounterPoint(rs[k].meter, rs[k].direction, rs[k].sourceIdx, rs[k].start,
                                                       rs[k].end, ""))
  }

  // Imported metering points never collide in the wide line.
  lemma {:induction false} ImportedBlocksAreDistinct(h: Columns)
    ensures DistinctMeters(CounterPointsOf(AllRecords(h))) && DistinctBlocks(CounterPointsOf(AllRecords(h)))
  {
    hide AllRecords, OwnsColumns, InDirection;
    NumberingIsCanonical(h);
    var rs := AllRecords(h);
    forall j, k | 0 <= j < k < |rs| && rs[j].direction == rs[k].direction ensures rs[j].sourceIdx != rs[k].sourceIdx {
      CountsGrow(rs, j, k, rs[j].direction);
    }
  }

  // ---- Which names survive. ----

  lemma {:induction false} SameNamesAreImportable(ctx: RunnerContext, h: Columns)
    requires ctx.Valid() && SameNames(AllRecords(h), ctx.meta)
    ensures AllImportable(ctx.meta) && DistinctMeters(ctx.meta)
  {
    hide AllRecords, Importable, Owner, InDirection;
    NumberingIsCanonical(h);
    forall i | 0 <= i < |ctx.meta| ensures Importable(ctx.meta[i].meter) {
      assert OwnsColumns(h, AllRecords(h)[i]);
    }
    forall i, j | 0 <= i < j < |ctx.meta| ensures ctx.meta[i].meter != ctx.meta[j].meter {
      assert AllRecords(h)[i].meter != AllRecords(h)[j].meter;
    }
  }

  // The header of an export names the same metering points in the same order exactly when every
  // name is one the import accepts (without surrounding blanks, four bytes or more, not "total")
  // and stands there once.
  lemma {:induction false} NamesComeBackIff(fmt: Formats, ctx: RunnerContext, sheet: Sheet)
    requires ctx.Valid() && HasHeader(ctx, sheet)
    ensures HasTitles(ReadSheet(fmt, sheet))
    ensures var rs := AllRecords(DecodedColumns(fmt, ReadSheet(fmt, sheet)));
            AllImportable(ctx.meta) && DistinctMeters(ctx.meta) <==> SameNames(rs, ctx.meta)
  {
    hide HasHeader, AllRecords, AllImportable, PeriodStartCell, PeriodEndCell, ParseDateCell, IsExported, ReadRows,
         DecodedColumns, ReadSheet, Base, DistinctMeters;
    HeaderDecodes(fmt, ctx, sheet);
    var h := DecodedColumns(fmt, ReadSheet(fmt, sheet));
    if AllImportable(ctx.meta) && DistinctMeters(ctx.meta) {
      ImportedNames(fmt, ctx, sheet);
    } else if SameNames(AllRecords(h), ctx.meta) {
      SameNamesAreImportable(ctx, h);
    }
  }

  ghost predicate SameNames(rs: seq<CpRecord>, meta: seq<CounterPoint>) {
    |rs| == |meta| && forall i :: 0 <= i < |meta| ==> rs[i].meter == meta[i].meter
  }

  lemma {:induction false} AsciiLength(s: string)
    requires forall i :: 0 <= i < |s| ==> s[i] < 128 as char
    ensures ByteLength(s) == |s|
  {
    if s != "" {
      AsciiLength(s[..|s| - 1]);
    }
  }

  // Names the import accepts, and names it does not.
  lemma {:induction false} SomeNames()
    ensures Importable("AT0001")
    ensures !Importable("MP1") && !Importable(" AT0001") && !Importable("Total")
  {
    hide TrimLeft, TrimRight;
    AsciiLength("MP1");
    AsciiLength("AT0001");
    assert Trim(" AT0001") == "" || Trim(" AT0001")[0] != ' ';
    assert EqualFold("Total", "total");
  }

  // Each record of an exported header carries the trimmed name of an exported metering point.
  lemma {:induction false} RecordName(fmt: Formats, ctx: RunnerContext, h: Columns, k: nat) returns (i: nat)
    requires ctx.Valid() && IsExported(fmt, ctx, h) && k < |AllRecords(h)|
    ensures i < |ctx.meta| && AllRecords(h)[k].meter == Trim(ctx.meta[i].meter) && Importable(AllRecords(h)[k].meter)
  {
    hide AllRecords, PeriodStartCell, PeriodEndCell, ParseDateCell, Importable, InDirection, KindAt, Trim;
    NumberingIsCanonical(h);
    var r := AllRecords(h)[k];
    assert OwnsColumns(h, r) && ColumnExported(fmt, ctx, h, r.total);
    OwnerInRange(ctx, r.total);
    i := OwnerAt(ctx.countCons, r.total);
  }

  // A sheet whose one metering point is called MP1 names none at all.
  lemma {:induction false} ShortNameIsLost(fmt: Formats, ctx: RunnerContext, sheet: Sheet)
    requires ctx.countCons == 1 && ctx.countProd == 0 && ctx.meta == [CounterPoint("MP1", Consumer, 0, None, None, "")]
    requires HasHeader(ctx, sheet)
    ensures HasTitles(ReadSheet(fmt, sheet))
    ensures AllRecords(DecodedColumns(fmt, ReadSheet(fmt, sheet))) == []
  {
    hide HasHeader, AllRecords, IsExported, ReadRows, DecodedColumns, ReadSheet, Importable;
    SomeNames();
    HeaderDecodes(fmt, ctx, sheet);
    assert Trim("MP1") == "MP1";
    if AllRecords(DecodedColumns(fmt, ReadSheet(fmt, sheet))) != [] {
      var i := RecordName(fmt, ctx, DecodedColumns(fmt, ReadSheet(fmt, sheet)), 0);
    }
  }

  // A request that lists AT0001 twice gives it two blocks of columns, and one record comes back.
  lemma {:induction false} RepeatedRequest(fmt: Formats, ctx: RunnerContext, sheet: Sheet, cp: CounterPoint)
    requires cp == CounterPoint("AT0001", Consumer, 0, None, None, "")
    requires var req := [Requested("AT0001", ""), Requested("AT0001", "")];
             ctx.meta == Chosen([cp], req, Consumer) + Chosen([cp], req, Producer)
    requires ctx.Valid() && HasHeader(ctx, sheet)
    ensures ctx.meta == [cp, cp] && AllImportable(ctx.meta)
    ensures HasTitles(ReadSheet(fmt, sheet))
    ensures |AllRecords(DecodedColumns(fmt, ReadSheet(fmt, sheet)))| <= 1
  {
    hide HasHeader, AllRecords, IsExported, ReadRows, DecodedColumns, ReadSheet, Importable, Trim, OwnsColumns,
         InDirection;
    ChosenTwice(cp, [Requested("AT0001", ""), Requested("AT0001", "")]);
    SomeNames();
    HeaderDecodes(fmt, ctx, sheet);
    var h := DecodedColumns(fmt, ReadSheet(fmt, sheet));
    NumberingIsCanonical(h);
    if 1 < |AllRecords(h)| {
      var k := AnotherName(AllRecords(h), Trim("AT0001"));
      var i := RecordName(fmt, ctx, h, k);
    }
  }

  lemma {:induction false} AnotherName(rs: seq<CpRecord>, name: string) returns (k: nat)
    requires 1 < |rs| && forall j, k :: 0 <= j < k < |rs| ==> rs[j].meter != rs[k].meter
    ensures k < |rs| && rs[k].meter != name
  {
    k := if rs[0].meter != name then 0 else 1;
  }

  lemma {:induction false} ChosenTwice(cp: CounterPoint, req: seq<Requested>)
    requires |req| == 2 && req[0].meter == req[1].meter == cp.meter && cp.direction == Consumer
    ensures Chosen([cp], req, Consumer) == [cp, cp] && Chosen([cp], req, Producer) == []
  {
    assert FindMeter([cp], cp.meter) == Some(cp);
    assert req[..1] == [req[0]] && req[..1][..0] == [];
    assert Chosen([cp], req[..1], Consumer) == [] + [cp] && Chosen([cp], req[..1], Producer) == [];
  }

  lemma {:induction false} ImportedNames(fmt: Formats, ctx: RunnerContext, sheet: Sheet)
    requires ctx.Valid() && HasHeader(ctx, sheet) && DistinctMeters(ctx.meta) && AllImportable(ctx.meta)
    requires HasTitles(ReadSheet(fmt, sheet))
    ensures AllRecords(DecodedColumns(fmt, ReadSheet(fmt, sheet))) == ExpectedRecords(fmt, ctx, |ctx.meta|)
  {
    hide HasHeader, AllRecords, AllImportable, ExpectedRecords, IsExported, ReadRows, DecodedColumns, ReadSheet;
    HeaderScan(fmt, ReadSheet(fmt, sheet));
    HeaderRoundTrip(fmt, ctx, sheet);
  }

  // A period comes back as whole days, clipped to the exported range.
  lemma {:induction false} PeriodsComeBack(fmt: Formats, ctx: RunnerContext, m: CounterPoint)
    ensures var d := ctx.PeriodOf(m).start;
            var start := if d.None? || d.value <= ctx.start then ctx.start else d.value;
            DatePrintable(start) ==> ParseDateCell(fmt, PeriodStartCell(ctx, m)) == Some(Seconds(Midnight(start)))
    ensures var d := ctx.PeriodOf(m).end;
            var end := if d.None? || ctx.end <= d.value then ctx.end else d.value;
            DatePrintable(end) ==>
              ParseDateCell(fmt, PeriodEndCell(ctx, m)) == Some(Seconds(Midnight(end) + 23 * 60 + 45))
  {
    hide PrintDay, ParseDateCell, DatePrintable, Midnight;
    var s, e := ctx.PeriodOf(m).start, ctx.PeriodOf(m).end;
    PeriodDay(fmt, if s.None? || s.value <= ctx.start then ctx.start else s.value);
    PeriodDay(fmt, if e.None? || ctx.end <= e.value then ctx.end else e.value);
  }

  lemma {:induction false} PeriodDay(fmt: Formats, ts: int)
    ensures DatePrintable(ts) ==> ParseDateCell(fmt, PrintDay(ts) + " 00:00:00") == Some(Seconds(Midnight(ts)))
    ensures DatePrintable(ts) ==>
              ParseDateCell(fmt, PrintDay(ts) + " 23:45:00") == Some(Seconds(Midnight(ts) + 23 * 60 + 45))
  {
    ClockTexts(ts);
    hide PrintDay, ParseDateCell, YearOf, PrintMoment, IsDateCell;
    SameDayPrints(ts, Midnight(ts));
    SameDayPrints(ts, Midnight(ts) + 23 * 60 + 45);
    DateCellRoundTrip(fmt, Midnight(ts));
    DateCellRoundTrip(fmt, Midnight(ts) + 23 * 60 + 45);
  }

  lemma {:induction false} ClockTexts(ts: int)
    ensures PrintMoment(Midnight(ts)) == PrintDay(ts) + " 00:00:00"
    ensures PrintMoment(Midnight(ts) + 23 * 60 + 45) == PrintDay(ts) + " 23:45:00"
  {
    hide PrintDay, YearOf, PrintPrecise;
    SameDayPrints(ts, Midnight(ts));
    SameDayPrints(ts, Midnight(ts) + 23 * 60 + 45);
    ClockPrints();
    JoinTexts(PrintDay(ts));
  }

  lemma {:induction false} JoinTexts(day: string)
    ensures day + " " + "00" + ":" + "00" + ":00" == day + " 00:00:00"
    ensures day + " " + "23" + ":" + "45" + ":00" == day + " 23:45:00"
  {
  }

  lemma {:induction false} SameDayPrints(a: int, b: int)
    requires DayOf(a) == DayOf(b)
    ensures PrintDay(a) == PrintDay(b) && YearOf(a) == YearOf(b)
  {
  }

  lemma {:induction false} ClockPrints()
    ensures PrintPrecise(0, 2) == "00" && PrintPrecise(23, 2) == "23" && PrintPrecise(45, 2) == "45"
  {
    ShortDigits();
    hide Digits, DigitChar;
    assert Zeros(1) == "0" && Zeros(0) == "";
  }

  lemma {:induction false} ShortDigits()
    ensures Digits(0) == "0" && Digits(23) == "23" && Digits(45) == "45"
  {
    assert Digits(2) == "2" && Digits(4) == "4";
    assert Digits(23) == Digits(2) + [DigitChar(3)] && Digits(45) == Digits(4) + [DigitChar(5)];
  }

  // ---- Loading the imported slots. ----

  function RowOf(s: SheetSlot): SlotRow {
    SlotRow(s.seconds / 60, s.meter, s.code, s.value, s.qov)
  }

  // The table holds the slots, in whatever order it returns them.
  ghost predicate IsStored(slots: seq<SheetSlot>, rows: seq<SlotRow>) {
    && (forall s :: s in slots ==> RowOf(s) in rows)
    && (forall r :: r in rows ==> exists s :: s in slots && RowOf(s) == r)
  }

  lemma {:induction false} LineSlotListed(ctx: RunnerContext, e: Entry, k: nat, i: nat, j: nat)
    requires ctx.Valid() && i < k <= |ctx.meta| && j < Stride(ctx.meta[i].direction)
    ensures ExpectedSlot(ctx, e, i, j) in LineSlots(ctx, e, k)
  {
    hide ExpectedSlot;
    if i < k - 1 {
      LineSlotListed(ctx, e, k - 1, i, j);
    } else {
      assert MeterSlots(ctx, e, i)[j] == ExpectedSlot(ctx, e, i, j);
    }
  }

  lemma {:induction false} SlotListed(ctx: RunnerContext, es: seq<Entry>, n: nat, i: nat, j: nat)
    requires ctx.Valid() && n < |es| && DatePrintable(es[n].ts) && i < |ctx.meta| && j < Stride(ctx.meta[i].direction)
    ensures ExpectedSlot(ctx, es[n], i, j) in AllSlots(ctx, es)
  {
    hide ExpectedSlot, DatePrintable, LineSlots;
    if n < |es| - 1 {
      SlotListed(ctx, es[..|es| - 1], n, i, j);
    } else {
      LineSlotListed(ctx, es[n], |ctx.meta|, i, j);
    }
  }

  lemma {:induction false} LineSlotKnown(ctx: RunnerContext, e: Entry, k: nat, x: SheetSlot) returns (i: nat, j: nat)
    requires ctx.Valid() && k <= |ctx.meta| && x in LineSlots(ctx, e, k)
    ensures i < |ctx.meta| && j < Stride(ctx.meta[i].direction) && x == ExpectedSlot(ctx, e, i, j)
  {
    hide ExpectedSlot;
    if x in LineSlots(ctx, e, k - 1) {
      i, j := LineSlotKnown(ctx, e, k - 1, x);
    } else {
      i := k - 1;
      j :| 0 <= j < |MeterSlots(ctx, e, i)| && MeterSlots(ctx, e, i)[j] == x;
    }
  }

  lemma {:induction false} SlotKnown(ctx: RunnerContext, es: seq<Entry>, x: SheetSlot) returns (n: nat, i: nat, j: nat)
    requires ctx.Valid() && x in AllSlots(ctx, es)
    ensures n < |es| && i < |ctx.meta| && j < Stride(ctx.meta[i].direction) && x == ExpectedSlot(ctx, es[n], i, j)
  {
    hide ExpectedSlot, DatePrintable, LineSlots;
    var m := |es| - 1;
    if x in AllSlots(ctx, es[..m]) {
      n, i, j := SlotKnown(ctx, es[..m], x);
    } else {
      n := m;
      i, j := LineSlotKnown(ctx, es[m], |ctx.meta|, x);
    }
  }

  lemma {:induction false} OnlyRow(rows: seq<SlotRow>, ts: int, cp: CounterPoint, slot: nat, r: SlotRow)
    requires r in rows && r.ts == ts && Feeds(r, cp, slot)
    requires forall x :: x in rows && x.ts == ts && Feeds(x, cp, slot) ==> x == r
    ensures Lookup(rows, ts, cp, slot) == Some(r)
  {
    hide Feeds;
    var last := rows[|rows| - 1];
    assert last in rows;
    if !(last.ts == ts && Feeds(last, cp, slot)) {
      OnlyRow(rows[..|rows| - 1], ts, cp, slot, r);
    }
  }

  // The counterpoint the i-th exported metering point becomes.
  function ImportedPoint(fmt: Formats, ctx: RunnerContext, i: nat): CounterPoint
    requires ctx.Valid() && i < |ctx.meta|
  {
    CounterPointsOf(ExpectedRecords(fmt, ctx, |ctx.meta|))[i]
  }

  lemma {:induction false} ExpectedFeeds(fmt: Formats, ctx: RunnerContext, e: Entry, f: Entry, i: nat, j: nat, k: nat,
                                         m: nat)
    requires ctx.Valid() && DistinctMeters(ctx.meta) && i < |ctx.meta| && k < |ctx.meta|
    requires j < Stride(ctx.meta[i].direction) && m < Stride(ctx.meta[k].direction)
    ensures RowOf(ExpectedSlot(ctx, e, i, j)).ts == e.ts
    ensures Feeds(RowOf(ExpectedSlot(ctx, e, i, j)), ImportedPoint(fmt, ctx, i), j)
    ensures Feeds(RowOf(ExpectedSlot(ctx, f, k, m)), ImportedPoint(fmt, ctx, i), j) ==> k == i && m == j
  {
    hide ShownCell, SlotForCode, CodeForSlot, ParseDateCell, PeriodStartCell, PeriodEndCell;
    CodeRoundTrip(ctx.meta[i].direction, j);
    CodeRoundTrip(ctx.meta[k].direction, m);
    assert Seconds(e.ts) / 60 == e.ts;
  }

  // Looking an imported cell up finds the exported value, as a measured one.
  lemma {:induction false} ReloadedLookup(fmt: Formats, ctx: RunnerContext, es: seq<Entry>, rows: seq<SlotRow>, n: nat,
                                          i: nat, j: nat)
    requires ctx.Valid() && DistinctMeters(ctx.meta) && StrictlyAscending(es) && IsStored(AllSlots(ctx, es), rows)
    requires n < |es| && DatePrintable(es[n].ts) && i < |ctx.meta| && j < Stride(ctx.meta[i].direction)
    ensures Lookup(rows, es[n].ts, ImportedPoint(fmt, ctx, i), j) == Some(RowOf(ExpectedSlot(ctx, es[n], i, j)))
  {
    hide AllSlots, ExpectedSlot, Feeds, DatePrintable, ImportedPoint, RowOf, DistinctMeters;
    var r := RowOf(ExpectedSlot(ctx, es[n], i, j));
    SlotListed(ctx, es, n, i, j);
    ExpectedFeeds(fmt, ctx, es[n], es[n], i, j, i, j);
    forall x | x in rows && x.ts == es[n].ts && Feeds(x, ImportedPoint(fmt, ctx, i), j) ensures x == r {
      var s :| s in AllSlots(ctx, es) && RowOf(s) == x;
      var a, b, c := SlotKnown(ctx, es, s);
      ExpectedFeeds(fmt, ctx, es[a], es[n], b, c, i, j);
      ExpectedFeeds(fmt, ctx, es[n], es[a], i, j, b, c);
      assert a == n;
    }
    OnlyRow(rows, es[n].ts, ImportedPoint(fmt, ctx, i), j, r);
  }

  // A wide line loaded from the imported slots holds Total, Share and Coverage (Total and Profit
  // of a producer) in the block of the metering point's new index, with the exported values.
  lemma {:induction false} ReloadedLine(fmt: Formats, ctx: RunnerContext, es: seq<Entry>, rows: seq<SlotRow>,
                                        shape: Shape, l: RawSourceLine,
                     n: nat, i: nat, j: nat)
    requires ctx.Valid() && DistinctMeters(ctx.meta) && StrictlyAscending(es) && IsStored(AllSlots(ctx, es), rows)
    requires n < |es| && DatePrintable(es[n].ts) && i < |ctx.meta| && j < Stride(ctx.meta[i].direction)
    requires Shows(CounterPointsOf(ExpectedRecords(fmt, ctx, |ctx.meta|)), shape, rows, es[n].ts, l)
    ensures var m := ctx.meta[i];
            var k := (if i < ctx.countCons then i * 3 else (i - ctx.countCons) * 2) + j;
            && l.Cell(m.direction, k) == ValueOf(ShownCell(es[n].line, m.direction, CellIdx(m, j)))
            && l.Qov(m.direction, k) == 1
  {
    hide AllSlots, DatePrintable, DistinctMeters, ShownCell, ValueOf, CodeForSlot, StrictlyAscending, IsStored, Lookup,
         ParseDateCell, PeriodStartCell, PeriodEndCell, Base, RawSourceLine.Cell, RawSourceLine.Qov;
    ReloadedLookup(fmt, ctx, es, rows, n, i, j);
    var cps := CounterPointsOf(ExpectedRecords(fmt, ctx, |ctx.meta|));
    assert Holds(l, cps[i], j, Lookup(rows, es[n].ts, cps[i], j));
  }
}
