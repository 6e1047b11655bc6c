/**
 What an import reads, in terms of the texts of the cells: titles, labels, codes, which column a
 record takes, and which cell a slot comes from.
 */
module ImportTheorems {
  import opened Outcomes
  import opened Calendar
  import opened Codes
  import opened CounterPoints
  import opened DateCells
  import opened RawLine
  import opened SheetExport
  import opened SheetImport
  import opened SheetRoundTrip
  import opened SheetTheorems

  // ---- Titles and labels. ----

  // Every first cell, by the row it makes.
  lemma {:induction false} TitlesByText(title: string)
    ensures RowKindOf(title) == IdRow <==> title == "MeteringpointID"
    ensures RowKindOf(title) == DirectionRow <==> title == "Energy direction"
    ensures RowKindOf(title) == StartRow <==> title in ["Period start", "Report Filter start"]
    ensures RowKindOf(title) == EndRow <==> title in ["Period end", "Report Filter end"]
    ensures RowKindOf(title) == CodeRow <==> title == "Metercode"
    ensures RowKindOf(title) == SkippedRow <==>
              title in ["Spaltensumme", "Metering Interval", "Name", "MeteringReason", "Number of Metering Intervals",
                        "Spaltensumme / minimale Qualität", "Data Completeness", "Metering Point active end",
                        "Metering Point active start", "Data Period end", "Data Period start"]
  {
    assert "MeteringpointID" !in SKIPPED by {
      assert forall t :: t in SKIPPED ==> t[0] != 'M' || |t| != 15;
    }
    assert "Report Filter end" !in SKIPPED && "Report Filter start" !in SKIPPED by {
      assert forall t :: t in SKIPPED ==> t[0] != 'R';
    }
    SkippedTitles();
    TitlesDiffer();
  }

  lemma {:induction false} TitlesDiffer()
    ensures "MeteringpointID"[0] == 'M' && "Metercode"[0] == 'M' && |"MeteringpointID"| != |"Metercode"|
    ensures "Energy direction"[0] == 'E' && "Period end"[0] == "Period start"[0] == 'P'
    ensures "Report Filter end"[0] == "Report Filter start"[0] == 'R'
    ensures |"Period end"| == 10 && |"Period start"| == 12
    ensures |"Report Filter end"| == 17 && |"Report Filter start"| == 19
  {
  }

  // A word occurs in a text exactly when the text continues on both sides of it.
  lemma {:induction false} ContainsIffBetween(s: string, word: string)
    ensures Contains(s, word) <==> exists a, b :: s == a + word + b
  {
    if Contains(s, word) {
      var i: nat :| i <= |s| && OccursAt(s, word, i);
      assert s == s[..i] + word + s[i + |word|..];
    }
    if a, b :| s == a + word + b {
      assert OccursAt(a + word + b, word, |a|) by {
        assert (a + word + b)[|a|..|a| + |word|] == word;
      }
    }
  }

  // Every label in capitals, by the first of the words it contains.
  lemma {:induction false} LabelsByWord(c: string)
    ensures ClassifyMeterCode(c) == TotalCode <==> Contains(c, "GESAMTVERBRAUCH")
    ensures ClassifyMeterCode(c) == TotalProdCode <==>
              Contains(c, "GESAMTE GEMEINSCHAFTLICHE") && !Contains(c, "GESAMTVERBRAUCH")
    ensures ClassifyMeterCode(c) == ShareCode <==>
              Contains(c, "ANTEIL") && !Contains(c, "GESAMTVERBRAUCH") && !Contains(c, "GESAMTE GEMEINSCHAFTLICHE")
    ensures ClassifyMeterCode(c) == CoverageCode <==>
              Contains(c, "EIGENDECKUNG") && !Contains(c, "GESAMTVERBRAUCH")
              && !Contains(c, "GESAMTE GEMEINSCHAFTLICHE") && !Contains(c, "ANTEIL")
    ensures ClassifyMeterCode(c) == ProfitCode <==>
              (Contains(c, "ÜBERSCHUSSERZEUGUNG") || Contains(c, "UEBERSCHUSSERZEUGUNG"))
              && !Contains(c, "GESAMTVERBRAUCH") && !Contains(c, "GESAMTE GEMEINSCHAFTLICHE")
              && !Contains(c, "ANTEIL") && !Contains(c, "EIGENDECKUNG")
  {
    hide Contains;
  }

  // ---- Which columns a record reads. ----

  // The last column of a name with one of two labels, negative for none.
  ghost predicate IsLast(h: Columns, name: string, a: Kind, b: Kind, c: int) {
    && (0 <= c ==> c < |h.ids| && Owner(h, c) == Some(name) && (KindAt(h, c) == a || KindAt(h, c) == b))
    && (forall k: nat :: k < |h.ids| && c < k && Owner(h, k) == Some(name) ==> KindAt(h, k) != a && KindAt(h, k) != b)
  }

  ghost predicate IsFirst(h: Columns, name: string, c: nat) {
    && c < |h.ids| && Owner(h, c) == Some(name)
    && forall k: nat :: k < c ==> Owner(h, k) != Some(name)
  }

  // For every header each record reads the last column of its name under each label, and takes
  // direction and period from the first.
  lemma {:induction false} RecordReads(h: Columns, k: nat) returns (f: nat)
    requires k < |AllRecords(h)|
    ensures var r := AllRecords(h)[k];
            && 0 <= r.total && IsLast(h, r.meter, TotalCode, TotalProdCode, r.total)
            && IsLast(h, r.meter, ShareCode, ProfitCode, r.share)
            && IsLast(h, r.meter, CoverageCode, CoverageCode, r.coverage)
            && IsFirst(h, r.meter, f) && Nth(h.dirs, f) == Some(r.direction)
            && r.start == Nth(h.starts, f) && r.end == Nth(h.ends, f)
  {
    hide TotalColumns, Records, InDirection, Owner, IsTotalColumn, IsLast, KindAt;
    var cols := TotalColumns(h, |h.ids|);
    NumberedByRank(h, cols, k);
    RecordOwns(h, cols[k], AllRecords(h)[k].sourceIdx);
    var name := Owner(h, cols[k]).value;
    LastIsLast(h, name, 0, TotalCode, TotalProdCode);
    LastIsLast(h, name, 1, ShareCode, ProfitCode);
    LastIsLast(h, name, 2, CoverageCode, CoverageCode);
    f := FirstColumn(h, name, |h.ids|);
    OwnedHasDirection(h, f);
  }

  lemma {:induction false} OwnedHasDirection(h: Columns, i: nat)
    requires Owner(h, i).Some?
    ensures i < |h.dirs| && h.dirs[i].Some?
  {
  }

  lemma {:induction false} LastIsLast(h: Columns, name: string, role: nat, a: Kind, b: Kind)
    requires (role == 0 && a == TotalCode && b == TotalProdCode) || (role == 1 && a == ShareCode && b == ProfitCode)
             || (role == 2 && a == b == CoverageCode)
    ensures IsLast(h, name, a, b, LastColumn(h, name, role, |h.ids|))
  {
    hide Owner, KindAt;
  }

  // Every name with a Total column has a record.
  lemma {:induction false} TotalsAreRecorded(h: Columns, i: nat) returns (k: nat)
    requires i < |h.ids| && Owner(h, i).Some? && KindAt(h, i) in {TotalCode, TotalProdCode}
    ensures k < |AllRecords(h)| && AllRecords(h)[k].meter == Owner(h, i).value
  {
    hide Records, InDirection, Owner, KindAt;
    var name, cols := Owner(h, i).value, TotalColumns(h, |h.ids|);
    var c := LastColumn(h, name, 0, |h.ids|);
    assert i <= c && IsTotalColumn(h, c);
    k :| 0 <= k < |cols| && cols[k] == c;
    NumberedByRank(h, cols, k);
  }

  // ---- Which cell a slot comes from. ----

  // One measured slot with the number of a column.
  predicate IsCellSlot(fmt: Formats, s: SheetSlot, name: string, code: string, seconds: int, row: seq<string>, c: int) {
    0 <= c && s == SheetSlot(name, code, seconds, ReadNumber(fmt, SafeCol(row, c + 1)), 1)
  }

  // Total, share and coverage of a consumer, total and profit of a producer, under their codes.
  predicate IsSlotOf(fmt: Formats, s: SheetSlot, r: CpRecord, seconds: int, row: seq<string>) {
    if r.direction == Consumer then
      || IsCellSlot(fmt, s, r.meter, "1-1:1.9.0 G.01", seconds, row, r.total)
      || IsCellSlot(fmt, s, r.meter, "1-1:2.9.0 G.02", seconds, row, r.share)
      || IsCellSlot(fmt, s, r.meter, "1-1:2.9.0 G.03", seconds, row, r.coverage)
    else
      || IsCellSlot(fmt, s, r.meter, "1-1:2.9.0 G.01", seconds, row, r.total)
      || IsCellSlot(fmt, s, r.meter, "1-1:2.9.0 P.01", seconds, row, r.share)
  }

  lemma {:induction false} SlotsByCode(fmt: Formats, r: CpRecord, seconds: int, row: seq<string>, s: SheetSlot)
    ensures s in SlotsForRow(fmt, r, seconds, row) <==> IsSlotOf(fmt, s, r, seconds, row)
  {
    hide ReadNumber, SafeCol;
  }

  ghost predicate IsSlotOfAny(fmt: Formats, s: SheetSlot, rs: seq<CpRecord>, seconds: int, row: seq<string>) {
    exists k :: 0 <= k < |rs| && IsSlotOf(fmt, s, rs[k], seconds, row)
  }

  lemma {:induction false} SlotsOfRecords(fmt: Formats, rs: seq<CpRecord>, seconds: int, row: seq<string>, s: SheetSlot)
    ensures s in RowSlots(fmt, rs, seconds, row) <==> IsSlotOfAny(fmt, s, rs, seconds, row)
  {
    if rs != [] {
      hide IsSlotOf, SlotsForRow, IsSlotOfAny;
      var n := |rs| - 1;
      SlotsOfRecords(fmt, rs[..n], seconds, row, s);
      SlotsByCode(fmt, rs[n], seconds, row, s);
      SlotOfLast(fmt, rs, seconds, row, s);
    }
  }

  lemma {:induction false} SlotOfLast(fmt: Formats, rs: seq<CpRecord>, seconds: int, row: seq<string>, s: SheetSlot)
    requires rs != []
    ensures var n := |rs| - 1;
            IsSlotOfAny(fmt, s, rs, seconds, row)
            <==> IsSlotOfAny(fmt, s, rs[..n], seconds, row) || IsSlotOf(fmt, s, rs[n], seconds, row)
  {
    hide IsSlotOf;
    var n := |rs| - 1;
    if k :| 0 <= k < |rs| && IsSlotOf(fmt, s, rs[k], seconds, row) {
      assert k < n ==> rs[..n][k] == rs[k];
    }
    if k :| 0 <= k < n && IsSlotOf(fmt, s, rs[..n][k], seconds, row) {
      assert rs[..n][k] == rs[k];
    }
  }

  // A row of data: its first cell is no title and reads as a date.
  predicate IsData(fmt: Formats, row: seq<string>, seconds: int) {
    row != [] && RowKindOf(row[0]) == OtherRow && ParseDateCell(fmt, row[0]) == Some(seconds)
  }

  ghost predicate ComesFrom(fmt: Formats, rs: seq<CpRecord>, row: seq<string>, s: SheetSlot) {
    IsData(fmt, row, s.seconds) && IsSlotOfAny(fmt, s, rs, s.seconds, row)
  }

  // What one row adds.
  lemma {:induction false} RowAdds(fmt: Formats, s: State, row: seq<string>, x: SheetSlot)
    requires !ReadNextRow(fmt, s, row).failed
    requires s.records.None? ==> s.slots == []
    ensures var t := ReadNextRow(fmt, s, row);
            && !s.failed && (s.records.Some? ==> t.records == s.records)
            && (t.records.None? ==> t.slots == [] && !exists sec :: IsData(fmt, row, sec))
            && (t.records.Some? ==>
                  (x in t.slots <==> x in s.slots || ComesFrom(fmt, t.records.value, row, x)))
  {
    hide Build, RowKindOf, ParseDateCell, IsDateCell, RowSlots, IsSlotOfAny, WithHeaderRow;
    var t := ReadNextRow(fmt, s, row);
    if row != [] {
      DateCellsAreDates(fmt, row[0]);
    }
    if t.records.Some? && row != [] && ParseDateCell(fmt, row[0]).Some? {
      SlotsOfRecords(fmt, t.records.value, ParseDateCell(fmt, row[0]).value, row, x);
      SlotSeconds(fmt, t.records.value, ParseDateCell(fmt, row[0]).value, row, x);
    }
  }

  lemma {:induction false} DateCellsAreDates(fmt: Formats, cell: string)
    ensures ParseDateCell(fmt, cell).Some? ==> IsDateCell(cell)
  {
    hide Trim, ParseDateLine, SerialMoment;
  }

  lemma {:induction false} SlotSeconds(fmt: Formats, rs: seq<CpRecord>, seconds: int, row: seq<string>, s: SheetSlot)
    ensures IsSlotOfAny(fmt, s, rs, seconds, row) ==> s.seconds == seconds
  {
  }

  // For every sheet: the slots are those of the rows of data, each read under the records of the
  // header, and no others.
  lemma {:induction false} SlotsComeFromRows(fmt: Formats, rows: seq<seq<string>>, x: SheetSlot)
    requires !ReadRows(fmt, rows).failed
    ensures var s := ReadRows(fmt, rows);
            && (s.records.None? ==> s.slots == [] && forall n, sec :: 0 <= n < |rows| ==> !IsData(fmt, rows[n], sec))
            && (s.records.Some? ==>
                  (x in s.slots <==> exists n :: 0 <= n < |rows| && ComesFrom(fmt, s.records.value, rows[n], x)))
  {
    if rows != [] {
      hide ReadNextRow, ComesFrom, IsData;
      var n := |rows| - 1;
      var s, t := ReadRows(fmt, rows[..n]), ReadRows(fmt, rows);
      NotFailedBefore(fmt, s, rows[n]);
      SlotsComeFromRows(fmt, rows[..n], x);
      RowAdds(fmt, s, rows[n], x);
      NothingBefore(fmt, rows, n, s, t, x);
    }
  }

  lemma {:induction false} NotFailedBefore(fmt: Formats, s: State, row: seq<string>)
    ensures !ReadNextRow(fmt, s, row).failed ==> !s.failed
  {
  }

  // Rows without data bring nothing, whatever the records are.
  lemma {:induction false} NothingBefore(fmt: Formats, rows: seq<seq<string>>, n: nat, s: State, t: State, x: SheetSlot)
    requires n == |rows| - 1
    requires s.records.None? ==> s.slots == [] && forall i, sec :: 0 <= i < n ==> !IsData(fmt, rows[..n][i], sec)
    requires s.records.Some? ==>
               t.records == s.records
               && (x in s.slots <==> exists i :: 0 <= i < n && ComesFrom(fmt, s.records.value, rows[..n][i], x))
    requires t.records.None? ==> s.records.None? && t.slots == [] && !exists sec :: IsData(fmt, rows[n], sec)
    requires t.records.Some? ==> (x in t.slots <==> x in s.slots || ComesFrom(fmt, t.records.value, rows[n], x))
    ensures t.records.None? ==> t.slots == [] && forall i, sec :: 0 <= i < |rows| ==> !IsData(fmt, rows[i], sec)
    ensures t.records.Some? ==>
              (x in t.slots <==> exists i :: 0 <= i < |rows| && ComesFrom(fmt, t.records.value, rows[i], x))
  {
    hide IsData;
    assert forall i :: 0 <= i < n ==> rows[..n][i] == rows[i];
    if t.records.Some? {
      var rs := t.records.value;
      if i :| 0 <= i < |rows| && ComesFrom(fmt, rs, rows[i], x) {
        if i < n {
          assert ComesFrom(fmt, rs, rows[..n][i], x);
          assert IsData(fmt, rows[..n][i], x.seconds);
        }
      }
      if s.records.Some? && x in s.slots {
        var i :| 0 <= i < n && ComesFrom(fmt, rs, rows[..n][i], x);
        assert ComesFrom(fmt, rs, rows[i], x);
      }
    }
  }

  // A row that starts with the serial date 44927 stores the Total cell of every record at the first
  // moment of 2023 in UTC, whatever else the sheet holds.
  lemma {:induction false} NewYearRow(fmt: Formats, rows: seq<seq<string>>, n: nat, k: nat) returns (x: SheetSlot)
    requires fmt.number("44927") == Some(44927000000.0)
    requires n < |rows| && rows[n] != [] && rows[n][0] == "44927"
    requires !ReadRows(fmt, rows).failed
    requires ReadRows(fmt, rows).records.Some? && k < |ReadRows(fmt, rows).records.value|
    ensures var s := ReadRows(fmt, rows);
            var r := s.records.value[k];
            && x in s.slots && x.meter == r.meter
            && x.code == (if r.direction == Consumer then "1-1:1.9.0 G.01" else "1-1:2.9.0 G.01")
            && x.seconds == 60 * (DayNumber(2023, 1, 1) * 1440 + fmt.zone)
            && 0 <= r.total && x.value == ReadNumber(fmt, SafeCol(rows[n], r.total + 1)) && x.qov == 1
  {
    hide ReadRows, ParseDateCell, DayNumber, Build, RowKindOf, AllRecords, SafeCol, ReadNumber;
    var rs := ReadRows(fmt, rows).records.value;
    NewYearCell(fmt);
    NumberIsNoTitle();
    RecordsHaveTotals(fmt, rows, k);
    var seconds := 60 * (DayNumber(2023, 1, 1) * 1440 + fmt.zone);
    x := SheetSlot(rs[k].meter, if rs[k].direction == Consumer then "1-1:1.9.0 G.01" else "1-1:2.9.0 G.01", seconds,
                   ReadNumber(fmt, SafeCol(rows[n], rs[k].total + 1)), 1);
    assert IsSlotOf(fmt, x, rs[k], seconds, rows[n]);
    assert ComesFrom(fmt, rs, rows[n], x);
    SlotsComeFromRows(fmt, rows, x);
  }

  lemma {:induction false} NumberIsNoTitle()
    ensures RowKindOf("44927") == OtherRow
  {
    assert forall t :: t in SKIPPED ==> t[0] != '4';
  }

  // Every imported record has a Total column.
  lemma {:induction false} RecordsHaveTotals(fmt: Formats, rows: seq<seq<string>>, k: nat)
    requires !ReadRows(fmt, rows).failed
    requires ReadRows(fmt, rows).records.Some? && k < |ReadRows(fmt, rows).records.value|
    ensures 0 <= ReadRows(fmt, rows).records.value[k].total
  {
    hide ReadRows, RowKindOf, AllRecords, IsLast, IsFirst, Owner;
    var m := RecordsFromHeader(fmt, rows);
    var h := ReadRows(fmt, rows[..m]).header;
    var f := RecordReads(Columns(h.ids.value, h.dirs.value, h.codes.value, h.starts, h.ends), k);
  }

  // ---- Which header counts. ----

  // The last row with one of two titles.
  predicate IsLastRow(rows: seq<seq<string>>, a: string, b: string, i: nat) {
    && i < |rows| && rows[i] != [] && rows[i][0] in [a, b]
    && forall j :: i < j < |rows| ==> rows[j] == [] || rows[j][0] !in [a, b]
  }

  ghost predicate HasTitle(rows: seq<seq<string>>, a: string, b: string) {
    exists i: nat :: IsLastRow(rows, a, b, i)
  }

  lemma {:induction false} NextTitle(rows: seq<seq<string>>, row: seq<string>, a: string, b: string)
    ensures row != [] && row[0] in [a, b] ==> IsLastRow(rows + [row], a, b, |rows|)
    ensures row == [] || row[0] !in [a, b] ==>
              forall i: nat :: IsLastRow(rows + [row], a, b, i) <==> IsLastRow(rows, a, b, i)
  {
    var all := rows + [row];
    assert all[|rows|] == row;
    if row == [] || row[0] !in [a, b] {
      forall i: nat ensures IsLastRow(all, a, b, i) <==> IsLastRow(rows, a, b, i) {
        if IsLastRow(all, a, b, i) {
          assert forall j :: i < j < |rows| ==> rows[j] == all[j];
        }
      }
    }
  }

  // The header holds the last row of each title.
  ghost predicate IsHeaderOf(fmt: Formats, rows: seq<seq<string>>, h: Header) {
    && (h.ids.Some? <==> HasTitle(rows, "MeteringpointID", "MeteringpointID"))
    && (forall i: nat :: IsLastRow(rows, "MeteringpointID", "MeteringpointID", i) ==> h.ids == Some(rows[i][1..]))
    && (h.dirs.Some? <==> HasTitle(rows, "Energy direction", "Energy direction"))
    && (forall i: nat :: IsLastRow(rows, "Energy direction", "Energy direction", i) ==>
          h.dirs == Some(ParseDirections(rows[i][1..])))
    && (h.codes.Some? <==> HasTitle(rows, "Metercode", "Metercode"))
    && (forall i: nat :: IsLastRow(rows, "Metercode", "Metercode", i) ==> h.codes == Some(ParseKinds(rows[i][1..])))
    && (!HasTitle(rows, "Period start", "Report Filter start") ==> h.starts == [])
    && (forall i: nat :: IsLastRow(rows, "Period start", "Report Filter start", i) ==>
          h.starts == ParseDates(fmt, rows[i][1..]))
    && (!HasTitle(rows, "Period end", "Report Filter end") ==> h.ends == [])
    && (forall i: nat :: IsLastRow(rows, "Period end", "Report Filter end", i) ==>
          h.ends == ParseDates(fmt, rows[i][1..]))
  }

  lemma {:induction false} RowsBefore(rows: seq<seq<string>>, row: seq<string>, a: string, b: string)
    ensures forall i: nat :: IsLastRow(rows, a, b, i) ==> (rows + [row])[i] == rows[i]
    ensures row == [] || row[0] !in [a, b] ==> (HasTitle(rows + [row], a, b) <==> HasTitle(rows, a, b))
    ensures row != [] && row[0] in [a, b] ==>
              HasTitle(rows + [row], a, b) && forall i: nat :: IsLastRow(rows + [row], a, b, i) ==> i == |rows|
  {
    NextTitle(rows, row, a, b);
    var all := rows + [row];
    if row != [] && row[0] in [a, b] {
      assert IsLastRow(all, a, b, |rows|);
      assert all[|rows|] == row;
    } else {
      if HasTitle(rows, a, b) {
        var i: nat :| IsLastRow(rows, a, b, i);
        assert IsLastRow(all, a, b, i);
      }
      if HasTitle(all, a, b) {
        var i: nat :| IsLastRow(all, a, b, i);
        assert IsLastRow(rows, a, b, i);
      }
    }
  }

  lemma {:induction false} NextHeaderRow(fmt: Formats, rows: seq<seq<string>>, h: Header, row: seq<string>)
    requires IsHeaderOf(fmt, rows, h)
    ensures IsHeaderOf(fmt, rows + [row], if row != [] then WithHeaderRow(fmt, h, row) else h)
  {
    hide IsLastRow, HasTitle, RowKindOf;
    RowsBefore(rows, row, "MeteringpointID", "MeteringpointID");
    RowsBefore(rows, row, "Energy direction", "Energy direction");
    RowsBefore(rows, row, "Metercode", "Metercode");
    RowsBefore(rows, row, "Period start", "Report Filter start");
    RowsBefore(rows, row, "Period end", "Report Filter end");
    NextTitle(rows, row, "MeteringpointID", "MeteringpointID");
    NextTitle(rows, row, "Energy direction", "Energy direction");
    NextTitle(rows, row, "Metercode", "Metercode");
    NextTitle(rows, row, "Period start", "Report Filter start");
    NextTitle(rows, row, "Period end", "Report Filter end");
    assert (rows + [row])[|rows|] == row;
    if row != [] {
      TitlesByText(row[0]);
    }
  }

  lemma {:induction false} NothingYet(fmt: Formats)
    ensures IsHeaderOf(fmt, [], START.header)
  {
  }

  // For every sheet the header holds, under each title, the last row with it.
  lemma {:induction false} HeaderIsLastRows(fmt: Formats, rows: seq<seq<string>>)
    requires !ReadRows(fmt, rows).failed
    ensures IsHeaderOf(fmt, rows, ReadRows(fmt, rows).header)
  {
    hide IsHeaderOf, WithHeaderRow, ReadNextRow, START;
    if rows == [] {
      NothingYet(fmt);
    } else {
      var n := |rows| - 1;
      var s := ReadRows(fmt, rows[..n]);
      NotFailedBefore(fmt, s, rows[n]);
      HeaderIsLastRows(fmt, rows[..n]);
      NextHeaderRow(fmt, rows[..n], s.header, rows[n]);
      HeaderAfter(fmt, s, rows[n]);
      assert rows[..n] + [rows[n]] == rows;
    }
  }

  lemma {:induction false} HeaderAfter(fmt: Formats, s: State, row: seq<string>)
    requires !s.failed
    ensures ReadNextRow(fmt, s, row).header == if row != [] then WithHeaderRow(fmt, s.header, row) else s.header
  {
    hide RowKindOf, IsDateCell, ParseDateCell, RowSlots, Build;
  }

  // The records are those of the header as it stands at the first row of dates.
  lemma {:induction false} RecordsFromHeader(fmt: Formats, rows: seq<seq<string>>) returns (n: nat)
    requires !ReadRows(fmt, rows).failed && ReadRows(fmt, rows).records.Some?
    ensures n < |rows| && rows[n] != [] && RowKindOf(rows[n][0]) == OtherRow && IsDateCell(rows[n][0])
    ensures !ReadRows(fmt, rows[..n]).failed && ReadRows(fmt, rows[..n]).records.None?
    ensures Build(ReadRows(fmt, rows[..n]).header) == Ok(ReadRows(fmt, rows).records.value)
  {
    hide Build, RowKindOf, IsDateCell, ParseDateCell, RowSlots, WithHeaderRow;
    var m := |rows| - 1;
    NotFailedBefore(fmt, ReadRows(fmt, rows[..m]), rows[m]);
    if ReadRows(fmt, rows[..m]).records.Some? {
      n := RecordsFromHeader(fmt, rows[..m]);
      assert rows[..m][..n] == rows[..n];
    } else {
      n := m;
    }
  }

  // The metering point a column counts for: the trimmed name, when it has four bytes or more, is
  // not "total", and the column has a direction and a known label.
  lemma {:induction false} OwnersByText(h: Columns, i: nat, name: string)
    ensures Owner(h, i) == Some(name) <==>
              && i < |h.ids| && name == Trim(h.ids[i])
              && 4 <= ByteLength(name) && !EqualFold(name, "total") && !EqualFold(name, "mm")
              && i < |h.codes| && h.codes[i] != BadCode && i < |h.dirs| && h.dirs[i].Some?
  {
    hide Trim, ByteLength, EqualFold;
  }

  // Letters outside ASCII count more than one byte.
  lemma {:induction false} LettersInBytes()
    ensures ByteLength("A") == 1 && ByteLength("Ü") == 2 && ByteLength("ÄÖ") == 4 && ByteLength("€") == 3
    ensures !NameOk("ÄA") && NameOk("ÄÖ")
  {
    ByteLengthSnoc("", 'A');
    ByteLengthSnoc("", 'Ü');
    ByteLengthSnoc("", 'Ä');
    ByteLengthSnoc("Ä", 'Ö');
    ByteLengthSnoc("Ä", 'A');
    ByteLengthSnoc("", '€');
    assert "" + "A" == "A" && "" + "Ü" == "Ü" && "" + "Ä" == "Ä" && "" + "€" == "€";
    assert "Ä" + "Ö" == "ÄÖ" && "Ä" + "A" == "ÄA";
  }

  lemma {:induction false} ByteLengthSnoc(s: string, c: char)
    ensures ByteLength(s + [c])
            == ByteLength(s) + if c as int < 0x80 then 1 else if c as int < 0x800 then 2
                               else if c as int < 0x1_0000 then 3 else 4
  {
    assert (s + [c])[..|s|] == s;
  }

  // A blank cell, an unreadable one and one beyond the row count as 0; other texts as their number.
  lemma {:induction false} NumbersByText(fmt: Formats, cell: string, row: seq<string>, i: int)
    ensures Trim(cell) == "" ==> ReadNumber(fmt, cell) == 0.0
    ensures Trim(cell) != "" ==>
              ReadNumber(fmt, cell) == if fmt.number(Trim(cell)).Some? then fmt.number(Trim(cell)).value else 0.0
    ensures 0 <= i < |row| ==> SafeCol(row, i) == row[i]
    ensures i < 0 || |row| <= i ==> ReadNumber(fmt, SafeCol(row, i)) == 0.0
  {
  }

  // Labels are compared in capitals, those of Latin-1 included.
  lemma {:induction false} CapitalLetters()
    ensures Upper("azäöü") == "AZÄÖÜ" && Upper("ÄZ09 /÷ß") == "ÄZ09 /÷ß"
  {
  }

  // An import fails for its header exactly when, at the first row of dates, one of the rows of names,
  // directions and labels has not come yet.
  lemma {:induction false} FailsForHeader(fmt: Formats, rows: seq<seq<string>>)
    ensures ReadRows(fmt, rows).failed <==> exists n: nat :: IsBadStart(fmt, rows, n)
  {
    if rows != [] {
      hide Build, RowKindOf, IsDateCell, ParseDateCell, RowSlots, WithHeaderRow, ReadNextRow;
      var m := |rows| - 1;
      var s := ReadRows(fmt, rows[..m]);
      FailsForHeader(fmt, rows[..m]);
      FailsNext(fmt, s, rows[m]);
      forall n: nat ensures IsBadStart(fmt, rows[..m], n) <==> n < m && IsBadStart(fmt, rows, n) {
        if n < m {
          assert rows[..m][..n] == rows[..n] && rows[..m][n] == rows[n];
        }
      }
      assert IsBadStart(fmt, rows, m) <==> !s.failed && ReadRows(fmt, rows).failed;
      if n: nat :| IsBadStart(fmt, rows, n) {
        assert n == m || IsBadStart(fmt, rows[..m], n);
      }
    }
  }

  // The first row of dates, before which the header is incomplete.
  predicate IsBadStart(fmt: Formats, rows: seq<seq<string>>, n: nat) {
    && n < |rows|
    && var s := ReadRows(fmt, rows[..n]);
       && !s.failed && s.records.None? && rows[n] != [] && RowKindOf(rows[n][0]) == OtherRow && IsDateCell(rows[n][0])
       && (s.header.ids.None? || s.header.dirs.None? || s.header.codes.None?)
  }

  lemma {:induction false} FailsNext(fmt: Formats, s: State, row: seq<string>)
    ensures ReadNextRow(fmt, s, row).failed <==>
              s.failed
              || (s.records.None? && row != [] && RowKindOf(row[0]) == OtherRow && IsDateCell(row[0])
                  && (s.header.ids.None? || s.header.dirs.None? || s.header.codes.None?))
  {
    hide RowKindOf, IsDateCell, ParseDateCell, RowSlots, WithHeaderRow, AllRecords;
  }
}
