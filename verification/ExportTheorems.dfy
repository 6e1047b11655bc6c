/** What an export shows, in terms of texts and of the looked-up rows. */
module ExportTheorems {
  import opened Outcomes
  import opened CounterPoints
  import opened DateCells
  import opened Loader
  import opened QueryEngine
  import opened RawLine
  import opened Rounding
  import opened SheetExport

  // ---- The header. ----

  // The labels; the first and the last are too long to be one text here.
  predicate IsLabel(d: Direction, j: nat, text: string) {
    || (d == Consumer && j == 0 && text == "Gesamtverbrauch" + " lt. Messung (bei Teilnahme gem. Erzeugung) [KWH]")
    || (d == Consumer && j == 1 && text == "Anteil gemeinschaftliche Erzeugung [KWH]")
    || (d == Consumer && j == 2 && text == "Eigendeckung gemeinschaftliche Erzeugung [KWH]")
    || (d == Producer && j == 0 && text == "Gesamte gemeinschaftliche Erzeugung [KWH]")
    || (d == Producer && j == 1 && text == "Gesamt/" + ("Überschusserzeugung" + ", Gemeinschaftsüberschuss [KWH]"))
  }

  lemma {:induction false} LabelTexts(d: Direction, j: nat)
    requires j < Stride(d)
    ensures IsLabel(d, j, MeterCode(d, j))
  {
    ShareText();
    CoverageText();
    ProducedText();
    hide SHARE_OF_COMMUNITY, OWN_COVERAGE, TOTAL_PRODUCED;
  }

  lemma {:induction false} ShareText()
    ensures SHARE_OF_COMMUNITY == "Anteil gemeinschaftliche Erzeugung [KWH]"
  {
  }

  lemma {:induction false} CoverageText()
    ensures OWN_COVERAGE == "Eigendeckung gemeinschaftliche Erzeugung [KWH]"
  {
  }

  lemma {:induction false} ProducedText()
    ensures TOTAL_PRODUCED == "Gesamte gemeinschaftliche Erzeugung [KWH]"
  {
  }

  // The owner of a column, by counting: three columns for each consumer, then two for each producer.
  predicate IsColumnOf(ctx: RunnerContext, k: nat, i: nat, j: nat) {
    if i < ctx.countCons then j < 3 && k == 3 * i + j
    else j < 2 && k == 3 * ctx.countCons + 2 * (i - ctx.countCons) + j
  }

  // What the header shows above the j-th column of the i-th metering point.
  lemma {:induction false} HeaderByColumn(ctx: RunnerContext, sheet: Sheet, k: nat, i: nat, j: nat)
    requires ctx.Valid() && HasHeader(ctx, sheet) && i < |ctx.meta| && IsColumnOf(ctx, k, i, j)
    ensures forall n :: 1 <= n < 7 ==> k + 1 < |sheet[n]|
    ensures sheet[1][0] == Text("MeteringpointID") && sheet[1][k + 1] == Text(ctx.meta[i].meter)
    ensures sheet[2][0] == Text("Name")
    ensures sheet[3][0] == Text("Energy direction")
            && sheet[3][k + 1] == Text(if ctx.meta[i].direction == Consumer then "CONSUMPTION" else "GENERATION")
    ensures sheet[4][0] == Text("Period start") && sheet[4][k + 1] == Text(PeriodStartCell(ctx, ctx.meta[i]))
    ensures sheet[5][0] == Text("Period end") && sheet[5][k + 1] == Text(PeriodEndCell(ctx, ctx.meta[i]))
    ensures sheet[6][0] == Text("Metercode")
            && exists text :: IsLabel(ctx.meta[i].direction, j, text) && sheet[6][k + 1] == Text(text)
  {
    hide OwnerAt, SlotAt, PeriodStartCell, PeriodEndCell, IsLabel, MeterCode, IsHeader;
    ColumnOwner(ctx, k, i, j);
    LabelTexts(ctx.meta[i].direction, j);
    TitledCell(ctx, "MeteringpointID", IdValue(ctx), sheet[1], k);
    TitledCell(ctx, "Name", NameValue(ctx), sheet[2], k);
    TitledCell(ctx, "Energy direction", DirectionValue(ctx), sheet[3], k);
    TitledCell(ctx, "Period start", StartValue(ctx), sheet[4], k);
    TitledCell(ctx, "Period end", EndValue(ctx), sheet[5], k);
    TitledCell(ctx, "Metercode", CodeValue(ctx), sheet[6], k);
  }

  lemma {:induction false} ColumnOwner(ctx: RunnerContext, k: nat, i: nat, j: nat)
    requires ctx.Valid() && i < |ctx.meta| && IsColumnOf(ctx, k, i, j)
    ensures k < ctx.Columns() && OwnerAt(ctx.countCons, k) == i && SlotAt(ctx.countCons, k) == j
    ensures j < Stride(ctx.meta[i].direction)
  {
  }

  lemma {:induction false} TitledCell(ctx: RunnerContext, title: string, value: (CounterPoint, nat) -> Cell,
                                      row: seq<Cell>, k: nat)
    requires ctx.Valid() && IsTitled(ctx, title, value, row) && k < ctx.Columns()
    ensures OwnerAt(ctx.countCons, k) < |ctx.meta| && k + 1 < |row| && row[0] == Text(title)
    ensures row[k + 1] == value(ctx.meta[OwnerAt(ctx.countCons, k)], SlotAt(ctx.countCons, k))
  {
    OwnerInRange(ctx, k);
    hide OwnerAt, SlotAt;
    assert row[1..][k] == row[k + 1];
  }

  // ---- The rows of data. ----

  // A looked-up row is shown rounded when its quality is 1, 2 or 3, and a missing one as 0.
  function LookedUpCell(found: Option<SlotRow>): Cell {
    match found
    case None => Num(0.0)
    case Some(r) => if r.qov == 1 || r.qov == 2 || r.qov == 3 then Num(RoundFixed(r.value)) else Text("")
  }

  // The n-th row of data shows, in the j-th column of the i-th metering point, the j-th slot of that
  // metering point at the n-th moment.
  lemma {:induction false} DataByColumn(ctx: RunnerContext, cps: seq<CounterPoint>, shape: Shape, rows: seq<SlotRow>,
                                        fs: seq<Entry>, sheet: Sheet, n: nat, c: nat, k: nat, i: nat, j: nat)
    requires ctx.Valid() && IsSheet(ctx, fs, sheet) && IsShape(cps, shape) && Delivered(cps, shape, rows, fs)
             && n < |fs|
    requires i < |ctx.meta| && IsColumnOf(ctx, k, i, j) && c < |cps| && ctx.meta[i] == cps[c]
    ensures 10 + n < |sheet| && k + 1 < |sheet[10 + n]| && sheet[10 + n][0] == Text(PrintMoment(fs[n].ts))
    ensures sheet[10 + n][k + 1] == LookedUpCell(Lookup(rows, fs[n].ts, cps[c], j))
  {
    hide OwnerAt, SlotAt, HasHeader, PrintMoment, Lookup, CellIdx, ShownCell, LookedUpCell, IsShape;
    ColumnOwner(ctx, k, i, j);
    var row := sheet[10 + n];
    assert IsLineRow(ctx, fs[n], row);
    assert row[1..][k] == row[k + 1] == ColumnCell(ctx, fs[n].line, k);
    assert Shows(cps, shape, rows, fs[n].ts, fs[n].line);
    CellInLine(cps, shape, rows, fs[n].ts, fs[n].line, c, j);
  }

  lemma {:induction false} CellInLine(cps: seq<CounterPoint>, shape: Shape, rows: seq<SlotRow>, ts: int,
                                      l: RawSourceLine, c: nat, j: nat)
    requires IsShape(cps, shape) && Shows(cps, shape, rows, ts, l) && c < |cps| && j < Stride(cps[c].direction)
    ensures ShownCell(l, cps[c].direction, CellIdx(cps[c], j)) == LookedUpCell(Lookup(rows, ts, cps[c], j))
  {
    hide Lookup, CellIdx, IsShape, RoundFixed;
    CellInBounds(cps, shape, c, j);
    assert Holds(l, cps[c], j, Lookup(rows, ts, cps[c], j));
    WholeIsMicro(0);
    RoundKeepsMicro(0.0);
  }
}
