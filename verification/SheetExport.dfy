/**
 The "Energiedaten" sheet: which column belongs to which metering point, the header rows and
 one row per slot. A sheet is its rows from the top; a row is its cells from the left.
 */
module SheetExport {
  import opened Outcomes
  import opened Calendar
  import opened CounterPoints
  import opened DateCells
  import opened RawLine
  import opened Rounding
  import opened RowId
  import opened Loader

  datatype Cell = Text(s: string) | Num(v: real)

  const BLANK := Text("")

  type Sheet = seq<seq<Cell>>

  datatype PeriodRange = PeriodRange(start: Option<int>, end: Option<int>)

  datatype RunnerContext = RunnerContext(start: int, end: int, names: map<string, string>,
                                         meta: seq<CounterPoint>, countCons: nat, countProd: nat,
                                         periodsConsumer: map<nat, PeriodRange>, periodsProducer: map<nat, PeriodRange>)
  {
    // Consumers first, then producers.
    ghost predicate Valid() {
      && |meta| == countCons + countProd
      && forall i :: 0 <= i < |meta| ==> meta[i].direction == if i < countCons then Consumer else Producer
    }

    function PeriodOf(m: CounterPoint): PeriodRange {
      var periods := if m.direction == Consumer then periodsConsumer else periodsProducer;
      if m.sourceIdx in periods then periods[m.sourceIdx] else PeriodRange(None, None)
    }

    function Columns(): nat { 3 * countCons + 2 * countProd }
  }

  // ---- The order of the columns. ----

  datatype Requested = Requested(meter: string, name: string)

  // The requested metering points of a direction that exist, in the order of the request.
  function Chosen(cps: seq<CounterPoint>, req: seq<Requested>, d: Direction): seq<CounterPoint> {
    if req == [] then [] else
    var before := Chosen(cps, req[..|req| - 1], d);
    var found := FindMeter(cps, req[|req| - 1].meter);
    if found.Some? && found.value.direction == d then before + [found.value] else before
  }

  lemma {:induction false} ChosenHaveDirection(cps: seq<CounterPoint>, req: seq<Requested>, d: Direction)
    ensures forall i :: 0 <= i < |Chosen(cps, req, d)| ==>
              Chosen(cps, req, d)[i].direction == d && Chosen(cps, req, d)[i] in cps
  {
    if req != [] {
      ChosenHaveDirection(cps, req[..|req| - 1], d);
    }
  }

  // The requested metering point exists and is of the direction.
  predicate IsFound(cps: seq<CounterPoint>, meter: string, d: Direction) {
    FindMeter(cps, meter).Some? && FindMeter(cps, meter).value.direction == d
  }

  // The name of one of the metering points.
  ghost predicate HasName(cps: seq<CounterPoint>, meter: string) {
    exists i :: 0 <= i < |cps| && cps[i].meter == meter
  }

  lemma {:induction false} ChosenNames(cps: seq<CounterPoint>, req: seq<Requested>, d: Direction, meter: string)
    ensures HasName(Chosen(cps, req, d), meter)
            <==> exists i :: 0 <= i < |req| && req[i].meter == meter && IsFound(cps, req[i].meter, d)
  {
    if req != [] {
      var n := |req| - 1;
      var before, all := Chosen(cps, req[..n], d), Chosen(cps, req, d);
      ChosenNames(cps, req[..n], d, meter);
      if HasName(before, meter) {
        var i :| 0 <= i < |before| && before[i].meter == meter;
        assert all[i].meter == meter;
        var j :| 0 <= j < n && req[..n][j].meter == meter && IsFound(cps, req[..n][j].meter, d);
        assert req[j].meter == meter;
      }
      if req[n].meter == meter && IsFound(cps, meter, d) {
        assert all[|all| - 1].meter == meter;
      }
    }
  }

  // No existing metering point of the direction is asked for twice.
  ghost predicate AskedOnceOf(cps: seq<CounterPoint>, req: seq<Requested>, d: Direction) {
    forall i, j :: 0 <= i < j < |req| && req[i].meter == req[j].meter ==> !IsFound(cps, req[j].meter, d)
  }

  lemma {:induction false} ChosenDistinct(cps: seq<CounterPoint>, req: seq<Requested>, d: Direction)
    ensures DistinctMeters(Chosen(cps, req, d)) <==> AskedOnceOf(cps, req, d)
  {
    if req != [] {
      hide IsFound;
      var n := |req| - 1;
      ChosenDistinct(cps, req[..n], d);
      ChosenNames(cps, req[..n], d, req[n].meter);
      ChosenNext(cps, req, d);
      AskedNext(cps, req, d);
    }
  }

  lemma {:induction false} ChosenNext(cps: seq<CounterPoint>, req: seq<Requested>, d: Direction)
    requires req != []
    ensures var before, last := Chosen(cps, req[..|req| - 1], d), req[|req| - 1].meter;
            DistinctMeters(Chosen(cps, req, d))
            <==> DistinctMeters(before) && !(IsFound(cps, last, d) && HasName(before, last))
  {
    var last := FindMeter(cps, req[|req| - 1].meter);
    if last.Some? {
      DistinctSnoc(Chosen(cps, req[..|req| - 1], d), last.value);
    }
  }

  lemma {:induction false} DistinctSnoc(cps: seq<CounterPoint>, c: CounterPoint)
    ensures DistinctMeters(cps + [c]) <==> DistinctMeters(cps) && !HasName(cps, c.meter)
  {
    var all := cps + [c];
    if HasName(cps, c.meter) {
      var i :| 0 <= i < |cps| && cps[i].meter == c.meter;
      assert all[i].meter == all[|cps|].meter;
    }
    if !DistinctMeters(cps) {
      var i, j :| 0 <= i < j < |cps| && cps[i].meter == cps[j].meter;
      assert all[i].meter == all[j].meter;
    }
  }

  lemma {:induction false} AskedNext(cps: seq<CounterPoint>, req: seq<Requested>, d: Direction)
    requires req != []
    ensures var n := |req| - 1;
            AskedOnceOf(cps, req, d) <==>
              && AskedOnceOf(cps, req[..n], d)
              && !(IsFound(cps, req[n].meter, d)
                   && exists i :: 0 <= i < n && req[..n][i].meter == req[n].meter && IsFound(cps, req[..n][i].meter, d))
  {
    hide IsFound;
    var n := |req| - 1;
    if AskedOnceOf(cps, req, d) {
      forall i, j | 0 <= i < j < n && req[..n][i].meter == req[..n][j].meter
        ensures !IsFound(cps, req[..n][j].meter, d) {
        assert req[i].meter == req[j].meter;
      }
    } else {
      var i, j :| 0 <= i < j < |req| && req[i].meter == req[j].meter && IsFound(cps, req[j].meter, d);
      assert req[..n][i] == req[i] && (j < n ==> req[..n][j] == req[j]);
    }
  }

  // No existing metering point is asked for twice.
  ghost predicate AskedOnce(cps: seq<CounterPoint>, req: seq<Requested>) {
    forall i, j :: 0 <= i < j < |req| && req[i].meter == req[j].meter ==> FindMeter(cps, req[j].meter).None?
  }

  // The columns belong to distinct metering points exactly when the request repeats none that
  // exists.
  lemma {:induction false} DistinctWhenAskedOnce(cps: seq<CounterPoint>, req: seq<Requested>)
    ensures DistinctMeters(Chosen(cps, req, Consumer) + Chosen(cps, req, Producer)) <==> AskedOnce(cps, req)
  {
    ChosenDistinct(cps, req, Consumer);
    ChosenDistinct(cps, req, Producer);
    var con, pro := Chosen(cps, req, Consumer), Chosen(cps, req, Producer);
    forall i, j | 0 <= i < |con| && 0 <= j < |pro| ensures con[i].meter != pro[j].meter {
      var m := con[i].meter;
      ChosenNames(cps, req, Consumer, m);
      ChosenNames(cps, req, Producer, m);
      assert HasName(con, m);
      if pro[j].meter == m {
        assert HasName(pro, m);
      }
    }
    DistinctConcat(con, pro);
    AskedBothWays(cps, req);
  }

  lemma {:induction false} AskedBothWays(cps: seq<CounterPoint>, req: seq<Requested>)
    ensures AskedOnce(cps, req) <==> AskedOnceOf(cps, req, Consumer) && AskedOnceOf(cps, req, Producer)
  {
    forall m: string ensures FindMeter(cps, m).Some? <==> IsFound(cps, m, Consumer) || IsFound(cps, m, Producer) {
    }
    hide FindMeter, IsFound;
  }

  lemma {:induction false} DistinctConcat(a: seq<CounterPoint>, b: seq<CounterPoint>)
    requires forall i, j :: 0 <= i < |a| && 0 <= j < |b| ==> a[i].meter != b[j].meter
    ensures DistinctMeters(a + b) <==> DistinctMeters(a) && DistinctMeters(b)
  {
    var c := a + b;
    if DistinctMeters(c) {
      forall i, j | 0 <= i < j < |a| ensures a[i].meter != a[j].meter {
        assert c[i] == a[i] && c[j] == a[j];
      }
      forall i, j | 0 <= i < j < |b| ensures b[i].meter != b[j].meter {
        assert c[|a| + i] == b[i] && c[|a| + j] == b[j];
      }
    }
  }

  // The indexes of the context are those of the first n counterpoints.
  ghost predicate IsIndexed(cps: seq<CounterPoint>, n: nat, metaMap: map<string, CounterPoint>,
                            con: map<nat, PeriodRange>, pro: map<nat, PeriodRange>)
    requires n <= |cps|
  {
    && (forall m :: m in metaMap <==> FindMeter(cps[..n], m).Some?)
    && (forall m :: m in metaMap ==> Some(metaMap[m]) == FindMeter(cps[..n], m))
    && (forall i :: 0 <= i < n ==>
          var periods := if cps[i].direction == Consumer then con else pro;
          cps[i].sourceIdx in periods && periods[cps[i].sourceIdx] == PeriodRange(cps[i].periodStart, cps[i].periodEnd))
  }

  lemma {:induction false} NothingIndexed(cps: seq<CounterPoint>)
    ensures IsIndexed(cps, 0, map[], map[], map[])
  {
  }

  lemma {:induction false} FindNext(cps: seq<CounterPoint>, n: nat, m: string)
    requires n < |cps|
    ensures FindMeter(cps[..n + 1], m) == if cps[n].meter == m then Some(cps[n]) else FindMeter(cps[..n], m)
  {
    assert cps[..n + 1][..n] == cps[..n];
  }

  // The next counterpoint is taken into the index of its direction.
  lemma {:induction false} NextIndexed(cps: seq<CounterPoint>, n: nat, metaMap: map<string, CounterPoint>,
                                       con: map<nat, PeriodRange>, pro: map<nat, PeriodRange>)
    requires DistinctBlocks(cps) && n < |cps| && IsIndexed(cps, n, metaMap, con, pro)
    ensures var cp := cps[n];
            var period := PeriodRange(cp.periodStart, cp.periodEnd);
            if cp.direction == Consumer
            then IsIndexed(cps, n + 1, metaMap[cp.meter := cp], con[cp.sourceIdx := period], pro)
            else IsIndexed(cps, n + 1, metaMap[cp.meter := cp], con, pro[cp.sourceIdx := period])
  {
    var cp := cps[n];
    var next := metaMap[cp.meter := cp];
    hide FindMeter;
    forall m: string
      ensures m in next <==> FindMeter(cps[..n + 1], m).Some?
      ensures m in next ==> Some(next[m]) == FindMeter(cps[..n + 1], m)
    {
      FindNext(cps, n, m);
    }
    forall i | 0 <= i < n ensures cps[i].direction == cp.direction ==> cps[i].sourceIdx != cp.sourceIdx {
    }
  }

  method IndexCounterpoints(cps: seq<CounterPoint>)
    returns (metaMap: map<string, CounterPoint>, con: map<nat, PeriodRange>, pro: map<nat, PeriodRange>)
    requires DistinctBlocks(cps)
    ensures IsIndexed(cps, |cps|, metaMap, con, pro)
  {
    hide IsIndexed, DistinctBlocks;
    metaMap, con, pro := map[], map[], map[];
    NothingIndexed(cps);
    for n := 0 to |cps|
      invariant IsIndexed(cps, n, metaMap, con, pro)
    {
      var cp := cps[n];
      NextIndexed(cps, n, metaMap, con, pro);
      metaMap := metaMap[cp.meter := cp];
      if cp.direction == Consumer {
        con := con[cp.sourceIdx := PeriodRange(cp.periodStart, cp.periodEnd)];
      } else {
        pro := pro[cp.sourceIdx := PeriodRange(cp.periodStart, cp.periodEnd)];
      }
    }
  }

  // The name the request gives a metering point, in its last entry for it.
  ghost predicate AreNames(req: seq<Requested>, names: map<string, string>) {
    forall m: string ::
      && (m in names <==> Asks(req, m))
      && (m in names ==> exists i: nat :: IsLastEntry(req, i, m) && req[i].name == names[m])
  }

  ghost predicate Asks(req: seq<Requested>, m: string) {
    exists i :: 0 <= i < |req| && req[i].meter == m
  }

  predicate IsLastEntry(req: seq<Requested>, i: nat, m: string) {
    i < |req| && req[i].meter == m && forall j :: i < j < |req| ==> req[j].meter != m
  }

  lemma {:induction false} NextName(req: seq<Requested>, n: nat, names: map<string, string>)
    requires n < |req| && AreNames(req[..n], names)
    ensures AreNames(req[..n + 1], names[req[n].meter := req[n].name])
  {
    var before, all := req[..n], req[..n + 1];
    var next := names[req[n].meter := req[n].name];
    forall m: string
      ensures m in next <==> Asks(all, m)
      ensures m in next ==> exists i: nat :: IsLastEntry(all, i, m) && all[i].name == next[m]
    {
      if m == req[n].meter {
        assert all[n].meter == m && IsLastEntry(all, n, m) && all[n].name == next[m];
      } else {
        OtherNames(req, n, m);
        if m in names {
          var i: nat :| IsLastEntry(before, i, m) && before[i].name == names[m];
          assert IsLastEntry(all, i, m);
        }
      }
    }
  }

  // An entry for another metering point does not matter.
  lemma {:induction false} OtherNames(req: seq<Requested>, n: nat, m: string)
    requires n < |req| && req[n].meter != m
    ensures Asks(req[..n], m) <==> Asks(req[..n + 1], m)
    ensures forall i: nat :: i < n ==> req[..n + 1][i] == req[..n][i]
    ensures forall i: nat :: IsLastEntry(req[..n], i, m) <==> IsLastEntry(req[..n + 1], i, m)
  {
    var before, all := req[..n], req[..n + 1];
    if i :| 0 <= i < n && before[i].meter == m {
      assert all[i].meter == m;
    }
    if i :| 0 <= i < n + 1 && all[i].meter == m {
      assert before[i].meter == m;
    }
    forall i: nat ensures IsLastEntry(before, i, m) <==> IsLastEntry(all, i, m) {
      if IsLastEntry(all, i, m) {
        assert forall j :: i < j < n ==> before[j] == all[j];
      }
    }
  }

  lemma {:induction false} NoNames()
    ensures AreNames([], map[])
  {
  }

  method BuildRunnerContext(start: int, end: int, req: seq<Requested>, cps: seq<CounterPoint>)
    returns (ctx: RunnerContext)
    requires DistinctBlocks(cps)
    ensures ctx.Valid() && ctx.start == start && ctx.end == end
    ensures ctx.meta == Chosen(cps, req, Consumer) + Chosen(cps, req, Producer)
    ensures DistinctMeters(ctx.meta) <==> AskedOnce(cps, req)
    ensures AreNames(req, ctx.names)
    ensures forall i :: 0 <= i < |cps| ==> ctx.PeriodOf(cps[i]) == PeriodRange(cps[i].periodStart, cps[i].periodEnd)
  {
    hide AreNames;
    var metaMap, con, pro := IndexCounterpoints(cps);
    assert cps[..|cps|] == cps;
    var consMeta: seq<CounterPoint>, prodMeta: seq<CounterPoint>, names := [], [], map[];
    NoNames();
    assert req[..0] == [];
    for n := 0 to |req|
      invariant consMeta == Chosen(cps, req[..n], Consumer) && prodMeta == Chosen(cps, req[..n], Producer)
      invariant AreNames(req[..n], names)
    {
      assert req[..n + 1][..n] == req[..n];
      NextName(req, n, names);
      names := names[req[n].meter := req[n].name];
      if req[n].meter in metaMap {
        var v := metaMap[req[n].meter];
        if v.direction == Consumer {
          consMeta := consMeta + [v];
        } else {
          prodMeta := prodMeta + [v];
        }
      }
    }
    assert req[..|req|] == req;
    ChosenHaveDirection(cps, req, Consumer);
    ChosenHaveDirection(cps, req, Producer);
    DistinctWhenAskedOnce(cps, req);
    ctx := RunnerContext(start, end, names, consMeta + prodMeta, |consMeta|, |prodMeta|, con, pro);
  }

  // ---- The layout of a row. ----

  // The first column of the i-th metering point, with c consumers in front.
  function Base(c: nat, i: nat): nat {
    if i < c then 3 * i else 3 * c + 2 * (i - c)
  }

  // The metering point a column belongs to, and the slot of it the column shows.
  function OwnerAt(c: nat, k: nat): nat {
    if k < 3 * c then k / 3 else c + (k - 3 * c) / 2
  }

  function SlotAt(c: nat, k: nat): nat {
    if k < 3 * c then k % 3 else (k - 3 * c) % 2
  }

  // Column and (metering point, slot) determine each other.
  lemma {:induction false} ColumnsAreBlocks(c: nat, i: nat, j: nat, k: nat)
    requires j < if i < c then 3 else 2
    ensures k == Base(c, i) + j <==> OwnerAt(c, k) == i && SlotAt(c, k) == j
  {
  }

  lemma {:induction false} OwnerInRange(ctx: RunnerContext, k: nat)
    requires ctx.Valid() && k < ctx.Columns()
    ensures OwnerAt(ctx.countCons, k) < |ctx.meta|
    ensures SlotAt(ctx.countCons, k) < Stride(ctx.meta[OwnerAt(ctx.countCons, k)].direction)
    ensures k == Base(ctx.countCons, OwnerAt(ctx.countCons, k)) + SlotAt(ctx.countCons, k)
  {
  }

  // The header row with one value per column.
  ghost predicate IsHeader(ctx: RunnerContext, value: (CounterPoint, nat) -> Cell, row: seq<Cell>)
    requires ctx.Valid()
  {
    && |row| == ctx.Columns()
    && forall k :: 0 <= k < |row| ==> row[k] == value(ctx.meta[OwnerAt(ctx.countCons, k)], SlotAt(ctx.countCons, k))
  }

  // A row in which the cells from `base` on are replaced.
  function Spliced(row: seq<Cell>, base: nat, cells: seq<Cell>): seq<Cell>
    requires base + |cells| <= |row|
  {
    row[..base] + cells + row[base + |cells|..]
  }

  method WriteBlock(out: array<Cell>, base: nat, cells: seq<Cell>)
    requires base + |cells| <= out.Length
    modifies out
    ensures out[..] == Spliced(old(out[..]), base, cells)
  {
    for j := 0 to |cells|
      invariant out[..base] == old(out[..base]) && out[base..base + j] == cells[..j]
      invariant out[base + |cells|..] == old(out[base + |cells|..])
    {
      out[base + j] := cells[j];
    }
    ghost var end := base + |cells|;
    assert out[..] == out[..base] + out[base..end] + out[end..];
  }

  // The consumers and producers passed before the i-th metering point, and its first column.
  ghost predicate IsCursor(ctx: RunnerContext, i: nat, cCnt: nat, pCnt: nat) {
    cCnt == (if i < ctx.countCons then i else ctx.countCons) && cCnt + pCnt == i
  }

  lemma {:induction false} CursorStep(ctx: RunnerContext, i: nat, cCnt: nat, pCnt: nat)
    requires ctx.Valid() && i < |ctx.meta| && IsCursor(ctx, i, cCnt, pCnt)
    ensures ctx.meta[i].direction == Consumer ==>
              3 * cCnt == Base(ctx.countCons, i) && IsCursor(ctx, i + 1, cCnt + 1, pCnt)
    ensures ctx.meta[i].direction == Producer ==>
              3 * ctx.countCons + 2 * pCnt == Base(ctx.countCons, i) && IsCursor(ctx, i + 1, cCnt, pCnt + 1)
  {
  }

  // The cells of the first i metering points are written.
  ghost predicate HeadedUpTo(ctx: RunnerContext, value: (CounterPoint, nat) -> Cell, i: nat, out: seq<Cell>)
    requires ctx.Valid() && i <= |ctx.meta|
  {
    && |out| == ctx.Columns()
    && forall k :: 0 <= k < Base(ctx.countCons, i) ==>
           out[k] == value(ctx.meta[OwnerAt(ctx.countCons, k)], SlotAt(ctx.countCons, k))
  }

  lemma {:induction false} BlockFits(ctx: RunnerContext, i: nat)
    requires ctx.Valid() && i < |ctx.meta|
    ensures Base(ctx.countCons, i + 1) == Base(ctx.countCons, i) + Stride(ctx.meta[i].direction)
    ensures Base(ctx.countCons, i + 1) <= ctx.Columns() <= 3 * |ctx.meta|
  {
  }

  lemma {:induction false} NextHeaded(ctx: RunnerContext, value: (CounterPoint, nat) -> Cell, i: nat, out: seq<Cell>,
                                      cells: seq<Cell>)
    requires ctx.Valid() && i < |ctx.meta| && HeadedUpTo(ctx, value, i, out)
    requires |cells| == Stride(ctx.meta[i].direction) && forall j :: 0 <= j < |cells| ==>
               cells[j] == value(ctx.meta[i], j)
    ensures Base(ctx.countCons, i) + |cells| <= |out|
    ensures HeadedUpTo(ctx, value, i + 1, Spliced(out, Base(ctx.countCons, i), cells))
  {
    BlockFits(ctx, i);
    var r := Spliced(out, Base(ctx.countCons, i), cells);
    forall k | Base(ctx.countCons, i) <= k < Base(ctx.countCons, i + 1)
      ensures r[k] == value(ctx.meta[OwnerAt(ctx.countCons, k)], SlotAt(ctx.countCons, k))
    {
      ColumnsAreBlocks(ctx.countCons, i, k - Base(ctx.countCons, i), k);
    }
  }

  method AddHeaderV2(ctx: RunnerContext, value: (CounterPoint, nat) -> Cell) returns (row: seq<Cell>)
    requires ctx.Valid()
    ensures IsHeader(ctx, value, row)
  {
    hide Base, IsCursor, OwnerAt, SlotAt, HeadedUpTo, IsHeader, Spliced, RunnerContext.Valid;
    var cCnt, pCnt := 0, 0;
    var out := new Cell[ctx.countCons * 3 + ctx.countProd * 2](_ => BLANK);
    NoneHeaded(ctx, value, out[..]);
    for i := 0 to |ctx.meta|
      invariant IsCursor(ctx, i, cCnt, pCnt) && HeadedUpTo(ctx, value, i, out[..])
    {
      var m := ctx.meta[i];
      CursorStep(ctx, i, cCnt, pCnt);
      var cells, base;
      if m.direction == Consumer {
        base := 3 * cCnt;
        cCnt := cCnt + 1;
        cells := [value(m, 0), value(m, 1), value(m, 2)];
      } else {
        base := 3 * ctx.countCons + 2 * pCnt;
        pCnt := pCnt + 1;
        cells := [value(m, 0), value(m, 1)];
      }
      NextHeaded(ctx, value, i, out[..], cells);
      WriteBlock(out, base, cells);
    }
    row := out[..];
    AllHeaded(ctx, value, row);
  }

  lemma {:induction false} NoneHeaded(ctx: RunnerContext, value: (CounterPoint, nat) -> Cell, row: seq<Cell>)
    requires ctx.Valid() && |row| == ctx.Columns()
    ensures HeadedUpTo(ctx, value, 0, row) && IsCursor(ctx, 0, 0, 0)
  {
  }

  lemma {:induction false} AllHeaded(ctx: RunnerContext, value: (CounterPoint, nat) -> Cell, row: seq<Cell>)
    requires ctx.Valid() && HeadedUpTo(ctx, value, |ctx.meta|, row)
    ensures IsHeader(ctx, value, row)
  {
  }

  // A value is shown for the qualities 1, 2 and 3, rounded to six decimals.
  function ShownCell(l: RawSourceLine, d: Direction, k: nat): Cell {
    if |l.Cells(d)| <= k || !(1 <= l.Qov(d, k) <= 3) then BLANK else Num(RoundFixed(l.Cell(d, k)))
  }

  // The data row: every slot of every metering point in its column, and nothing else.
  ghost predicate IsDataRow(ctx: RunnerContext, l: RawSourceLine, row: seq<Cell>)
    requires ctx.Valid()
  {
    && |row| == 3 * |ctx.meta|
    && (forall k :: 0 <= k < ctx.Columns() ==> row[k] == ColumnCell(ctx, l, k))
    && (forall k :: ctx.Columns() <= k < |row| ==> row[k] == BLANK)
  }

  function ColumnCell(ctx: RunnerContext, l: RawSourceLine, k: nat): Cell
    requires ctx.Valid() && k < ctx.Columns()
  {
    var m := ctx.meta[OwnerAt(ctx.countCons, k)];
    ShownCell(l, m.direction, CellIdx(m, SlotAt(ctx.countCons, k)))
  }

  method CellOf(l: RawSourceLine, d: Direction, idx: nat) returns (c: Cell)
    ensures c == ShownCell(l, d, idx)
  {
    var raw, qov := l.Cells(d), l.Qovs(d);
    if |raw| <= idx {
      return BLANK;
    }
    var q := 1;
    if idx < |qov| {
      q := qov[idx];
    }
    match q {
      case 1 => c := Num(RoundFixed(raw[idx]));
      case 2 => c := Num(RoundFixed(raw[idx]));
      case 3 => c := Num(RoundFixed(raw[idx]));
      case _ => c := BLANK;
    }
  }

  lemma {:induction false} ColumnCellAt(ctx: RunnerContext, l: RawSourceLine, i: nat, j: nat)
    requires ctx.Valid() && i < |ctx.meta| && j < Stride(ctx.meta[i].direction)
    ensures Base(ctx.countCons, i) + j < ctx.Columns()
    ensures ColumnCell(ctx, l, Base(ctx.countCons, i) + j)
            == ShownCell(l, ctx.meta[i].direction, CellIdx(ctx.meta[i], j))
  {
    hide ShownCell;
    ColumnsAreBlocks(ctx.countCons, i, j, Base(ctx.countCons, i) + j);
  }

  // The cells of the first i metering points are written, and those past the last column are blank.
  ghost predicate WrittenUpTo(ctx: RunnerContext, l: RawSourceLine, i: nat, out: seq<Cell>)
    requires ctx.Valid() && i <= |ctx.meta|
  {
    && |out| == 3 * |ctx.meta|
    && (forall k :: 0 <= k < Base(ctx.countCons, i) ==> out[k] == ColumnCell(ctx, l, k))
    && (forall k :: ctx.Columns() <= k < |out| ==> out[k] == BLANK)
  }

  lemma {:induction false} NextWritten(ctx: RunnerContext, l: RawSourceLine, i: nat, out: seq<Cell>, cells: seq<Cell>)
    requires ctx.Valid() && i < |ctx.meta| && WrittenUpTo(ctx, l, i, out)
    requires |cells| == Stride(ctx.meta[i].direction)
    requires forall j :: 0 <= j < |cells| ==> cells[j] == ShownCell(l, ctx.meta[i].direction, CellIdx(ctx.meta[i], j))
    ensures Base(ctx.countCons, i) + |cells| <= |out|
    ensures WrittenUpTo(ctx, l, i + 1, Spliced(out, Base(ctx.countCons, i), cells))
  {
    hide ShownCell, ColumnCell;
    BlockFits(ctx, i);
    var r := Spliced(out, Base(ctx.countCons, i), cells);
    forall k | Base(ctx.countCons, i) <= k < Base(ctx.countCons, i + 1) ensures r[k] == ColumnCell(ctx, l, k) {
      ColumnCellAt(ctx, l, i, k - Base(ctx.countCons, i));
      assert k == Base(ctx.countCons, i) + (k - Base(ctx.countCons, i));
    }
  }

  method AddLine(ctx: RunnerContext, l: RawSourceLine) returns (row: seq<Cell>)
    requires ctx.Valid()
    ensures IsDataRow(ctx, l, row)
  {
    hide Base, CellIdx, IsCursor, ShownCell, ColumnCell, WrittenUpTo, IsDataRow, Spliced, RunnerContext.Valid;
    var cCnt, pCnt := 0, 0;
    var out := new Cell[|ctx.meta| * 3](_ => BLANK);
    NoneWritten(ctx, l, out[..]);
    for i := 0 to |ctx.meta|
      invariant IsCursor(ctx, i, cCnt, pCnt) && WrittenUpTo(ctx, l, i, out[..])
    {
      var m := ctx.meta[i];
      CursorStep(ctx, i, cCnt, pCnt);
      var c0 := CellOf(l, m.direction, CellIdx(m, 0));
      var c1 := CellOf(l, m.direction, CellIdx(m, 1));
      var cells, base;
      if m.direction == Consumer {
        var c2 := CellOf(l, m.direction, CellIdx(m, 2));
        base := 3 * cCnt;
        cCnt := cCnt + 1;
        cells := [c0, c1, c2];
      } else {
        base := 3 * ctx.countCons + 2 * pCnt;
        pCnt := pCnt + 1;
        cells := [c0, c1];
      }
      NextWritten(ctx, l, i, out[..], cells);
      WriteBlock(out, base, cells);
    }
    row := out[..];
    AllWritten(ctx, l, row);
  }

  lemma {:induction false} NoneWritten(ctx: RunnerContext, l: RawSourceLine, row: seq<Cell>)
    requires ctx.Valid() && |row| == 3 * |ctx.meta| && forall k :: 0 <= k < |row| ==> row[k] == BLANK
    ensures WrittenUpTo(ctx, l, 0, row) && IsCursor(ctx, 0, 0, 0)
  {
  }

  lemma {:induction false} AllWritten(ctx: RunnerContext, l: RawSourceLine, row: seq<Cell>)
    requires ctx.Valid() && WrittenUpTo(ctx, l, |ctx.meta|, row)
    ensures IsDataRow(ctx, l, row)
  {
    hide ColumnCell;
  }

  // ---- The sheet. ----

  const COMMUNITY := " gemeinschaftliche Erzeugung [KWH]"
  const TOTAL_CONSUMED := "Gesamtverbrauch" + " lt. Messung (bei Teilnahme gem. Erzeugung) [KWH]"
  const SHARE_OF_COMMUNITY := "Anteil" + COMMUNITY
  const OWN_COVERAGE := "Eigendeckung" + COMMUNITY
  const TOTAL_PRODUCED := "Gesamte gemeinschaftliche" + " Erzeugung [KWH]"
  const SURPLUS := "Gesamt/" + ("Überschusserzeugung" + ", Gemeinschaftsüberschuss [KWH]")

  function MeterCode(d: Direction, j: nat): string {
    match d
    case Consumer =>
      if j == 0 then TOTAL_CONSUMED
      else if j == 1 then SHARE_OF_COMMUNITY
      else if j == 2 then OWN_COVERAGE
      else ""
    case Producer => if j == 0 then TOTAL_PRODUCED else if j == 1 then SURPLUS else ""
  }

  // A period clipped to the exported range, by day.
  function PeriodStartCell(ctx: RunnerContext, m: CounterPoint): string {
    var d := ctx.PeriodOf(m).start;
    PrintDay(if d.None? || d.value <= ctx.start then ctx.start else d.value) + " 00:00:00"
  }

  function PeriodEndCell(ctx: RunnerContext, m: CounterPoint): string {
    var d := ctx.PeriodOf(m).end;
    PrintDay(if d.None? || ctx.end <= d.value then ctx.end else d.value) + " 23:45:00"
  }

  // What the header rows show in the columns of a metering point.
  function IdValue(ctx: RunnerContext): (CounterPoint, nat) -> Cell {
    (m: CounterPoint, j: nat) => Text(m.meter)
  }

  function NameValue(ctx: RunnerContext): (CounterPoint, nat) -> Cell {
    (m: CounterPoint, j: nat) => Text(if m.meter in ctx.names then ctx.names[m.meter] else m.name)
  }

  function DirectionValue(ctx: RunnerContext): (CounterPoint, nat) -> Cell {
    (m: CounterPoint, j: nat) => Text(DirectionString(m.direction))
  }

  function StartValue(ctx: RunnerContext): (CounterPoint, nat) -> Cell {
    (m: CounterPoint, j: nat) => Text(PeriodStartCell(ctx, m))
  }

  function EndValue(ctx: RunnerContext): (CounterPoint, nat) -> Cell {
    (m: CounterPoint, j: nat) => Text(PeriodEndCell(ctx, m))
  }

  function CodeValue(ctx: RunnerContext): (CounterPoint, nat) -> Cell {
    (m: CounterPoint, j: nat) => Text(MeterCode(m.direction, j))
  }

  // A row that starts with a title and has one value per column.
  ghost predicate IsTitled(ctx: RunnerContext, title: string, value: (CounterPoint, nat) -> Cell, row: seq<Cell>)
    requires ctx.Valid()
  {
    row != [] && row[0] == Text(title) && IsHeader(ctx, value, row[1..])
  }

  ghost predicate HasHeader(ctx: RunnerContext, sheet: Sheet)
    requires ctx.Valid()
  {
    && 7 <= |sheet| && sheet[0] == []
    && IsTitled(ctx, "MeteringpointID", IdValue(ctx), sheet[1])
    && IsTitled(ctx, "Name", NameValue(ctx), sheet[2])
    && IsTitled(ctx, "Energy direction", DirectionValue(ctx), sheet[3])
    && IsTitled(ctx, "Period start", StartValue(ctx), sheet[4])
    && IsTitled(ctx, "Period end", EndValue(ctx), sheet[5])
    && IsTitled(ctx, "Metercode", CodeValue(ctx), sheet[6])
  }

  ghost predicate IsLineRow(ctx: RunnerContext, e: Entry, row: seq<Cell>)
    requires ctx.Valid()
  {
    row != [] && row[0] == Text(PrintMoment(e.ts)) && IsDataRow(ctx, e.line, row[1..])
  }

  // The whole sheet: the header from row 1, then from row 11 one row per line.
  ghost predicate IsSheet(ctx: RunnerContext, es: seq<Entry>, sheet: Sheet)
    requires ctx.Valid()
  {
    && HasHeader(ctx, sheet)
    && |sheet| == (if es == [] then 7 else 10 + |es|)
    && (forall r :: 7 <= r < 10 && r < |sheet| ==> sheet[r] == [])
    && (forall n :: 0 <= n < |es| ==> IsLineRow(ctx, es[n], sheet[10 + n]))
  }

  // The row of names shows what the request calls the owner of each column.
  lemma {:induction false} NamesShown(ctx: RunnerContext, cps: seq<CounterPoint>, req: seq<Requested>, sheet: Sheet,
                                      k: nat) returns (i: nat)
    requires ctx.Valid() && HasHeader(ctx, sheet) && k < ctx.Columns() && AreNames(req, ctx.names)
    requires ctx.meta == Chosen(cps, req, Consumer) + Chosen(cps, req, Producer)
    ensures OwnerAt(ctx.countCons, k) < |ctx.meta| && IsLastEntry(req, i, ctx.meta[OwnerAt(ctx.countCons, k)].meter)
    ensures 2 < |sheet| && k + 1 < |sheet[2]| && sheet[2][k + 1] == Text(req[i].name)
  {
    hide *;
    OwnerInRange(ctx, k);
    var o := OwnerAt(ctx.countCons, k);
    ListedName(Chosen(cps, req, Consumer), Chosen(cps, req, Producer), o);
    ChosenIsAsked(cps, req, Consumer, ctx.meta[o].meter);
    ChosenIsAsked(cps, req, Producer, ctx.meta[o].meter);
    i := NameOf(req, ctx.names, ctx.meta[o].meter);
    NameCell(ctx, sheet, k);
  }

  lemma {:induction false} ChosenIsAsked(cps: seq<CounterPoint>, req: seq<Requested>, d: Direction, m: string)
    ensures HasName(Chosen(cps, req, d), m) ==> Asks(req, m)
  {
    hide IsFound, HasName, Chosen;
    ChosenNames(cps, req, d, m);
  }

  lemma {:induction false} NameOf(req: seq<Requested>, names: map<string, string>, m: string) returns (i: nat)
    requires AreNames(req, names) && Asks(req, m)
    ensures m in names && IsLastEntry(req, i, m) && req[i].name == names[m]
  {
    hide Asks;
    i :| IsLastEntry(req, i, m) && req[i].name == names[m];
  }

  lemma {:induction false} NameCell(ctx: RunnerContext, sheet: Sheet, k: nat)
    requires ctx.Valid() && HasHeader(ctx, sheet) && k < ctx.Columns()
    ensures OwnerAt(ctx.countCons, k) < |ctx.meta|
    ensures var m := ctx.meta[OwnerAt(ctx.countCons, k)];
            2 < |sheet| && k + 1 < |sheet[2]|
               && (m.meter in ctx.names ==> sheet[2][k + 1] == Text(ctx.names[m.meter]))
  {
    OwnerInRange(ctx, k);
    hide OwnerAt, SlotAt, IdValue, DirectionValue, StartValue, EndValue, CodeValue;
    assert IsTitled(ctx, "Name", NameValue(ctx), sheet[2]);
    assert sheet[2][1..][k] == sheet[2][k + 1];
  }

  lemma {:induction false} ListedName(a: seq<CounterPoint>, b: seq<CounterPoint>, o: nat)
    requires o < |a + b|
    ensures HasName(a, (a + b)[o].meter) || HasName(b, (a + b)[o].meter)
  {
    if o < |a| {
      assert a[o].meter == (a + b)[o].meter;
    } else {
      assert b[o - |a|].meter == (a + b)[o].meter;
    }
  }

  class EnergySheet {
    var rows: Sheet
    var lineNum: nat

    constructor ()
      ensures rows == [] && lineNum == 0
    {
      rows, lineNum := [], 0;
    }

    // The streaming writer: rows come in ascending order, skipped rows stay empty.
    method SetRow(n: nat, row: seq<Cell>)
      requires |rows| < n
      modifies this`rows
      ensures |rows| == n && old(rows) <= rows && rows[n - 1] == row
      ensures forall r :: old(|rows|) <= r < n - 1 ==> rows[r] == []
    {
      rows := rows + seq(n - 1 - |rows|, _ => []) + [row];
    }

    method SetTitled(n: nat, ctx: RunnerContext, title: string, value: (CounterPoint, nat) -> Cell)
      requires |rows| < n && ctx.Valid()
      modifies this`rows
      ensures |rows| == n && old(rows) <= rows && IsTitled(ctx, title, value, rows[n - 1])
      ensures forall r :: old(|rows|) <= r < n - 1 ==> rows[r] == []
    {
      var cells := AddHeaderV2(ctx, value);
      assert ([Text(title)] + cells)[1..] == cells;
      SetRow(n, [Text(title)] + cells);
    }

    method InitSheet(ctx: RunnerContext)
      requires ctx.Valid() && rows == [] && lineNum == 0
      modifies this`rows
      ensures IsSheet(ctx, [], rows)
    {
      hide IsTitled;
      SetTitled(2, ctx, "MeteringpointID", IdValue(ctx));
      SetTitled(3, ctx, "Name", NameValue(ctx));
      SetTitled(4, ctx, "Energy direction", DirectionValue(ctx));
      SetTitled(5, ctx, "Period start", StartValue(ctx));
      SetTitled(6, ctx, "Period end", EndValue(ctx));
      SetTitled(7, ctx, "Metercode", CodeValue(ctx));
    }

    // One line; a row id that cannot be read ends the export.
    method HandleLine(ctx: RunnerContext, l: RawSourceLine, ghost es: seq<Entry>) returns (ok: bool)
      requires ctx.Valid() && IsSheet(ctx, es, rows) && lineNum == |es|
      modifies this
      ensures ok <==> ParseRowIdTs(l.id).Ok?
      ensures lineNum == |es| + 1
      ensures ok ==> IsSheet(ctx, es + [Entry(ParseRowIdTs(l.id).value, l)], rows)
      ensures !ok ==> rows == old(rows)
    {
      hide HasHeader, PrintMoment, IsDataRow, ParseRowIdTs;
      lineNum := lineNum + 1;
      var ts := ParseRowIdTs(l.id);
      if ts.Err? {
        return false;
      }
      var cells := AddLine(ctx, l);
      var row := [Text(PrintMoment(ts.value))] + cells;
      assert row[1..] == cells;
      ghost var before := rows;
      SetRow(lineNum + 10, row);
      HeaderStays(ctx, before, rows);
      ok := true;
    }
  }

  lemma {:induction false} HeaderStays(ctx: RunnerContext, a: Sheet, b: Sheet)
    requires ctx.Valid() && HasHeader(ctx, a) && a <= b
    ensures HasHeader(ctx, b)
  {
  }

  // The exported sheet, or nothing when a line carries a broken row id.
  method ExportSheet(ctx: RunnerContext, es: seq<Entry>) returns (sheet: Option<Sheet>)
    requires ctx.Valid()
    requires forall i :: 0 <= i < |es| ==> es[i].line.id == RowIdForTs(es[i].ts)
    ensures sheet.Some? <==> forall i :: 0 <= i < |es| ==> Printable(es[i].ts)
    ensures sheet.Some? ==> IsSheet(ctx, es, sheet.value)
  {
    hide IsSheet, RowIdForTs, ParseRowIdTs, Printable;
    var s := new EnergySheet();
    s.InitSheet(ctx);
    for n := 0 to |es|
      invariant IsSheet(ctx, es[..n], s.rows) && s.lineNum == n
      invariant forall i :: 0 <= i < n ==> Printable(es[i].ts)
    {
      RowIdRoundTrip(es[n].ts);
      var ok := s.HandleLine(ctx, es[n].line, es[..n]);
      if !ok {
        return None;
      }
      assert es[..n + 1] == es[..n] + [es[n]];
    }
    assert es[..|es|] == es;
    sheet := Some(s.rows);
  }
}
