/**
 The legacy report of a request, from the rows of the table to the published reports. The request
 names a tenant and no community, so its query lists the metering points of the empty community.
 */
module LegacyQuery {
  import opened Outcomes
  import opened Calendar
  import opened Periods
  import opened CalcResultsModel
  import opened CounterPoints
  import opened LegacyReport
  import opened Loader
  import opened Matrices
  import opened ParticipantTheorems
  import opened Participants
  import opened Pipeline
  import opened QueryEngine
  import opened RawLine
  import opened Rounding
  import opened TableReports
  import opened Tally

  // ---- What a listed metering point would be shown. ----

  // The reports' rounded totals of a slot, added up.
  function RoundedTotal(rows: seq<SlotRow>, cp: CounterPoint, slot: nat, groups: seq<Group>): real {
    if groups == [] then 0.0 else
    var g := groups[|groups| - 1];
    RoundedTotal(rows, cp, slot, groups[..|groups| - 1]) + RoundFixed(TableEnergy(rows, cp, slot, g))
  }

  // A report, by the names of its fields: consumed, shared and allotted energy are slots 0, 1 and 2 of
  // a consumer, produced and distributed energy slots 0 and 1 of a producer, over the report's lines.
  lemma {:induction false} ReportShowsPoint(r: EnergyReport, mode: PeriodMode, consumers: nat, producers: nat,
                                            rows: seq<SlotRow>, cp: CounterPoint, g: Group)
    requires r.ShowsGroup(mode, consumers, producers, g) && AllMatch(rows, cp, g)
    ensures var i := cp.sourceIdx;
            if cp.direction == Consumer then
              && At(r.consumed[..], i) == RoundFixed(TableEnergy(rows, cp, 0, g))
              && At(r.shared[..], i) == RoundFixed(TableEnergy(rows, cp, 1, g))
              && At(r.allotted[..], i) == RoundFixed(TableEnergy(rows, cp, 2, g))
            else
              && At(r.produced[..], i) == RoundFixed(TableEnergy(rows, cp, 0, g))
              && At(r.distributed[..], i) == RoundFixed(TableEnergy(rows, cp, 1, g))
  {
    hide TotalsOf, AllMatch, TableEnergy, ConsumerCell, ProducerCell, RoundFixed, At, RoundCells;
    var t := TotalsOf(consumers, producers, g);
    AccumulatorIsColumnSums(consumers, producers, g, cp.sourceIdx);
    CellsBySlot(rows, cp, g);
    RoundedCell(t.cons, cp.sourceIdx);
    RoundedCell(t.shar, cp.sourceIdx);
    RoundedCell(t.alloc, cp.sourceIdx);
    RoundedCell(t.prod, cp.sourceIdx);
    RoundedCell(t.dist, cp.sourceIdx);
  }

  lemma {:induction false} CellsBySlot(rows: seq<SlotRow>, cp: CounterPoint, g: Group)
    requires AllMatch(rows, cp, g)
    ensures var i := cp.sourceIdx;
            if cp.direction == Consumer then
              && ConsumerCell(g, i * 3) == TableEnergy(rows, cp, 0, g)
              && ConsumerCell(g, i * 3 + 1) == TableEnergy(rows, cp, 1, g)
              && ConsumerCell(g, i * 3 + 2) == TableEnergy(rows, cp, 2, g)
            else
              && ProducerCell(g, i * 2) == TableEnergy(rows, cp, 0, g)
              && ProducerCell(g, i * 2 + 1) == TableEnergy(rows, cp, 1, g)
  {
    hide AllMatch, TableEnergy, ConsumerCell, ProducerCell;
    if cp.direction == Consumer {
      ConsumerSlot(rows, cp, 0, g);
      ConsumerSlot(rows, cp, 1, g);
      ConsumerSlot(rows, cp, 2, g);
    } else {
      ProducerSlot(rows, cp, 0, g);
      ProducerSlot(rows, cp, 1, g);
    }
  }

  lemma {:induction false} RoundedCell(a: seq<real>, i: nat)
    ensures At(RoundCells(a), i) == RoundFixed(At(a, i))
  {
    hide RoundFixed;
    ZeroRounds();
  }

  // The sum of the reports, slot by slot.
  lemma {:induction false} SumShowsPoint(consumers: nat, producers: nat, rows: seq<SlotRow>, cp: CounterPoint,
                                         groups: seq<Group>)
    requires DaysMatch(rows, cp, groups)
    ensures var s, i := SumOfReports(consumers, producers, groups), cp.sourceIdx;
            if cp.direction == Consumer then
              && At(s.cons, i) == RoundedTotal(rows, cp, 0, groups)
              && At(s.shar, i) == RoundedTotal(rows, cp, 1, groups)
              && At(s.alloc, i) == RoundedTotal(rows, cp, 2, groups)
            else
              && At(s.prod, i) == RoundedTotal(rows, cp, 0, groups)
              && At(s.dist, i) == RoundedTotal(rows, cp, 1, groups)
  {
    hide *;
    if groups == [] {
      NothingSummed(consumers, producers, rows, cp);
    } else {
      var n := |groups| - 1;
      MatchingGroups(rows, cp, groups);
      SumShowsPoint(consumers, producers, rows, cp, groups[..n]);
      AccumulatorIsColumnSums(consumers, producers, groups[n], cp.sourceIdx);
      CellsBySlot(rows, cp, groups[n]);
      NextSum(consumers, producers, groups, cp.sourceIdx);
      NextTotal(rows, cp, groups);
    }
  }

  lemma {:induction false} NothingSummed(consumers: nat, producers: nat, rows: seq<SlotRow>, cp: CounterPoint)
    ensures var s, i := SumOfReports(consumers, producers, []), cp.sourceIdx;
            At(s.cons, i) == At(s.shar, i) == At(s.alloc, i) == At(s.prod, i) == At(s.dist, i) == 0.0
    ensures forall slot: nat :: RoundedTotal(rows, cp, slot, []) == 0.0
  {
  }

  lemma {:induction false} MatchingGroups(rows: seq<SlotRow>, cp: CounterPoint, groups: seq<Group>)
    requires DaysMatch(rows, cp, groups) && groups != []
    ensures AllMatch(rows, cp, groups[|groups| - 1]) && DaysMatch(rows, cp, groups[..|groups| - 1])
  {
    hide AllMatch;
  }

  lemma {:induction false} NextTotal(rows: seq<SlotRow>, cp: CounterPoint, groups: seq<Group>)
    requires groups != []
    ensures var n := |groups| - 1;
            forall slot: nat :: RoundedTotal(rows, cp, slot, groups)
                                == RoundedTotal(rows, cp, slot, groups[..n])
                                  + RoundFixed(TableEnergy(rows, cp, slot, groups[n]))
  {
    hide RoundFixed, TableEnergy;
  }

  lemma {:induction false} NextSum(consumers: nat, producers: nat, groups: seq<Group>, i: nat)
    requires groups != []
    ensures var n := |groups| - 1;
            var s, t := SumOfReports(consumers, producers, groups[..n]), TotalsOf(consumers, producers, groups[n]);
            var u := SumOfReports(consumers, producers, groups);
            && At(u.cons, i) == At(s.cons, i) + RoundFixed(At(t.cons, i))
            && At(u.shar, i) == At(s.shar, i) + RoundFixed(At(t.shar, i))
            && At(u.alloc, i) == At(s.alloc, i) + RoundFixed(At(t.alloc, i))
            && At(u.prod, i) == At(s.prod, i) + RoundFixed(At(t.prod, i))
            && At(u.dist, i) == At(s.dist, i) + RoundFixed(At(t.dist, i))
  {
    hide TotalsOf, RoundFixed, At, RoundCells, SumCells;
    var n := |groups| - 1;
    var s, t := SumOfReports(consumers, producers, groups[..n]), TotalsOf(consumers, producers, groups[n]);
    NextCell(s.cons, t.cons, i);
    NextCell(s.shar, t.shar, i);
    NextCell(s.alloc, t.alloc, i);
    NextCell(s.prod, t.prod, i);
    NextCell(s.dist, t.dist, i);
  }

  lemma {:induction false} NextCell(s: seq<real>, t: seq<real>, i: nat)
    ensures At(SumCells(s, RoundCells(t)), i) == At(s, i) + RoundFixed(At(t, i))
  {
    hide RoundFixed, At, RoundCells, SumCells;
    SumCell(s, RoundCells(t), i);
    RoundedCell(t, i);
  }

  lemma {:induction false} RoundedIsNear(rows: seq<SlotRow>, cp: CounterPoint, slot: nat, groups: seq<Group>)
    ensures Near(RoundedTotal(rows, cp, slot, groups), TableEnergy(rows, cp, slot, Flatten(groups)), |groups|)
  {
    if groups == [] {
      assert TableEnergy(rows, cp, slot, []) == 0.0;
    } else {
      hide RoundFixed, TableEnergy;
      var n := |groups| - 1;
      RoundedIsNear(rows, cp, slot, groups[..n]);
      TableEnergyAdds(rows, cp, slot, Flatten(groups[..n]), groups[n]);
      RoundingIsNear(TableEnergy(rows, cp, slot, groups[n]));
    }
  }

  // The summary over some lines, by the names of its fields.
  lemma {:induction false} LegacySummaryShowsTable(r: EegEnergy, mode: PeriodMode, consumers: nat, producers: nat,
                                                   rows: seq<SlotRow>, cp: CounterPoint, lines: Group)
    requires r.ShowsLines(mode, consumers, producers, lines) && AllMatch(rows, cp, lines)
    ensures var groups, i := GroupsOf(mode, lines), cp.sourceIdx;
            if cp.direction == Consumer then
              && At(r.report.consumed[..], i) == RoundedTotal(rows, cp, 0, groups)
              && At(r.report.shared[..], i) == RoundedTotal(rows, cp, 1, groups)
              && At(r.report.allotted[..], i) == RoundedTotal(rows, cp, 2, groups)
            else
              && At(r.report.produced[..], i) == RoundedTotal(rows, cp, 0, groups)
              && At(r.report.distributed[..], i) == RoundedTotal(rows, cp, 1, groups)
  {
    hide AllMatch, At, SumOfReports, RoundedTotal, GroupsOf;
    SplitKeepsLines(mode, lines);
    DaysOfAnswer(rows, cp, GroupsOf(mode, lines));
    SumShowsPoint(consumers, producers, rows, cp, GroupsOf(mode, lines));
  }

  // ---- The produced energy of everybody. ----

  function LinesProduced(g: Group): real {
    if g == [] then 0.0 else LinesProduced(g[..|g| - 1]) + Sum(ProducerColumn(g[|g| - 1].p, 0))
  }

  lemma {:induction false} ProducedOfLines(consumers: nat, producers: nat, g: Group)
    ensures TotalsOf(consumers, producers, g).pSum == LinesProduced(g)
  {
    if g != [] {
      hide Sum, ProducerColumn, ConsumerColumn;
      ProducedOfLines(consumers, producers, g[..|g| - 1]);
    }
  }

  lemma {:induction false} ProducedAdds(a: Group, b: Group)
    ensures LinesProduced(a + b) == LinesProduced(a) + LinesProduced(b)
  {
    if b == [] {
      assert a + b == a;
    } else {
      hide Sum, ProducerColumn;
      ProducedAdds(a, b[..|b| - 1]);
      assert (a + b)[..|a + b| - 1] == a + b[..|b| - 1];
    }
  }

  lemma {:induction false} ProducedOfReports(consumers: nat, producers: nat, groups: seq<Group>)
    ensures SumOfReports(consumers, producers, groups).pSum == LinesProduced(Flatten(groups))
  {
    if groups != [] {
      hide TotalsOf, LinesProduced;
      var n := |groups| - 1;
      ProducedOfReports(consumers, producers, groups[..n]);
      ProducedOfLines(consumers, producers, groups[n]);
      ProducedAdds(Flatten(groups[..n]), groups[n]);
    }
  }

  // The first column of the producers is the first slot of every block.
  lemma {:induction false} ColumnIsSlot(l: RawSourceLine, n: nat)
    requires |l.producers| == 2 * n
    ensures Sum(ProducerColumn(l.producers, 0)) == SlotSum(l, Producer, 0, n)
  {
    var c := ProducerColumn(l.producers, 0);
    if n == 0 {
      assert c == [0.0] && c[..0] == [];
    } else {
      assert |c| == n;
      FirstSlots(l, c, n);
      assert c[..n] == c;
    }
  }

  lemma {:induction false} FirstSlots(l: RawSourceLine, c: seq<real>, n: nat)
    requires n <= |c| && forall b: nat :: b < |c| ==> c[b] == At(l.producers, b * 2)
    ensures Sum(c[..n]) == SlotSum(l, Producer, 0, n)
  {
    if 0 < n {
      FirstSlots(l, c, n - 1);
      assert c[..n][..n - 1] == c[..n - 1];
      assert l.Cell(Producer, BlockCell(Producer, n - 1, 0)) == At(l.producers, (n - 1) * 2);
    }
  }

  lemma {:induction false} ProducedIsTable(cps: seq<CounterPoint>, shape: Shape, rows: seq<SlotRow>, fs: seq<Entry>)
    requires IsShape(cps, shape) && DistinctBlocks(cps) && AllShow(cps, shape, rows, fs)
    ensures LinesProduced(LinesOf(fs)) == TableTotal(cps, rows, fs, ts => true, Producer, 0)
  {
    if fs != [] {
      hide IsShape, DistinctBlocks, Shows, SlotSum, Sum, ProducerColumn, PointTotal, Lookup;
      var n := |fs| - 1;
      ProducedIsTable(cps, shape, rows, fs[..n]);
      ShownIsSized(cps, shape, rows, fs[n].ts, fs[n].line);
      ShownSlots(cps, shape, rows, fs[n].ts, fs[n].line, Producer, 0);
      ColumnIsSlot(fs[n].line, BlockCount(fs[n].line, Producer));
      assert LinesOf(fs)[..n] == LinesOf(fs[..n]);
    }
  }

  // The total of the summary is slot 0 of all producers over all delivered moments.
  lemma {:induction false} LegacyTotalShowsTable(r: EegEnergy, mode: PeriodMode, cps: seq<CounterPoint>, shape: Shape,
                                                 rows: seq<SlotRow>, fs: seq<Entry>)
    requires r.ShowsLines(mode, shape.cons, shape.prod, LinesOf(fs))
    requires IsShape(cps, shape) && DistinctBlocks(cps) && Delivered(cps, shape, rows, fs)
    ensures r.report.totalProduced == TableTotal(cps, rows, fs, ts => true, Producer, 0)
  {
    hide IsShape, DistinctBlocks, Delivered, AllShow, SumOfReports, GroupsOf, LinesOf, LinesProduced, TableTotal;
    DeliveredShow(cps, shape, rows, fs);
    SplitKeepsLines(mode, LinesOf(fs));
    ProducedOfReports(shape.cons, shape.prod, GroupsOf(mode, LinesOf(fs)));
    ProducedIsTable(cps, shape, rows, fs);
  }

  // The rows a query of a period reads.
  ghost predicate RowsInRange(p: Period, rows: seq<SlotRow>) {
    forall i :: 0 <= i < |rows| ==> p.InRange(rows[i].ts)
  }

  // The delivered lines are what the report assumes of a query, and they end with the slot after
  // the period exactly when the table has a row there.
  lemma {:induction false} AnswerIsInQuery(p: Period, cps: seq<CounterPoint>, shape: Shape, rows: seq<SlotRow>,
                                           end: int,
                                           es: seq<Entry>, r: Result<Delivery>)
    requires IsTable(cps, shape, rows, es) && IsAnswer(cps, shape, rows, end, es, r) && r.Ok? && RowsInRange(p, rows)
    ensures var lines := LinesOf(r.value.entries);
            InQuery(p, lines) && lines != [] && (HasEndSlot(p, lines) <==> p.mode != Yearly && HasRowAt(rows, p.Stop()))
  {
    hide Fill, AllPrintable, BuildEngineCtx, Shows, Delivered, SmallSteps, HasRowAt, Period.Start, Period.Stop,
         Period.End,
         IsTable, RowsInRange, Period.InRange;
    AnswerHasSmallSteps(cps, shape, rows, end, es, r);
    FilledRange(p, cps, shape, rows, es);
    LastRow(p, cps, shape, rows, es);
  }

  lemma {:induction false} LoadedRange(p: Period, cps: seq<CounterPoint>, shape: Shape, rows: seq<SlotRow>,
                                       es: seq<Entry>)
    requires IsTable(cps, shape, rows, es) && RowsInRange(p, rows)
    ensures StrictlyAscending(es) && forall i :: 0 <= i < |es| ==> p.InRange(es[i].ts)
  {
    hide Shows, Period.InRange, StrictlyAscending, HasMoment;
    forall i | 0 <= i < |es| ensures p.InRange(es[i].ts) {
      assert HasRowAt(rows, es[i].ts);
    }
  }

  lemma {:induction false} FilledRange(p: Period, cps: seq<CounterPoint>, shape: Shape, rows: seq<SlotRow>,
                                       es: seq<Entry>)
    requires IsTable(cps, shape, rows, es) && es != [] && RowsInRange(p, rows)
    ensures Fill(es, shape) != [] && Fill(es, shape)[|Fill(es, shape)| - 1] == es[|es| - 1]
    ensures forall i :: 0 <= i < |Fill(es, shape)| ==> p.InRange(Fill(es, shape)[i].ts)
  {
    hide Fill, Filler, IsTable, HasMoment, RowsInRange, Period.Start, Period.End;
    LoadedRange(p, cps, shape, rows, es);
    FillSteps(es, shape);
    forall i | 0 <= i < |Fill(es, shape)| ensures p.InRange(Fill(es, shape)[i].ts) {
      FillLines(es, shape, i);
      assert p.InRange(es[0].ts) && p.InRange(es[|es| - 1].ts);
    }
  }

  // The loaded lines stand at the moments of the rows.
  lemma {:induction false} SameMoments(cps: seq<CounterPoint>, shape: Shape, rows: seq<SlotRow>, es: seq<Entry>,
                                       ts: int)
    requires IsTable(cps, shape, rows, es)
    ensures StrictlyAscending(es) && (HasMoment(es, ts) <==> HasRowAt(rows, ts))
  {
    hide Shows, StrictlyAscending;
    if HasMoment(es, ts) {
      var i :| 0 <= i < |es| && es[i].ts == ts;
      assert HasRowAt(rows, es[i].ts);
    }
    if HasRowAt(rows, ts) {
      var i :| 0 <= i < |rows| && rows[i].ts == ts;
      assert HasMoment(es, rows[i].ts);
    }
  }

  lemma {:induction false} LastRow(p: Period, cps: seq<CounterPoint>, shape: Shape, rows: seq<SlotRow>, es: seq<Entry>)
    requires IsTable(cps, shape, rows, es) && es != [] && RowsInRange(p, rows)
    ensures es[|es| - 1].ts == p.Stop() <==> p.mode != Yearly && HasRowAt(rows, p.Stop())
  {
    hide IsTable, HasRowAt, RowsInRange, Period.Start, Period.Stop, Period.End;
    EndIsStop(p);
    LoadedRange(p, cps, shape, rows, es);
    SameMoments(cps, shape, rows, es, p.Stop());
    LastMoment(es, p.Stop());
    assert p.InRange(es[|es| - 1].ts);
  }

  // A moment that no line passes is there exactly when it is the last line's.
  lemma {:induction false} LastMoment(es: seq<Entry>, ts: int)
    requires StrictlyAscending(es) && es != []
    ensures HasMoment(es, ts) && es[|es| - 1].ts <= ts ==> es[|es| - 1].ts == ts
    ensures es[|es| - 1].ts == ts ==> HasMoment(es, ts)
  {
  }

  lemma {:induction false} EndIsStop(p: Period)
    ensures p.mode != Yearly ==> p.End() == p.Stop()
    ensures p.mode == Yearly ==> p.End() < p.Stop()
  {
    PeriodDays(p);
  }

  // ---- The report of a query. ----

  // The delivered lines, each with slices of its own.
  method LineRefs(fs: seq<Entry>) returns (lines: seq<LineRef>)
    ensures |lines| == |fs| && Contents(lines) == LinesOf(fs)
  {
    lines := [];
    for n := 0 to |fs|
      invariant |lines| == n
      invariant forall i :: 0 <= i < n ==>
        lines[i].ts == fs[i].ts && lines[i].c[..] == fs[i].line.consumers && lines[i].p[..] == fs[i].line.producers
    {
      var l := fs[n].line;
      var c := new real[|l.consumers|](i requires 0 <= i < |l.consumers| => l.consumers[i]);
      var p := new real[|l.producers|](i requires 0 <= i < |l.producers| => l.producers[i]);
      lines := lines + [LineRef(fs[n].ts, c, p)];
    }
  }

  // The report over delivered lines.
  method Publish(p: Period, consumers: nat, producers: nat, fs: seq<Entry>) returns (r: EegEnergy)
    requires fs != []
    ensures r.ShowsLines(p.mode, consumers, producers, LinesOf(fs))
  {
    hide LinesOf, Contents, EegEnergy.ShowsLines, Partitions, InQuery, HasEndSlot, WrapsAround, Flatten, GroupsOf;
    var lines := LineRefs(fs);
    r := RunLegacy(p, consumers, producers, lines);
  }

  // The report over the metering points of a listing.
  method ReportOver(p: Period, cps: seq<CounterPoint>, rows: seq<SlotRow>)
    returns (r: Result<EegEnergy>, ghost shape: Shape, ghost es: seq<Entry>)
    requires DistinctMeters(cps) && DistinctBlocks(cps) && SortedByTime(rows)
    ensures IsShape(cps, shape) && IsTable(cps, shape, rows, es)
    ensures r.Ok? <==> rows != [] && AllPrintable(es)
    ensures r.Ok? ==> Fill(es, shape) != []
                      && r.value.ShowsLines(p.mode, shape.cons, shape.prod, LinesOf(Fill(es, shape)))
  {
    hide IsTable, IsAnswer, IsShape, Fill, AllPrintable, LinesOf, DataLoader.Valid, DistinctBlocks, SortedByTime,
         EegEnergy.ShowsLines;
    var loader := new DataLoader(cps);
    var consumers, producers := loader.consumerCount, loader.producerCount;
    shape := Shape(consumers, producers);
    loader.Covers();
    var answer;
    answer, es := Query(loader, rows, p.End());
    AnswerEntries(cps, shape, rows, p.End(), es, answer);
    if answer.Err? {
      return Err(answer.message), shape, es;
    }
    var published := Publish(p, consumers, producers, answer.value.entries);
    return Ok(published), shape, es;
  }

  lemma {:induction false} AnswerEntries(cps: seq<CounterPoint>, shape: Shape, rows: seq<SlotRow>, end: int,
                                         es: seq<Entry>,
                                         r: Result<Delivery>)
    requires IsTable(cps, shape, rows, es) && IsAnswer(cps, shape, rows, end, es, r)
    ensures r.Ok? <==> rows != [] && AllPrintable(es)
    ensures r.Ok? ==> r.value.entries == Fill(es, shape) && r.value.entries != []
  {
    hide Fill, AllPrintable, Shows, Delivered, BuildEngineCtx;
    if r.Ok? {
      FillSteps(es, shape);
    }
  }

  // ---- What the request gets. ----

  // One zero per vector, and nothing produced.
  const NOTHING_SHOWN := Totals([0.0], [0.0], [0.0], [0.0], [0.0], 0.0)

  ghost predicate NoCells(g: Group) {
    forall i :: 0 <= i < |g| ==> g[i].c == [] && g[i].p == []
  }

  lemma {:induction false} EmptyLine(t: Totals)
    requires t == NoTotals(0, 0) || t == NOTHING_SHOWN
    ensures WithLine(t, [], []) == NOTHING_SHOWN
  {
    hide Sum;
    var w := WithLine(t, [], []);
    assert ConsumerColumn([], 0) == ConsumerColumn([], 1) == ConsumerColumn([], 2) == [0.0];
    assert ProducerColumn([], 0) == ProducerColumn([], 1) == [0.0];
    assert w.cons == w.alloc == w.shar == w.prod == w.dist == [0.0];
    SumOfZero();
  }

  lemma {:induction false} SumOfZero()
    ensures Sum([0.0]) == 0.0
  {
    assert [0.0][..0] == [];
  }

  lemma {:induction false} EmptyLinesTotal(g: Group)
    requires NoCells(g) && g != []
    ensures TotalsOf(0, 0, g) == NOTHING_SHOWN
  {
    hide WithLine, NoTotals;
    var n := |g| - 1;
    if n == 0 {
      NoLinesNoTotals(0, 0);
      assert g[..0] == [];
      EmptyLine(NoTotals(0, 0));
    } else {
      EmptyLinesTotal(g[..n]);
      EmptyLine(NOTHING_SHOWN);
    }
  }

  lemma {:induction false} RoundedNothing()
    ensures Rounded(NOTHING_SHOWN) == NOTHING_SHOWN
  {
    WholeIsMicro(0);
    RoundKeepsMicro(0.0);
    assert RoundCells([0.0]) == [0.0];
  }

  lemma {:induction false} PlusNothing(t: Totals)
    requires t == NoTotals(0, 0) || t == NOTHING_SHOWN
    ensures Plus(t, NOTHING_SHOWN) == NOTHING_SHOWN
  {
    var u := Plus(t, NOTHING_SHOWN);
    assert u.cons == u.alloc == u.shar == u.prod == u.dist == [0.0];
  }

  lemma {:induction false} EmptyReportsSum(groups: seq<Group>)
    requires groups != [] && forall i :: 0 <= i < |groups| ==> groups[i] != [] && NoCells(groups[i])
    ensures SumOfReports(0, 0, groups) == NOTHING_SHOWN
  {
    hide Plus, NoTotals, Rounded, TotalsOf, NoCells;
    var n := |groups| - 1;
    EmptyLinesTotal(groups[n]);
    RoundedNothing();
    if n == 0 {
      assert groups[..0] == [];
      PlusNothing(NoTotals(0, 0));
    } else {
      EmptyReportsSum(groups[..n]);
      PlusNothing(NOTHING_SHOWN);
    }
  }

  // A listing without metering points delivers lines without cells.
  lemma {:induction false} NoMetersNoCells(shape: Shape, rows: seq<SlotRow>, es: seq<Entry>)
    requires IsShape([], shape) && IsTable([], shape, rows, es)
    ensures shape == Shape(0, 0) && NoCells(LinesOf(Fill(es, shape)))
  {
    hide Fill, IsShape, Filler;
    NoMetersNoBlocks(shape);
    forall i | 0 <= i < |Fill(es, shape)|
      ensures Fill(es, shape)[i].line.consumers == [] && Fill(es, shape)[i].line.producers == []
    {
      FillLines(es, shape, i);
      FillerSized(Fill(es, shape)[i].ts, shape);
      assert Fill(es, shape)[i].line.Sized(shape);
    }
  }

  lemma {:induction false} FillerSized(ts: int, shape: Shape)
    ensures Filler(ts, shape).line.Sized(shape)
  {
  }

  lemma {:induction false} GroupCellsEmpty(groups: seq<Group>)
    requires NoCells(Flatten(groups))
    ensures forall i :: 0 <= i < |groups| ==> NoCells(groups[i])
  {
    if groups != [] {
      var n := |groups| - 1;
      var all := Flatten(groups);
      assert forall i :: 0 <= i < |groups[n]| ==> groups[n][i] == all[|Flatten(groups[..n])| + i];
      assert forall i :: 0 <= i < |Flatten(groups[..n])| ==> Flatten(groups[..n])[i] == all[i];
      GroupCellsEmpty(groups[..n]);
    }
  }

  // The request of a tenant: whatever the table holds, in every state of every history each vector
  // of the summary and of the reports is a single zero.
  method TenantReport(tenant: string, p: Period, cps: seq<CounterPoint>, rows: seq<SlotRow>,
                      ghost states: seq<Table>, ghost steps: seq<Step>, ghost i: nat)
    returns (r: Result<EegEnergy>, ghost es: seq<Entry>)
    requires IsHistory(states, steps) && i < |states| && IsListing(states[i], tenant, "", cps) && SortedByTime(rows)
    ensures IsTable(cps, Shape(0, 0), rows, es) && (r.Ok? <==> rows != [] && AllPrintable(es))
    ensures r.Ok? ==>
              && r.value.report.View() == NOTHING_SHOWN
              && forall k :: 0 <= k < |r.value.results| ==> r.value.results[k].View() == NOTHING_SHOWN
  {
    hide IsTable, IsShape, IsHistory, IsListing, AllPrintable, Fill, LinesOf, SortedByTime, EegEnergy.ShowsLines,
         EnergyReport.View;
    NoCommunityNoMeters(states, steps, i, tenant, cps);
    ghost var shape;
    r, shape, es := ReportOver(p, cps, rows);
    NoMetersNoCells(shape, rows, es);
    if r.Ok? {
      NothingShown(p.mode, LinesOf(Fill(es, shape)), r.value);
    }
  }

  lemma {:induction false} NothingShown(mode: PeriodMode, lines: Group, r: EegEnergy)
    requires r.ShowsLines(mode, 0, 0, lines) && NoCells(lines) && lines != []
    ensures r.report.View() == NOTHING_SHOWN
    ensures forall k :: 0 <= k < |r.results| ==> r.results[k].View() == NOTHING_SHOWN
  {
    hide Flatten, Split, NoCells, SumOfReports, TotalsOf, Rounded, EnergyReport.View, EnergyReport.Arrays, PeriodNumber;
    var groups := GroupsOf(mode, lines);
    SplitKeepsLines(mode, lines);
    GroupCellsEmpty(groups);
    RoundedNothing();
    forall i | 0 <= i < |groups| ensures groups[i] != [] && Rounded(TotalsOf(0, 0, groups[i])) == NOTHING_SHOWN {
      assert r.results[i].ShowsGroup(mode, 0, 0, groups[i]);
      EmptyLinesTotal(groups[i]);
    }
    EmptyReportsSum(groups);
  }
}
