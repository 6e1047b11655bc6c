/**
 From the table to the reports: what the accounting reports show of the rows a query reads.
 */
module Pipeline {
  import opened Outcomes
  import opened Calendar
  import opened ChartPositions
  import opened Periods
  import opened CalcResultsModel
  import opened CounterPoints
  import opened Loader
  import opened Matrices
  import opened Participants
  import opened ParticipantTheorems
  import opened QueryEngine
  import opened RawLine
  import opened Rounding
  import D = DateCells
  import S = SheetExport
  import R = SheetRoundTrip
  import T = SheetTheorems
  import I = ImportedTables
  import opened Store

  // The delivered lines as the accounting sees them.
  function LinesOf(fs: seq<Entry>): (g: Group)
    ensures |g| == |fs| && forall i :: 0 <= i < |fs| ==>
              g[i] == CalcLine(fs[i].ts, fs[i].line.consumers, fs[i].line.producers)
  {
    seq(|fs|, i requires 0 <= i < |fs| => CalcLine(fs[i].ts, fs[i].line.consumers, fs[i].line.producers))
  }

  // What an answered query delivers has the small steps the day and month switches rely on.
  lemma {:induction false} AnswerHasSmallSteps(cps: seq<CounterPoint>, shape: Shape, rows: seq<SlotRow>, end: int,
                                               es: seq<Entry>, r: Result<Delivery>)
    requires IsTable(cps, shape, rows, es) && IsAnswer(cps, shape, rows, end, es, r) && r.Ok?
    ensures SmallSteps(LinesOf(r.value.entries))
  {
    hide Fill, AllPrintable, BuildEngineCtx, Shows, Delivered, StrictlyAscending, SmallSteps, LinesOf;
    FillSteps(es, shape);
    StepsOfLines(r.value.entries);
  }

  lemma {:induction false} StepsOfLines(fs: seq<Entry>)
    requires forall i :: 0 < i < |fs| ==> fs[i - 1].ts < fs[i].ts < fs[i - 1].ts + Slots(2)
    ensures SmallSteps(LinesOf(fs))
  {
    forall i | 0 < i < |fs| ensures LinesOf(fs)[i - 1].ts < LinesOf(fs)[i].ts < LinesOf(fs)[i - 1].ts + Slots(2) {
      assert fs[i - 1].ts < fs[i].ts;
    }
  }

  // One slot of a metering point in the table, summed over the moments of some lines.
  function TableEnergy(rows: seq<SlotRow>, cp: CounterPoint, slot: nat, g: Group): real {
    if g == [] then 0.0
    else TableEnergy(rows, cp, slot, g[..|g| - 1]) + ValueOr0(Lookup(rows, g[|g| - 1].ts, cp, slot))
  }

  // A line holds what the table holds of a metering point at its moment.
  ghost predicate Matches(rows: seq<SlotRow>, cp: CounterPoint, l: CalcLine) {
    forall slot: nat :: slot < Stride(cp.direction) ==>
      At(if cp.direction == Consumer then l.c else l.p, CellIdx(cp, slot)) == ValueOr0(Lookup(rows, l.ts, cp, slot))
  }

  ghost predicate AllMatch(rows: seq<SlotRow>, cp: CounterPoint, g: Group) {
    forall l :: l in g ==> Matches(rows, cp, l)
  }

  lemma {:induction false} DeliveredMatches(cps: seq<CounterPoint>, shape: Shape, rows: seq<SlotRow>, fs: seq<Entry>,
                                            c: nat)
    requires Delivered(cps, shape, rows, fs) && c < |cps|
    ensures AllMatch(rows, cps[c], LinesOf(fs))
  {
    hide Shows, Matches;
    forall l | l in LinesOf(fs) ensures Matches(rows, cps[c], l) {
      var i :| 0 <= i < |fs| && LinesOf(fs)[i] == l;
      ShownLineMatches(cps, shape, rows, fs[i], c);
    }
  }

  lemma {:induction false} ShownLineMatches(cps: seq<CounterPoint>, shape: Shape, rows: seq<SlotRow>, e: Entry, c: nat)
    requires Shows(cps, shape, rows, e.ts, e.line) && c < |cps|
    ensures Matches(rows, cps[c], CalcLine(e.ts, e.line.consumers, e.line.producers))
  {
    hide Lookup, ValueOr0, CellIdx;
    forall slot: nat | slot < Stride(cps[c].direction)
      ensures e.line.Cell(cps[c].direction, CellIdx(cps[c], slot)) == ValueOr0(Lookup(rows, e.ts, cps[c], slot))
    {
      assert Holds(e.line, cps[c], slot, Lookup(rows, e.ts, cps[c], slot));
    }
  }

  // A quantity of a metering point is one of its slots.
  ghost predicate IsRead(rows: seq<SlotRow>, cp: CounterPoint, f: Field, slot: nat) {
    forall g :: AllMatch(rows, cp, g) ==> Energy(cp, g, f) == TableEnergy(rows, cp, slot, g)
  }

  ghost predicate IsAbsent(cp: CounterPoint, f: Field) {
    forall g :: Energy(cp, g, f) == 0.0
  }

  // Consumption, allocation and utilization of a consumer are its slots 0, 1 and 2, production and
  // allocation of a producer its slots 0 and 1.
  lemma {:induction false} FieldsBySlot(rows: seq<SlotRow>, cp: CounterPoint)
    ensures cp.direction == Consumer ==>
              && IsRead(rows, cp, Consumption, 0) && IsRead(rows, cp, Allocated, 1) && IsRead(rows, cp, Utilization, 2)
              && IsAbsent(cp, Production)
    ensures cp.direction == Producer ==>
              && IsRead(rows, cp, Production, 0) && IsRead(rows, cp, Allocated, 1)
              && IsAbsent(cp, Consumption) && IsAbsent(cp, Utilization)
  {
    hide AllMatch;
    forall g | AllMatch(rows, cp, g)
      ensures cp.direction == Consumer ==>
                && ConsumerCell(g, cp.sourceIdx * 3) == TableEnergy(rows, cp, 0, g)
                && ConsumerCell(g, cp.sourceIdx * 3 + 1) == TableEnergy(rows, cp, 1, g)
                && ConsumerCell(g, cp.sourceIdx * 3 + 2) == TableEnergy(rows, cp, 2, g)
      ensures cp.direction == Producer ==>
                && ProducerCell(g, cp.sourceIdx * 2) == TableEnergy(rows, cp, 0, g)
                && ProducerCell(g, cp.sourceIdx * 2 + 1) == TableEnergy(rows, cp, 1, g)
    {
      if cp.direction == Consumer {
        ConsumerSlot(rows, cp, 0, g);
        ConsumerSlot(rows, cp, 1, g);
        ConsumerSlot(rows, cp, 2, g);
      } else {
        ProducerSlot(rows, cp, 0, g);
        ProducerSlot(rows, cp, 1, g);
      }
    }
  }

  lemma {:induction false} ConsumerSlot(rows: seq<SlotRow>, cp: CounterPoint, slot: nat, g: Group)
    requires AllMatch(rows, cp, g) && cp.direction == Consumer && slot < 3
    ensures ConsumerCell(g, cp.sourceIdx * 3 + slot) == TableEnergy(rows, cp, slot, g)
  {
    if g != [] {
      hide Lookup, ValueOr0, At;
      ConsumerSlot(rows, cp, slot, g[..|g| - 1]);
      assert Matches(rows, cp, g[|g| - 1]) && slot < Stride(cp.direction);
      assert CellIdx(cp, slot) == cp.sourceIdx * 3 + slot;
    }
  }

  lemma {:induction false} ProducerSlot(rows: seq<SlotRow>, cp: CounterPoint, slot: nat, g: Group)
    requires AllMatch(rows, cp, g) && cp.direction == Producer && slot < 2
    ensures ProducerCell(g, cp.sourceIdx * 2 + slot) == TableEnergy(rows, cp, slot, g)
  {
    if g != [] {
      hide Lookup, ValueOr0, At;
      ProducerSlot(rows, cp, slot, g[..|g| - 1]);
      assert Matches(rows, cp, g[|g| - 1]) && slot < Stride(cp.direction);
      assert CellIdx(cp, slot) == cp.sourceIdx * 2 + slot;
    }
  }

  // ---- The participant report. ----

  // A day's energy as an entry gets it: rounded for a consumer, as it is for a producer.
  function DayValue(rows: seq<SlotRow>, cp: CounterPoint, slot: nat, g: Group): real {
    if cp.direction == Consumer then RoundFixed(TableEnergy(rows, cp, slot, g)) else TableEnergy(rows, cp, slot, g)
  }

  // One slot over the days a window counts, and those of them at one position of the chart.
  function CountedValue(rows: seq<SlotRow>, cp: CounterPoint, slot: nat, m: MeterReport, days: seq<Group>): real {
    if days == [] then 0.0 else
    var g := days[|days| - 1];
    CountedValue(rows, cp, slot, m, days[..|days| - 1])
    + if Counted(m, Stamp(g)) then DayValue(rows, cp, slot, g) else 0.0
  }

  function ValueAt(rows: seq<SlotRow>, cp: CounterPoint, slot: nat, m: MeterReport, p: Period, days: seq<Group>,
                   b: nat): real {
    if days == [] then 0.0 else
    var g := days[|days| - 1];
    ValueAt(rows, cp, slot, m, p, days[..|days| - 1], b)
    + if Counted(m, Stamp(g)) && CalendarPosition(p, Stamp(g)) == b then DayValue(rows, cp, slot, g) else 0.0
  }

  ghost predicate DaysMatch(rows: seq<SlotRow>, cp: CounterPoint, days: seq<Group>) {
    forall i :: 0 <= i < |days| ==> AllMatch(rows, cp, days[i])
  }

  ghost predicate DaysInRange(p: Period, days: seq<Group>) {
    forall i :: 0 <= i < |days| ==> p.InRange(Stamp(days[i]))
  }

  lemma {:induction false} DueIsCounted(rows: seq<SlotRow>, q: Setup, m: MeterReport, days: seq<Group>, f: Field,
                                        slot: nat, b: nat)
    requires m.meter in q.cps && DaysMatch(rows, q.cps[m.meter], days) && IsRead(rows, q.cps[m.meter], f, slot)
    ensures Due(q, m, days, f) == CountedValue(rows, q.cps[m.meter], slot, m, days)
    ensures DaysInRange(q.period, days) ==>
              DueAt(q, m, days, f, b) == ValueAt(rows, q.cps[m.meter], slot, m, q.period, days, b)
  {
    hide *;
    if days == [] {
      NothingCounted(rows, q, m, f, slot, b);
    } else {
      var n := |days| - 1;
      FewerMatch(rows, q, q.cps[m.meter], days);
      DueIsCounted(rows, q, m, days[..n], f, slot, b);
      DayIsCounted(rows, q, m, days[n], f, slot);
      NextCounted(rows, q, m, days, f, slot, b);
      if DaysInRange(q.period, days) {
        PositionOfDay(q, days[n]);
      }
    }
  }

  lemma {:induction false} NothingCounted(rows: seq<SlotRow>, q: Setup, m: MeterReport, f: Field, slot: nat, b: nat)
    requires m.meter in q.cps
    ensures Due(q, m, [], f) == CountedValue(rows, q.cps[m.meter], slot, m, []) == 0.0
    ensures DueAt(q, m, [], f, b) == ValueAt(rows, q.cps[m.meter], slot, m, q.period, [], b) == 0.0
  {
  }

  lemma {:induction false} FewerMatch(rows: seq<SlotRow>, q: Setup, cp: CounterPoint, days: seq<Group>)
    requires DaysMatch(rows, cp, days) && days != []
    ensures var n := |days| - 1;
            && AllMatch(rows, cp, days[n]) && DaysMatch(rows, cp, days[..n])
            && (DaysInRange(q.period, days) ==> DaysInRange(q.period, days[..n]) && q.period.InRange(Stamp(days[n])))
  {
    hide AllMatch, Period.InRange, Stamp;
  }

  lemma {:induction false} NextCounted(rows: seq<SlotRow>, q: Setup, m: MeterReport, days: seq<Group>, f: Field,
                                       slot: nat, b: nat)
    requires m.meter in q.cps && days != []
    ensures var cp, n := q.cps[m.meter], |days| - 1;
            var counted, value := Counted(m, Stamp(days[n])), DayValue(rows, cp, slot, days[n]);
            && Due(q, m, days, f) == Due(q, m, days[..n], f) + DueOf(q, m, days[n], f)
            && CountedValue(rows, cp, slot, m, days)
               == CountedValue(rows, cp, slot, m, days[..n]) + (if counted then value else 0.0)
            && DueAt(q, m, days, f, b)
               == DueAt(q, m, days[..n], f, b)
                  + (if q.Bucket(Stamp(days[n])) == b then DueOf(q, m, days[n], f) else 0.0)
            && ValueAt(rows, cp, slot, m, q.period, days, b)
               == ValueAt(rows, cp, slot, m, q.period, days[..n], b)
                  + (if counted && CalendarPosition(q.period, Stamp(days[n])) == b then value else 0.0)
  {
    hide Counted, Stamp, DueOf, DayValue, CalendarPosition, Setup.Bucket;
  }

  lemma {:induction false} DayIsCounted(rows: seq<SlotRow>, q: Setup, m: MeterReport, g: Group, f: Field, slot: nat)
    requires m.meter in q.cps && AllMatch(rows, q.cps[m.meter], g) && IsRead(rows, q.cps[m.meter], f, slot)
    ensures DueOf(q, m, g, f) == if Counted(m, Stamp(g)) then DayValue(rows, q.cps[m.meter], slot, g) else 0.0
  {
    hide AllMatch, Energy, TableEnergy, Counted, Stamp, RoundFixed, TotalsOf, Contribution;
    ContributionIsEnergy(q, q.cps[m.meter], g, f);
  }

  lemma {:induction false} PositionOfDay(q: Setup, g: Group)
    requires q.period.InRange(Stamp(g))
    ensures q.Bucket(Stamp(g)) == CalendarPosition(q.period, Stamp(g))
  {
    hide CalendarPosition, ChartPosition, Period.InRange, Stamp;
    PositionIsCalendar(q.period, Stamp(g));
  }

  lemma {:induction false} DueIsNothing(q: Setup, m: MeterReport, days: seq<Group>, f: Field, b: nat)
    requires m.meter in q.cps && IsAbsent(q.cps[m.meter], f)
    ensures Due(q, m, days, f) == 0.0 && DueAt(q, m, days, f, b) == 0.0
  {
    if days != [] {
      hide Energy, Counted, Stamp, TotalsOf, Contribution, Setup.Bucket, RoundFixed;
      DueIsNothing(q, m, days[..|days| - 1], f, b);
      ContributionIsEnergy(q, q.cps[m.meter], days[|days| - 1], f);
      ZeroRounds();
    }
  }

  lemma {:induction false} DaysOfAnswer(rows: seq<SlotRow>, cp: CounterPoint, days: seq<Group>)
    requires AllMatch(rows, cp, Flatten(days))
    ensures DaysMatch(rows, cp, days)
  {
    if days != [] {
      hide Matches;
      var n := |days| - 1;
      assert forall l :: l in Flatten(days[..n]) || l in days[n] ==> l in Flatten(days);
      DaysOfAnswer(rows, cp, days[..n]);
    }
  }

  // What a run leaves of an entry that had no report.
  function FreshReport(q: Setup, m: MeterReport, days: seq<Group>): Report {
    ReportOf(Finished(AfterDays(q, m, days)))
  }

  // The participant report, end to end, by the names of its fields: what is published of a metering
  // point is the sum of its slots over the counted days, rounded day by day for a consumer and once
  // for a producer.
  lemma {:induction false} ParticipantReportShowsTable(cps: seq<CounterPoint>, shape: Shape, rows: seq<SlotRow>,
                                                       end: int, es: seq<Entry>, r: Result<Delivery>, q: Setup,
                                                       c: nat, m: MeterReport, days: seq<Group>)
    requires IsAnswer(cps, shape, rows, end, es, r) && r.Ok? && Flatten(days) == LinesOf(r.value.entries)
    requires c < |cps| && m.meter in q.cps && q.cps[m.meter] == cps[c] && ReportOf(m) == EMPTY
    ensures var s := FreshReport(q, m, days).summary;
            if cps[c].direction == Consumer then
              && s.consumption == CountedValue(rows, cps[c], 0, m, days)
              && s.allocation == CountedValue(rows, cps[c], 1, m, days)
              && s.utilization == CountedValue(rows, cps[c], 2, m, days)
              && s.production == 0.0
            else
              && s.production == RoundFixed(CountedValue(rows, cps[c], 0, m, days))
              && s.allocation == RoundFixed(CountedValue(rows, cps[c], 1, m, days))
              && s.consumption == 0.0 && s.utilization == 0.0
  {
    hide Fill, AllPrintable, BuildEngineCtx, Delivered, Due, Energy, CountedValue, Flatten, Matches, EMPTY, AllMatch,
         IsRead, IsAbsent, DaysMatch, LinesOf, RoundFixed, AfterDays, Finished;
    DeliveredMatches(cps, shape, rows, r.value.entries, c);
    DaysOfAnswer(rows, cps[c], days);
    FieldsBySlot(rows, cps[c]);
    FieldsPublished(q, m, days);
    if cps[c].direction == Consumer {
      DueIsCounted(rows, q, m, days, Consumption, 0, 1);
      DueIsCounted(rows, q, m, days, Allocated, 1, 1);
      DueIsCounted(rows, q, m, days, Utilization, 2, 1);
      DueIsNothing(q, m, days, Production, 1);
    } else {
      DueIsCounted(rows, q, m, days, Production, 0, 1);
      DueIsCounted(rows, q, m, days, Allocated, 1, 1);
      DueIsNothing(q, m, days, Consumption, 1);
      DueIsNothing(q, m, days, Utilization, 1);
    }
    ZeroRounds();
  }

  // The fields of the published summary.
  lemma {:induction false} FieldsPublished(q: Setup, m: MeterReport, days: seq<Group>)
    requires m.meter in q.cps && ReportOf(m) == EMPTY
    ensures var s := FreshReport(q, m, days).summary;
            && s.consumption == RoundFixed(Due(q, m, days, Consumption))
            && s.allocation == RoundFixed(Due(q, m, days, Allocated))
            && s.utilization == RoundFixed(Due(q, m, days, Utilization))
            && s.production == RoundFixed(Due(q, m, days, Production))
            && (q.cps[m.meter].direction == Consumer ==>
                  && s.consumption == Due(q, m, days, Consumption) && s.allocation == Due(q, m, days, Allocated)
                  && s.utilization == Due(q, m, days, Utilization))
  {
    hide AfterDays, Due, Finished, RoundFixed, EMPTY;
    PublishedIsRounded(q, m, days, Consumption);
    PublishedIsRounded(q, m, days, Allocated);
    PublishedIsRounded(q, m, days, Utilization);
    PublishedIsRounded(q, m, days, Production);
    PublishedFresh(q, m, days, Consumption);
    PublishedFresh(q, m, days, Allocated);
    PublishedFresh(q, m, days, Utilization);
  }

  // The charts, by the names of their curves: position b holds the counted days that a reader finds
  // there.
  lemma {:induction false} ParticipantChartShowsTable(cps: seq<CounterPoint>, shape: Shape, rows: seq<SlotRow>,
                                                      end: int, es: seq<Entry>, r: Result<Delivery>, q: Setup,
                                                      c: nat, m: MeterReport, days: seq<Group>, b: nat)
    requires IsAnswer(cps, shape, rows, end, es, r) && r.Ok? && Flatten(days) == LinesOf(r.value.entries)
    requires c < |cps| && m.meter in q.cps && q.cps[m.meter] == cps[c] && ReportOf(m) == EMPTY
    requires DaysInRange(q.period, days) && 0 < b
    ensures var s := FreshReport(q, m, days).series;
            if cps[c].direction == Consumer then
              && At(s.consumption, b - 1) == ValueAt(rows, cps[c], 0, m, q.period, days, b)
              && At(s.allocation, b - 1) == ValueAt(rows, cps[c], 1, m, q.period, days, b)
              && At(s.utilization, b - 1) == ValueAt(rows, cps[c], 2, m, q.period, days, b)
              && At(s.production, b - 1) == 0.0
            else
              && At(s.production, b - 1) == ValueAt(rows, cps[c], 0, m, q.period, days, b)
              && At(s.allocation, b - 1) == ValueAt(rows, cps[c], 1, m, q.period, days, b)
              && At(s.consumption, b - 1) == At(s.utilization, b - 1) == 0.0
  {
    hide Fill, AllPrintable, BuildEngineCtx, Delivered, DueAt, Energy, ValueAt, Flatten, Matches, AllMatch,
         IsRead, IsAbsent, DaysMatch, LinesOf, AfterDays, Finished, DaysInRange;
    DeliveredMatches(cps, shape, rows, r.value.entries, c);
    DaysOfAnswer(rows, cps[c], days);
    FieldsBySlot(rows, cps[c]);
    CurvesFilled(q, m, days, b);
    if cps[c].direction == Consumer {
      DueIsCounted(rows, q, m, days, Consumption, 0, b);
      DueIsCounted(rows, q, m, days, Allocated, 1, b);
      DueIsCounted(rows, q, m, days, Utilization, 2, b);
      DueIsNothing(q, m, days, Production, b);
    } else {
      DueIsCounted(rows, q, m, days, Production, 0, b);
      DueIsCounted(rows, q, m, days, Allocated, 1, b);
      DueIsNothing(q, m, days, Consumption, b);
      DueIsNothing(q, m, days, Utilization, b);
    }
  }

  lemma {:induction false} CurvesFilled(q: Setup, m: MeterReport, days: seq<Group>, b: nat)
    requires ReportOf(m) == EMPTY && 0 < b
    ensures var s := FreshReport(q, m, days).series;
            && At(s.consumption, b - 1) == DueAt(q, m, days, Consumption, b)
            && At(s.allocation, b - 1) == DueAt(q, m, days, Allocated, b)
            && At(s.utilization, b - 1) == DueAt(q, m, days, Utilization, b)
            && At(s.production, b - 1) == DueAt(q, m, days, Production, b)
  {
    hide AfterDays, DueAt, Finished, Balanced;
    EmptyIsBalanced(q, m);
    ChartIsGrouping(q, m, days, Consumption, b);
    ChartIsGrouping(q, m, days, Allocated, b);
    ChartIsGrouping(q, m, days, Utilization, b);
    ChartIsGrouping(q, m, days, Production, b);
    FinishedReport(AfterDays(q, m, days), Consumption);
  }

  // A rounded day is within half a millionth of the day.
  lemma {:induction false} CountedIsNear(rows: seq<SlotRow>, cp: CounterPoint, slot: nat, m: MeterReport,
                                         days: seq<Group>)
    ensures Near(CountedValue(rows, cp, slot, m, days), TableEnergy(rows, cp, slot, CountedLines(m, days)), |days|)
  {
    hide TableEnergy, RoundFixed;
    if days == [] {
      NoLinesNoEnergy(rows, cp, slot);
    } else {
      hide *;
      CountedIsNear(rows, cp, slot, m, days[..|days| - 1]);
      NextIsNear(rows, cp, slot, m, days);
    }
  }

  lemma {:induction false} NoLinesNoEnergy(rows: seq<SlotRow>, cp: CounterPoint, slot: nat)
    ensures TableEnergy(rows, cp, slot, []) == 0.0
  {
  }

  lemma {:induction false} NextIsNear(rows: seq<SlotRow>, cp: CounterPoint, slot: nat, m: MeterReport, days: seq<Group>)
    requires days != []
    requires var n := |days| - 1;
             Near(CountedValue(rows, cp, slot, m, days[..n]),
                  TableEnergy(rows, cp, slot, CountedLines(m, days[..n])), n)
    ensures Near(CountedValue(rows, cp, slot, m, days), TableEnergy(rows, cp, slot, CountedLines(m, days)), |days|)
  {
    hide Counted, Stamp, RoundFixed, TableEnergy;
    var n := |days| - 1;
    TableEnergyAdds(rows, cp, slot, CountedLines(m, days[..n]), days[n]);
    assert CountedLines(m, days[..n]) + [] == CountedLines(m, days[..n]);
    RoundingIsNear(TableEnergy(rows, cp, slot, days[n]));
  }

  lemma {:induction false} TableEnergyAdds(rows: seq<SlotRow>, cp: CounterPoint, slot: nat, a: Group, b: Group)
    ensures TableEnergy(rows, cp, slot, a + b) == TableEnergy(rows, cp, slot, a) + TableEnergy(rows, cp, slot, b)
  {
    if b == [] {
      assert a + b == a;
    } else {
      hide Lookup;
      TableEnergyAdds(rows, cp, slot, a, b[..|b| - 1]);
      assert (a + b)[..|a + b| - 1] == a + b[..|b| - 1];
    }
  }

  // What the sheet shows of a looked-up row: its rounded value when its quality is 1, 2 or 3.
  function ShownValue(found: Option<SlotRow>): real {
    if 1 <= QovOr1(found) <= 3 then RoundFixed(ValueOr0(found)) else 0.0
  }

  lemma {:induction false} ShownCellShowsTable(cps: seq<CounterPoint>, shape: Shape, rows: seq<SlotRow>, fs: seq<Entry>,
                                               n: nat, c: nat, j: nat)
    requires Delivered(cps, shape, rows, fs) && n < |fs| && c < |cps| && j < Stride(cps[c].direction)
    ensures T.ValueOf(S.ShownCell(fs[n].line, cps[c].direction, CellIdx(cps[c], j)))
            == ShownValue(Lookup(rows, fs[n].ts, cps[c], j))
  {
    hide Lookup, CellIdx;
    assert Shows(cps, shape, rows, fs[n].ts, fs[n].line);
    assert Holds(fs[n].line, cps[c], j, Lookup(rows, fs[n].ts, cps[c], j));
    WholeIsMicro(0);
    RoundKeepsMicro(0.0);
  }

  // Exporting an answer, importing the sheet into any table and looking the value up again finds
  // what the first table held, rounded, under the new source index, unless the second table holds
  // a later code for the slot.
  lemma {:induction false} SheetCarriesTable(cps: seq<CounterPoint>, shape: Shape, rows: seq<SlotRow>, end: int,
                                             es: seq<Entry>, r: Result<Delivery>, fmt: D.Formats, ctx: S.RunnerContext,
                                             t: EnergyData, tenant: string, ec: string, from: int, until: int,
                                             stored: seq<SlotRow>, n: nat, c: nat, i: nat, j: nat)
    requires IsAnswer(cps, shape, rows, end, es, r) && r.Ok?
    requires ctx.Valid() && DistinctMeters(ctx.meta)
    requires I.IsQuery(ApplyAll(t, I.StoreSlots(tenant, ec, T.AllSlots(ctx, r.value.entries))), tenant, ec, from,
                       until, stored)
    requires i < |ctx.meta| && c < |cps| && ctx.meta[i] == cps[c] && j < Stride(cps[c].direction)
    requires n < |r.value.entries| && from <= r.value.entries[n].ts <= until && D.DatePrintable(r.value.entries[n].ts)
    requires !exists k :: k in t && I.IsLater(k, tenant, ec, r.value.entries[n].ts, cps[c], j)
    ensures var ts := r.value.entries[n].ts;
            var found := Lookup(stored, ts, T.ImportedPoint(fmt, ctx, i), j);
            && ValueOr0(found) == ShownValue(Lookup(rows, ts, cps[c], j)) && QovOr1(found) == 1
            && T.ImportedPoint(fmt, ctx, i).sourceIdx == if i < ctx.countCons then i else i - ctx.countCons
  {
    hide Fill, AllPrintable, BuildEngineCtx, T.AllSlots, Lookup, ShownValue, T.ValueOf, S.ShownCell, D.DatePrintable,
         I.IsQuery, I.IsLater, ApplyAll, CellIdx, D.ParseDateCell, S.PeriodStartCell, S.PeriodEndCell, S.Base;
    ShownCellShowsTable(cps, shape, rows, r.value.entries, n, c, j);
    I.ImportedLookup(fmt, ctx, r.value.entries, t, tenant, ec, from, until, stored, n, i, j);
  }
}
