/**
 The participant report: every calendar day of a stream is flushed into the entries whose
 membership window covers it.
 */
module Participants {
  import opened Calendar
  import opened ChartPositions
  import opened CalcResultsModel
  import opened CounterPoints
  import opened Matrices
  import opened Outcomes
  import opened Periods
  import opened Rounding

  datatype Recort = Recort(consumption: real, utilization: real, allocation: real, production: real)

  datatype Curves = Curves(consumption: seq<real>, utilization: seq<real>, allocation: seq<real>, production: seq<real>)

  datatype Report = Report(summary: Recort, series: Curves)

  // One meter entry of the response, with its membership window.
  datatype MeterReport = MeterReport(meter: string, from: int, until: int, report: Option<Report>)

  const EMPTY := Report(Recort(0.0, 0.0, 0.0, 0.0), Curves([], [], [], []))

  // The four quantities of a report.
  datatype Field = Consumption | Utilization | Allocated | Production

  function Get(r: Recort, f: Field): real {
    match f
    case Consumption => r.consumption
    case Utilization => r.utilization
    case Allocated => r.allocation
    case Production => r.production
  }

  function Curve(s: Curves, f: Field): seq<real> {
    match f
    case Consumption => s.consumption
    case Utilization => s.utilization
    case Allocated => s.allocation
    case Production => s.production
  }

  // The queried period, the sizes of the topology and its metering points by name.
  datatype Setup = Setup(period: Period, consumers: nat, producers: nat, cps: map<string, CounterPoint>)
  {
    // Every metering point has its row in the accumulators.
    ghost predicate Valid() {
      forall k :: k in cps ==> cps[k].sourceIdx < if cps[k].direction == Consumer then consumers else producers
    }

    // One row per metering point.
    ghost predicate HasRows(t: Totals) {
      consumers <= |t.cons| && consumers <= |t.alloc| && consumers <= |t.shar| && producers <= |t.prod|
        && producers <= |t.dist|
    }

    // The 1-based position of a day in the charts.
    function Bucket(day: int): (b: nat)
      ensures 1 <= b
    {
      ChartPosition(period, day)
    }
  }

  // The window check: whole days at both ends, but the day stands for its first line.
  predicate Counted(m: MeterReport, day: int) {
    Midnight(m.from) <= day <= Midnight(m.until)
  }

  // What a day's totals hold for one metering point; consumers are rounded, producers are not.
  function Contribution(cp: CounterPoint, t: Totals): Recort {
    var i := cp.sourceIdx;
    if cp.direction == Consumer then Recort(RoundFixed(At(t.cons, i)), RoundFixed(At(t.alloc, i)),
                                            RoundFixed(At(t.shar, i)), 0.0)
    else Recort(0.0, 0.0, At(t.dist, i), At(t.prod, i))
  }

  function Added(a: Recort, b: Recort): (r: Recort)
    ensures forall f :: Get(r, f) == Get(a, f) + Get(b, f)
  {
    Recort(a.consumption + b.consumption, a.utilization + b.utilization, a.allocation + b.allocation,
           a.production + b.production)
  }

  // A value into bucket b of a curve that grows on demand.
  function Bumped(s: seq<real>, b: nat, v: real, d: Direction): (r: seq<real>)
    requires 0 < b
    ensures |r| == if |s| < b then b else |s|
  {
    var p := Padded(s, b);
    p[b - 1 := if d == Consumer then RoundFixed(p[b - 1] + v) else p[b - 1] + v]
  }

  // The curves an entry of a direction has.
  predicate HasCurve(d: Direction, f: Field) {
    f == Allocated || (f == Production <==> d == Producer)
  }

  // Position b of the curve has grown by v (rounded for a consumer), the others are as they were,
  // and the curve is just long enough.
  ghost predicate IsBumped(s: seq<real>, r: seq<real>, b: nat, v: real, d: Direction)
    requires 0 < b
  {
    && |r| == (if |s| < b then b else |s|)
    && r[b - 1] == (if d == Consumer then RoundFixed(At(s, b - 1) + v) else At(s, b - 1) + v)
    && forall k :: 0 <= k < |r| && k != b - 1 ==> r[k] == At(s, k)
  }

  lemma {:induction false} BumpIsDetermined(s: seq<real>, r: seq<real>, b: nat, v: real, d: Direction)
    requires 0 < b
    ensures IsBumped(s, r, b, v, d) <==> r == Bumped(s, b, v, d)
  {
    hide RoundFixed;
  }

  // What is written to the curves of an entry leaves no other choice for its series.
  lemma {:induction false} CurvesAreDetermined(s: Curves, r: Curves, d: Direction, b: nat, v: Recort)
    requires 0 < b
    requires forall f :: if HasCurve(d, f) then IsBumped(Curve(s, f), Curve(r, f), b, Get(v, f), d)
             else Curve(r, f) == Curve(s, f)
    ensures r == AddToCurves(s, d, b, v)
  {
    hide IsBumped, Bumped;
    forall f ensures HasCurve(d, f) ==> Curve(r, f) == Bumped(Curve(s, f), b, Get(v, f), d) {
      BumpIsDetermined(Curve(s, f), Curve(r, f), b, Get(v, f), d);
    }
    assert Curve(r, Consumption) == r.consumption && Curve(r, Utilization) == r.utilization;
    assert Curve(r, Allocated) == r.allocation && Curve(r, Production) == r.production;
    assert HasCurve(d, Allocated) && (d == Consumer ==> HasCurve(d, Consumption) && HasCurve(d, Utilization));
    assert d == Producer ==> HasCurve(d, Production);
    assert d == Producer ==>
      Curve(r, Consumption) == Curve(s, Consumption) && Curve(r, Utilization) == Curve(s, Utilization);
    assert d == Consumer ==> Curve(r, Production) == Curve(s, Production);
  }

  function AddToCurves(s: Curves, d: Direction, b: nat, v: Recort): Curves
    requires 0 < b
  {
    if d == Consumer then
      s.(consumption := Bumped(s.consumption, b, v.consumption, d),
         allocation := Bumped(s.allocation, b, v.allocation, d),
         utilization := Bumped(s.utilization, b, v.utilization, d))
    else
      s.(production := Bumped(s.production, b, v.production, d),
         allocation := Bumped(s.allocation, b, v.allocation, d))
  }

  function ReportOf(m: MeterReport): Report {
    match m.report
    case Some(r) => r
    case None => EMPTY
  }

  function Stamp(g: Group): int {
    if g == [] then 0 else g[0].ts
  }

  // One flushed day: its stamp is the moment of its first line.
  function AfterTotals(q: Setup, m: MeterReport, day: int, t: Totals): MeterReport {
    if m.meter in q.cps && Counted(m, day) then
      var cp := q.cps[m.meter];
      var v := Contribution(cp, t);
      var r := ReportOf(m);
      m.(report := Some(Report(Added(r.summary, v), AddToCurves(r.series, cp.direction, q.Bucket(day), v))))
    else m
  }

  function AfterDay(q: Setup, m: MeterReport, g: Group): MeterReport {
    AfterTotals(q, m, Stamp(g), TotalsOf(q.consumers, q.producers, g))
  }

  function AfterDays(q: Setup, m: MeterReport, days: seq<Group>): MeterReport {
    if days == [] then m else AfterDay(q, AfterDays(q, m, days[..|days| - 1]), days[|days| - 1])
  }

  function AllAfter(q: Setup, ms: seq<MeterReport>, days: seq<Group>): (r: seq<MeterReport>)
    ensures |r| == |ms| && forall i :: 0 <= i < |ms| ==> r[i] == AfterDays(q, ms[i], days)
  {
    seq(|ms|, i requires 0 <= i < |ms| => AfterDays(q, ms[i], days))
  }

  function RoundRecort(r: Recort): (s: Recort)
    ensures forall f :: Get(s, f) == RoundFixed(Get(r, f))
  {
    Recort(RoundFixed(r.consumption), RoundFixed(r.utilization), RoundFixed(r.allocation), RoundFixed(r.production))
  }

  // The final pass: summaries only.
  function Finished(m: MeterReport): MeterReport {
    match m.report
    case None => m
    case Some(r) => m.(report := Some(r.(summary := RoundRecort(r.summary))))
  }

  function AllFinished(ms: seq<MeterReport>): (r: seq<MeterReport>)
    ensures |r| == |ms| && forall i :: 0 <= i < |ms| ==> r[i] == Finished(ms[i])
  {
    seq(|ms|, i requires 0 <= i < |ms| => Finished(ms[i]))
  }

  // The summaries of all entries.
  function Overall(ms: seq<MeterReport>, f: Field): real {
    if ms == [] then 0.0 else Overall(ms[..|ms| - 1], f) + Get(ReportOf(ms[|ms| - 1]).summary, f)
  }

  lemma {:induction false} OverallUpdate(ms: seq<MeterReport>, i: nat, m: MeterReport, f: Field)
    requires i < |ms|
    ensures Overall(ms[i := m], f) == Overall(ms, f) + Get(ReportOf(m).summary, f) - Get(ReportOf(ms[i]).summary, f)
  {
    var n := |ms| - 1;
    if i == n {
      assert ms[i := m][..n] == ms[..n];
    } else {
      assert ms[i := m][..n] == ms[..n][i := m];
      OverallUpdate(ms[..n], i, m, f);
    }
  }

  // ---- The state machine. ----

  // Rounding in place any number of times leaves what a later rounding reads.
  ghost predicate SameWhenRounded(t: Totals, u: Totals) {
    && RoundCells(t.cons) == RoundCells(u.cons) && RoundCells(t.alloc) == RoundCells(u.alloc)
    && RoundCells(t.shar) == RoundCells(u.shar) && t.prod == u.prod && t.dist == u.dist
  }

  lemma {:induction false} RoundTwice(a: seq<real>)
    ensures RoundCells(RoundCells(a)) == RoundCells(a)
  {
    forall i | 0 <= i < |a| ensures RoundFixed(RoundFixed(a[i])) == RoundFixed(a[i]) {
      RoundKeepsMicro(RoundFixed(a[i]));
    }
  }

  lemma {:induction false} SameContribution(t: Totals, u: Totals, cp: CounterPoint)
    requires SameWhenRounded(t, u)
    ensures Contribution(cp, t) == Contribution(cp, u)
  {
    RoundedAt(t.cons, u.cons, cp.sourceIdx);
    RoundedAt(t.alloc, u.alloc, cp.sourceIdx);
    RoundedAt(t.shar, u.shar, cp.sourceIdx);
  }

  lemma {:induction false} RoundedAt(a: seq<real>, b: seq<real>, i: nat)
    requires RoundCells(a) == RoundCells(b)
    ensures RoundFixed(At(a, i)) == RoundFixed(At(b, i))
  {
    assert |RoundCells(a)| == |RoundCells(b)|;
    if i < |a| {
      assert RoundCells(a)[i] == RoundCells(b)[i];
    }
  }

  lemma {:induction false} RoundingKeeps(t: Totals, u: Totals, r: Totals)
    requires SameWhenRounded(t, u)
    requires r.prod == t.prod && r.dist == t.dist
    requires r.cons == t.cons || r.cons == RoundCells(t.cons)
    requires r.alloc == t.alloc || r.alloc == RoundCells(t.alloc)
    requires r.shar == t.shar || r.shar == RoundCells(t.shar)
    ensures SameWhenRounded(r, u)
  {
    RoundTwice(t.cons);
    RoundTwice(t.alloc);
    RoundTwice(t.shar);
  }

  lemma {:induction false} RowsOf(t: Totals, u: Totals)
    requires SameWhenRounded(t, u)
    ensures |t.cons| == |u.cons| && |t.alloc| == |u.alloc| && |t.shar| == |u.shar| && |t.prod| == |u.prod|
             && |t.dist| == |u.dist|
  {
    assert |RoundCells(t.cons)| == |RoundCells(u.cons)| && |RoundCells(t.alloc)| == |RoundCells(u.alloc)|;
    assert |RoundCells(t.shar)| == |RoundCells(u.shar)|;
  }

  lemma {:induction false} RoundedCells(t: Totals, i: nat)
    requires i < |t.cons| && i < |t.alloc| && i < |t.shar|
    ensures At(RoundCells(t.cons), i) == RoundFixed(At(t.cons, i))
    ensures At(RoundCells(t.alloc), i) == RoundFixed(At(t.alloc, i))
    ensures At(RoundCells(t.shar), i) == RoundFixed(At(t.shar, i))
  {
  }

  class ParticipantConsumer {
    const q: Setup
    var meters: seq<MeterReport>
    var totalConsumption: real
    var totalProduction: real
    var daySummary: CalcResults
    var currentDay: int
    var dayInit: bool

    // The response as handed in, the lines of the flushed days and of the open one.
    ghost const meters0: seq<MeterReport>
    ghost const base: (real, real)
    ghost var closed: seq<Group>
    ghost var open: Group

    constructor (q: Setup, meters: seq<MeterReport>, totalConsumption: real, totalProduction: real)
      requires q.Valid()
      ensures Valid() && this.q == q && meters0 == meters && closed == [] && open == []
      ensures base == (totalConsumption, totalProduction)
      ensures fresh(daySummary.Repr)
    {
      hide NoTotals;
      this.q, this.meters, this.totalConsumption, this.totalProduction := q, meters, totalConsumption, totalProduction;
      meters0, base := meters, (totalConsumption, totalProduction);
      currentDay, dayInit := q.period.Start(), false;
      var d := new CalcResults(q.consumers, q.producers);
      daySummary := d;
      closed, open := [], [];
      new;
      assert meters == AllAfter(q, meters0, closed);
    }

    // The totals moved by exactly what the entries' summaries moved.
    ghost predicate TotalsFollow()
      reads this
    {
      && totalConsumption == base.0 + Overall(meters, Consumption) - Overall(meters0, Consumption)
      && totalProduction == base.1 + Overall(meters, Production) - Overall(meters0, Production)
    }

    // Everything but the open day.
    ghost predicate Flushed()
      reads this
    {
      && q.Valid() && TotalsFollow() && meters == AllAfter(q, meters0, closed)
    }

    ghost predicate Valid()
      reads this, daySummary, daySummary.Repr
    {
      && Flushed() && daySummary.Valid() && this !in daySummary.Repr
      && daySummary.View() == TotalsOf(q.consumers, q.producers, open)
      && (dayInit <==> open != []) && (dayInit ==> currentDay == Stamp(open))
    }

    // Adds the day to one entry; the totals are rounded in place on the way.
    method FlushMeter(i: nat, cp: CounterPoint, day: int, ghost t: Totals)
      requires i < |meters| && meters[i].meter in q.cps && cp == q.cps[meters[i].meter] && q.Valid()
      requires daySummary.Valid() && this !in daySummary.Repr && SameWhenRounded(daySummary.View(), t) && q.HasRows(t)
      modifies this`meters, this`totalConsumption, this`totalProduction, daySummary.Repr
      ensures daySummary.Valid() && daySummary.Repr == old(daySummary.Repr) && SameWhenRounded(daySummary.View(), t)
      ensures meters == old(meters)[i := AfterTotals(q, old(meters[i]), day, t)]
      ensures totalConsumption - old(totalConsumption)
              == Overall(meters, Consumption) - old(Overall(meters, Consumption))
      ensures totalProduction - old(totalProduction) == Overall(meters, Production) - old(Overall(meters, Production))
    {
      hide RoundFixed, RoundCells, SameWhenRounded, Contribution, AddToCurves, Setup.Bucket, Midnight,
           CalcResults.Valid,
           CalcResults.View, Overall, Setup.HasRows;
      var m := meters[i];
      var from, until := Midnight(m.from), Midnight(m.until);
      if !(from <= day && day <= until) {
        return;
      }
      if m.report == None {
        m := m.(report := Some(EMPTY));
      }
      var summary, series := m.report.value.summary, m.report.value.series;
      if cp.direction == Consumer {
        var consumed, shared, allotted := RoundedValues(cp, t);
        summary := summary.(consumption := summary.consumption + consumed,
                            allocation := summary.allocation + shared,
                            utilization := summary.utilization + allotted);
        totalConsumption := totalConsumption + consumed;
        var next := AppendIntermediate(series, Recort(consumed, allotted, shared, 0.0), Consumer, day);
        CurvesAreDetermined(series, next, Consumer, q.Bucket(day), Recort(consumed, allotted, shared, 0.0));
        series := next;
      } else {
        var produced, distributed := ProducedValues(cp, t);
        summary := summary.(production := summary.production + produced,
                            allocation := summary.allocation + distributed);
        totalProduction := totalProduction + produced;
        var next := AppendIntermediate(series, Recort(0.0, 0.0, distributed, produced), Producer, day);
        CurvesAreDetermined(series, next, Producer, q.Bucket(day), Recort(0.0, 0.0, distributed, produced));
        series := next;
      }
      m := m.(report := Some(Report(summary, series)));
      OverallUpdate(meters, i, m, Consumption);
      OverallUpdate(meters, i, m, Production);
      meters := meters[i := m];
    }

    method RoundedValues(cp: CounterPoint, ghost t: Totals) returns (consumed: real, shared: real, allotted: real)
      requires daySummary.Valid() && this !in daySummary.Repr && SameWhenRounded(daySummary.View(), t) && q.HasRows(t)
      requires cp.direction == Consumer && cp.sourceIdx < q.consumers
      modifies daySummary.Repr
      ensures daySummary.Valid() && daySummary.Repr == old(daySummary.Repr) && SameWhenRounded(daySummary.View(), t)
      ensures Recort(consumed, allotted, shared, 0.0) == Contribution(cp, t)
    {
      hide SameWhenRounded, RoundCells, RoundFixed;
      ghost var v := daySummary.View();
      RowsOf(v, t);
      daySummary.ColumnRows();
      consumed, shared, allotted := daySummary.RoundedConsumer(cp.sourceIdx);
      RoundingKeeps(v, t, daySummary.View());
      RoundedCells(v, cp.sourceIdx);
      SameContribution(v, t, cp);
    }

    method ProducedValues(cp: CounterPoint, ghost t: Totals) returns (produced: real, distributed: real)
      requires daySummary.Valid() && SameWhenRounded(daySummary.View(), t) && q.HasRows(t)
      requires cp.direction == Producer && cp.sourceIdx < q.producers
      ensures Recort(0.0, 0.0, distributed, produced) == Contribution(cp, t)
    {
      hide RoundCells, RoundFixed;
      daySummary.ColumnRows();
      produced, distributed := daySummary.rProd.GetElm(cp.sourceIdx, 0), daySummary.rDist.GetElm(cp.sourceIdx, 0);
    }

    // The day's values go to its position of the curves the direction has.
    method AppendIntermediate(series: Curves, v: Recort, d: Direction, day: int) returns (s: Curves)
      ensures forall f :: if HasCurve(d, f) then IsBumped(Curve(series, f), Curve(s, f), q.Bucket(day), Get(v, f), d)
                          else Curve(s, f) == Curve(series, f)
    {
      hide IsBumped, Setup.Bucket, RoundFixed;
      var b := q.Bucket(day);
      s := series;
      match d {
        case Consumer =>
          s := s.(consumption := Padded(s.consumption, b), allocation := Padded(s.allocation, b),
                  utilization := Padded(s.utilization, b));
          s := s.(consumption := s.consumption[b - 1 := RoundFixed(s.consumption[b - 1] + v.consumption)],
                  allocation := s.allocation[b - 1 := RoundFixed(s.allocation[b - 1] + v.allocation)],
                  utilization := s.utilization[b - 1 := RoundFixed(s.utilization[b - 1] + v.utilization)]);
        case Producer =>
          s := s.(production := Padded(s.production, b), allocation := Padded(s.allocation, b));
          s := s.(production := s.production[b - 1 := s.production[b - 1] + v.production],
                  allocation := s.allocation[b - 1 := s.allocation[b - 1] + v.allocation]);
      }
      forall f | HasCurve(d, f) ensures IsBumped(Curve(series, f), Curve(s, f), b, Get(v, f), d) {
        BumpIsDetermined(Curve(series, f), Curve(s, f), b, Get(v, f), d);
      }
    }

    // Visits the metering points in any order, and every entry of each.
    method FlushDay(day: int, ghost t: Totals)
      requires daySummary.Valid() && this !in daySummary.Repr && q.Valid() && TotalsFollow()
      requires SameWhenRounded(daySummary.View(), t) && q.HasRows(t)
      modifies this`meters, this`totalConsumption, this`totalProduction, daySummary.Repr
      ensures daySummary.Valid() && daySummary.Repr == old(daySummary.Repr) && TotalsFollow()
      ensures AreFlushed(q, old(meters), meters, day, t, {})
    {
      hide SameWhenRounded, AfterTotals, Setup.HasRows;
      ghost var before := meters;
      var todo := q.cps.Keys;
      NothingFlushed(q, before, day, t);
      while todo != {}
        invariant todo <= q.cps.Keys
        invariant daySummary.Valid() && daySummary.Repr == old(daySummary.Repr) && SameWhenRounded(daySummary.View(), t)
        invariant TotalsFollow() && AreFlushed(q, before, meters, day, t, todo)
        decreases todo
      {
        var k :| k in todo;
        FlushPoint(k, day, t, before, todo);
        todo := todo - {k};
      }
    }

    method FlushPoint(k: string, day: int, ghost t: Totals, ghost before: seq<MeterReport>, ghost todo: set<string>)
      requires k in todo && todo <= q.cps.Keys
      requires daySummary.Valid() && this !in daySummary.Repr && q.Valid() && TotalsFollow()
      requires SameWhenRounded(daySummary.View(), t) && q.HasRows(t) && AreFlushed(q, before, meters, day, t, todo)
      modifies this`meters, this`totalConsumption, this`totalProduction, daySummary.Repr
      ensures daySummary.Valid() && daySummary.Repr == old(daySummary.Repr) && SameWhenRounded(daySummary.View(), t)
      ensures TotalsFollow() && AreFlushed(q, before, meters, day, t, todo - {k})
    {
      hide SameWhenRounded, AfterTotals, Setup.HasRows, Setup.Valid, HalfFlushed;
      HalfFlushedEnds(q, before, meters, day, t, todo, k);
      for i := 0 to |meters|
        invariant daySummary.Valid() && daySummary.Repr == old(daySummary.Repr) && SameWhenRounded(daySummary.View(), t)
        invariant TotalsFollow() && |meters| == |before| && HalfFlushed(q, before, meters, day, t, todo, k, i)
      {
        ghost var was := meters;
        if meters[i].meter == k {
          FlushMeter(i, q.cps[k], day, t);
        }
        HalfFlushedNext(q, before, was, meters, day, t, todo, k, i);
      }
      HalfFlushedEnds(q, before, meters, day, t, todo, k);
    }

    // All lines, one after the other.
    method Feed(lines: seq<LineRef>, ghost all: Group)
      requires Valid() && closed == [] && open == [] && |all| == |lines|
      requires forall i :: 0 <= i < |lines| ==> all[i] == CalcLine(lines[i].ts, lines[i].c[..], lines[i].p[..])
      requires forall i :: 0 <= i < |lines| ==> lines[i].c !in daySummary.Repr && lines[i].p !in daySummary.Repr
      modifies this, daySummary.Repr
      ensures Valid() && (lines != [] ==> open != []) && fresh(daySummary.Repr - old(daySummary.Repr))
      ensures Flatten(WithOpen(closed, open)) == all
      ensures SmallSteps(all) ==> AreDays(WithOpen(closed, open))
    {
      hide YearDay, Valid, AreDays, SmallSteps, Flatten, CalcResults.Valid;
      assert WithOpen([], []) == [] && all[..0] == [];
      NoDays();
      for n := 0 to |lines|
        invariant Valid() && fresh(daySummary.Repr - old(daySummary.Repr))
        invariant Flatten(WithOpen(closed, open)) == all[..n] && (n == 0 <==> open == [])
        invariant SmallSteps(all) ==> AreDays(WithOpen(closed, open))
      {
        NextDayStep(closed, open, all, n);
        HandleLine(lines[n].ts, lines[n].c, lines[n].p);
      }
      assert all[..|lines|] == all;
    }

    method HandleLine(ts: int, c: array<real>, p: array<real>)
      requires Valid() && {c, p} !! daySummary.Repr
      modifies this, daySummary.Repr
      ensures Valid() && fresh(daySummary.Repr - old(daySummary.Repr))
      ensures var l, next := CalcLine(ts, c[..], p[..]), IsNextDay(old(open), ts);
              && closed == (if next then old(closed) + [old(open)] else old(closed))
              && open == (if next then [l] else old(open) + [l])
    {
      hide YearDay, TotalsOf, WithLine, AllAfter, AfterTotals, NoTotals, CalcResults.Valid, CalcResults.View, Overall,
           Setup.Valid;
      ghost var l := CalcLine(ts, c[..], p[..]);
      if !dayInit {
        currentDay, dayInit := ts, true;
      }
      if YearDay(ts) != YearDay(currentDay) {
        StartNextDay(ts);
      }
      TotalsOfSnoc(q.consumers, q.producers, open, l);
      daySummary.AppendResults(c, p);
      open := open + [l];
    }

    // Flushes the open day and starts an empty one; its first line is appended next.
    method StartNextDay(ts: int)
      requires Valid() && open != []
      modifies this, daySummary.Repr
      ensures Flushed() && dayInit && currentDay == ts && daySummary.Valid() && fresh(daySummary.Repr)
      ensures daySummary.View() == TotalsOf(q.consumers, q.producers, open)
      ensures closed == old(closed) + [old(open)] && open == []
    {
      hide YearDay, TotalsOf, NoTotals, AllAfter, AreFlushed, Setup.HasRows, SameWhenRounded, CalcResults.Valid,
           CalcResults.View,
           Overall, Setup.Valid;
      CloseDay();
      daySummary := new CalcResults(q.consumers, q.producers);
      NoLinesNoTotals(q.consumers, q.producers);
      currentDay := ts;
    }

    method CloseDay()
      requires Valid() && open != []
      modifies this, daySummary.Repr
      ensures Flushed() && closed == old(closed) + [old(open)] && open == [] && dayInit
    {
      hide YearDay, AfterTotals, TotalsOf, AllAfter, SameWhenRounded;
      ghost var t, before := daySummary.View(), meters;
      TotalsHaveRows(q.consumers, q.producers, open);
      SameAsItself(t);
      FlushDay(currentDay, t);
      AllAfterSnoc(q, meters0, closed, open, meters);
      closed := closed + [open];
      open := [];
    }

    // The last day, and the rounding of every summary.
    method HandleEnd()
      requires Valid() && open != []
      modifies this, daySummary.Repr
      ensures closed == old(closed) + [old(open)]
      ensures meters == AllFinished(AllAfter(q, meters0, closed))
      ensures var after := AllAfter(q, meters0, closed);
              && totalConsumption == base.0 + Overall(after, Consumption) - Overall(meters0, Consumption)
              && totalProduction == base.1 + Overall(after, Production) - Overall(meters0, Production)
    {
      hide AllAfter;
      CloseDay();
      ghost var after := meters;
      for i := 0 to |meters|
        modifies this`meters
        invariant |meters| == |after|
        invariant forall j :: 0 <= j < |after| ==> meters[j] == if j < i then Finished(after[j]) else after[j]
      {
        if meters[i].report.Some? {
          var r := meters[i].report.value;
          meters := meters[i := meters[i].(report := Some(r.(summary := RoundRecort(r.summary))))];
        }
      }
    }
  }

  // A line belongs to the next day when its number within the year differs.
  predicate IsNextDay(open: Group, ts: int) {
    open != [] && YearDay(ts) != YearDay(Stamp(open))
  }

  // The day has been added to the entries, except to those still to be visited.
  ghost predicate AreFlushed(q: Setup, before: seq<MeterReport>, after: seq<MeterReport>, day: int, t: Totals,
                             todo: set<string>) {
    && |after| == |before|
    && forall i :: 0 <= i < |before| ==>
         after[i].meter == before[i].meter
         && after[i] == if before[i].meter in todo then before[i] else AfterTotals(q, before[i], day, t)
  }

  lemma {:induction false} NothingFlushed(q: Setup, ms: seq<MeterReport>, day: int, t: Totals)
    ensures AreFlushed(q, ms, ms, day, t, q.cps.Keys)
  {
  }

  // The first n entries are done with metering point k too.
  ghost predicate HalfFlushed(q: Setup, before: seq<MeterReport>, after: seq<MeterReport>, day: int, t: Totals,
                              todo: set<string>, k: string, n: nat)
  {
    && |after| == |before|
    && forall i :: 0 <= i < |before| ==>
         after[i].meter == before[i].meter
         && after[i] == if before[i].meter in todo && (before[i].meter != k || n <= i) then before[i]
                        else AfterTotals(q, before[i], day, t)
  }

  lemma {:induction false} HalfFlushedEnds(q: Setup, before: seq<MeterReport>, after: seq<MeterReport>, day: int,
                                           t: Totals,
                                           todo: set<string>, k: string)
    ensures AreFlushed(q, before, after, day, t, todo) ==> HalfFlushed(q, before, after, day, t, todo, k, 0)
    ensures HalfFlushed(q, before, after, day, t, todo, k, |before|)
            ==> AreFlushed(q, before, after, day, t, todo - {k})
  {
    hide AfterTotals;
  }

  lemma {:induction false} HalfFlushedNext(q: Setup, before: seq<MeterReport>, was: seq<MeterReport>,
                                           now: seq<MeterReport>,
                                           day: int, t: Totals, todo: set<string>, k: string, n: nat)
    requires k in todo && n < |before| && HalfFlushed(q, before, was, day, t, todo, k, n)
    requires now == if was[n].meter == k then was[n := AfterTotals(q, was[n], day, t)] else was
    ensures HalfFlushed(q, before, now, day, t, todo, k, n + 1)
  {
    var m := AfterTotals(q, before[n], day, t);
    assert m.meter == before[n].meter;
    hide AfterTotals;
  }

  lemma {:induction false} AllAfterSnoc(q: Setup, ms: seq<MeterReport>, days: seq<Group>, g: Group,
                                        after: seq<MeterReport>)
    requires AreFlushed(q, AllAfter(q, ms, days), after, Stamp(g), TotalsOf(q.consumers, q.producers, g), {})
    ensures after == AllAfter(q, ms, days + [g])
  {
    hide AfterTotals, TotalsOf;
    assert (days + [g])[..|days|] == days;
    forall i | 0 <= i < |ms| ensures after[i] == AfterDays(q, ms[i], days + [g]) {
      assert after[i] == AfterDay(q, AfterDays(q, ms[i], days), g);
    }
  }

  lemma {:induction false} TotalsHaveRows(consumers: nat, producers: nat, g: Group)
    ensures var t := TotalsOf(consumers, producers, g);
            && consumers <= |t.cons| && consumers <= |t.alloc| && consumers <= |t.shar|
            && producers <= |t.prod| && producers <= |t.dist|
  {
    if g != [] {
      TotalsHaveRows(consumers, producers, g[..|g| - 1]);
    }
  }

  lemma {:induction false} SameAsItself(t: Totals)
    ensures SameWhenRounded(t, t)
  {
  }

  function WithOpen(closed: seq<Group>, open: Group): seq<Group> {
    if open == [] then closed else closed + [open]
  }

  // All lines of a group are on the same calendar day.
  ghost predicate IsDay(g: Group) {
    g != [] && forall k :: 0 <= k < |g| ==> DayOf(g[k].ts) == DayOf(Stamp(g))
  }

  // Each group is a calendar day, and each day is there at most once.
  ghost predicate AreDays(days: seq<Group>) {
    && (forall i :: 0 <= i < |days| ==> IsDay(days[i]))
    && (forall i, j :: 0 <= i < j < |days| ==> DayOf(Stamp(days[i])) < DayOf(Stamp(days[j])))
  }

  lemma {:induction false} NoDays()
    ensures AreDays([]) && Flatten([]) == []
  {
  }

  // One line of the run: the groups stay a partition, and stay calendar days.
  lemma {:induction false} NextDayStep(closed: seq<Group>, open: Group, all: Group, n: nat)
    requires n < |all| && Flatten(WithOpen(closed, open)) == all[..n] && (n == 0 <==> open == [])
    requires SmallSteps(all) ==> AreDays(WithOpen(closed, open))
    ensures var next, l := IsNextDay(open, all[n].ts), all[n];
            var groups := WithOpen(if next then closed + [open] else closed, if next then [l] else open + [l]);
            && Flatten(groups) == all[..n + 1]
            && (SmallSteps(all) ==> AreDays(groups))
  {
    hide YearDay, AreDays, Flatten;
    FlattenSnoc(closed, open);
    FlattenSnoc(closed, open + [all[n]]);
    FlattenSnoc(closed + [open], [all[n]]);
    assert all[..n + 1] == all[..n] + [all[n]];
    if SmallSteps(all) {
      if open == [] {
        NoLinesNoDays(closed);
        FirstDay(all[n]);
        assert closed + [open + [all[n]]] == [[all[n]]] by {
          assert open + [all[n]] == [all[n]];
        }
      } else {
        assert all[..n][n - 1] == open[|open| - 1];
        NextDayKeepsDays(closed, open, all[n]);
      }
    }
  }

  lemma {:induction false} NoLinesNoDays(days: seq<Group>)
    requires AreDays(days)
    ensures Flatten(days) == [] ==> days == []
  {
    if days != [] {
      assert IsDay(days[|days| - 1]);
    }
  }

  lemma {:induction false} FirstDay(l: CalcLine)
    ensures AreDays([[l]])
  {
  }

  lemma {:induction false} NextDayKeepsDays(closed: seq<Group>, open: Group, l: CalcLine)
    requires open != [] && AreDays(closed + [open])
    requires open[|open| - 1].ts < l.ts < open[|open| - 1].ts + Slots(2)
    ensures if IsNextDay(open, l.ts) then AreDays(closed + [open] + [[l]]) else AreDays(closed + [open + [l]])
  {
    hide YearDay;
    var last := open[|open| - 1].ts;
    assert (closed + [open])[|closed|] == open;
    assert IsDay(open);
    SameYearDay(last, l.ts);
    SameDayNumber(last, Stamp(open));
    if IsNextDay(open, l.ts) {
      NewDayAscends(closed, open, l);
    } else {
      SameDayGrows(closed, open, l);
    }
  }

  lemma {:induction false} SameDayNumber(a: int, b: int)
    requires DayOf(a) == DayOf(b)
    ensures YearDay(a) == YearDay(b)
  {
  }

  lemma {:induction false} NewDayAscends(closed: seq<Group>, open: Group, l: CalcLine)
    requires open != [] && AreDays(closed + [open]) && DayOf(Stamp(open)) < DayOf(l.ts)
    ensures AreDays(closed + [open] + [[l]])
  {
    hide DayOf;
    var days := closed + [open];
    assert days[|closed|] == open;
    forall i, j | 0 <= i < j < |days + [[l]]|
      ensures DayOf(Stamp((days + [[l]])[i])) < DayOf(Stamp((days + [[l]])[j])) {
      if j == |days| && i < |closed| {
        assert DayOf(Stamp(days[i])) < DayOf(Stamp(days[|closed|]));
      }
    }
  }

  lemma {:induction false} SameDayGrows(closed: seq<Group>, open: Group, l: CalcLine)
    requires open != [] && AreDays(closed + [open]) && DayOf(Stamp(open)) == DayOf(l.ts)
    ensures AreDays(closed + [open + [l]])
  {
    hide DayOf;
    var days, grown := closed + [open], closed + [open + [l]];
    assert days[|closed|] == open && Stamp(open + [l]) == Stamp(open);
    forall i, j | 0 <= i < j < |grown| ensures DayOf(Stamp(grown[i])) < DayOf(Stamp(grown[j])) {
      assert DayOf(Stamp(days[i])) < DayOf(Stamp(days[j]));
    }
    forall i | 0 <= i < |grown| ensures IsDay(grown[i]) {
      assert IsDay(days[i]);
    }
  }

  // What the days contribute to one entry.
  function DueOf(q: Setup, m: MeterReport, g: Group, f: Field): real {
    if m.meter in q.cps && Counted(m, Stamp(g))
      then Get(Contribution(q.cps[m.meter], TotalsOf(q.consumers, q.producers, g)), f)
    else 0.0
  }

  function Due(q: Setup, m: MeterReport, days: seq<Group>, f: Field): real {
    if days == [] then 0.0 else Due(q, m, days[..|days| - 1], f) + DueOf(q, m, days[|days| - 1], f)
  }

  function AllDue(q: Setup, ms: seq<MeterReport>, days: seq<Group>, f: Field): real {
    if ms == [] then 0.0 else AllDue(q, ms[..|ms| - 1], days, f) + Due(q, ms[|ms| - 1], days, f)
  }

  lemma {:induction false} SummaryIsDue(q: Setup, m: MeterReport, days: seq<Group>, f: Field)
    ensures AfterDays(q, m, days).(report := m.report) == m
    ensures Get(ReportOf(AfterDays(q, m, days)).summary, f) == Get(ReportOf(m).summary, f) + Due(q, m, days, f)
  {
    if days != [] {
      hide Contribution, AddToCurves, Setup.Bucket, TotalsOf, Counted;
      var n := |days| - 1;
      SummaryIsDue(q, m, days[..n], f);
      SummaryStep(q, AfterDays(q, m, days[..n]), m, days[n], f);
    }
  }

  lemma {:induction false} SummaryStep(q: Setup, m: MeterReport, m0: MeterReport, g: Group, f: Field)
    requires m.(report := m0.report) == m0
    ensures AfterDay(q, m, g).(report := m0.report) == m0
    ensures Get(ReportOf(AfterDay(q, m, g)).summary, f) == Get(ReportOf(m).summary, f) + DueOf(q, m0, g, f)
  {
    hide Contribution, AddToCurves, Setup.Bucket, TotalsOf;
  }

  lemma {:induction false} OverallIsDue(q: Setup, ms: seq<MeterReport>, days: seq<Group>, f: Field)
    ensures Overall(AllAfter(q, ms, days), f) == Overall(ms, f) + AllDue(q, ms, days, f)
  {
    hide AfterDays, Due;
    if ms != [] {
      var n := |ms| - 1;
      OverallIsDue(q, ms[..n], days, f);
      assert AllAfter(q, ms, days)[..n] == AllAfter(q, ms[..n], days);
      SummaryIsDue(q, ms[n], days, f);
    }
  }
}
