/**
 What the participant report promises: charts, summaries and totals agree, a window counts
 whole calendar days, and splitting a window keeps its energy.
 */
module ParticipantTheorems {
  import opened Calendar
  import opened CalcResultsModel
  import opened CounterPoints
  import opened Matrices
  import opened Outcomes
  import opened Participants
  import opened Periods
  import opened Rounding

  predicate IsConsumer(q: Setup, m: MeterReport) {
    m.meter in q.cps && q.cps[m.meter].direction == Consumer
  }

  // ---- Charts sum to summaries. ----

  // Every curve sums to its summary field; the cells of a consumer's curves are rounded.
  ghost predicate Balanced(q: Setup, m: MeterReport) {
    forall f :: CurveFits(q, m, f)
  }

  ghost predicate CurveFits(q: Setup, m: MeterReport, f: Field) {
    && Sum(Curve(ReportOf(m).series, f)) == Get(ReportOf(m).summary, f)
    && (IsConsumer(q, m) ==> AllMicro(Curve(ReportOf(m).series, f)))
  }

  lemma {:induction false} PaddedMicro(s: seq<real>, b: nat)
    requires AllMicro(s)
    ensures AllMicro(Padded(s, b))
  {
    WholeIsMicro(0);
  }

  lemma {:induction false} BumpedSum(s: seq<real>, b: nat, v: real, d: Direction)
    requires 0 < b
    requires d == Consumer ==> AllMicro(s) && Micro(v)
    ensures Sum(Bumped(s, b, v, d)) == Sum(s) + v
    ensures d == Consumer ==> AllMicro(Bumped(s, b, v, d))
  {
    hide RoundFixed, Micro, Padded;
    var p := Padded(s, b);
    if d == Consumer {
      PaddedMicro(s, b);
      MicroAdd(p[b - 1], v);
      RoundKeepsMicro(p[b - 1] + v);
    }
    SumPadded(s, b);
    SumUpdate(p, b - 1, p[b - 1] + v);
  }

  lemma {:induction false} ContributionMicro(cp: CounterPoint, t: Totals, f: Field)
    requires cp.direction == Consumer
    ensures Micro(Get(Contribution(cp, t), f))
  {
    WholeIsMicro(0);
  }

  // The curves a direction does not write get no contribution.
  lemma {:induction false} CurvesStep(s: Curves, cp: CounterPoint, b: nat, t: Totals, f: Field)
    requires 0 < b
    ensures var v, n := Contribution(cp, t), AddToCurves(s, cp.direction, b, Contribution(cp, t));
            || Curve(n, f) == Bumped(Curve(s, f), b, Get(v, f), cp.direction)
            || (Curve(n, f) == Curve(s, f) && Get(v, f) == 0.0)
    ensures var n := AddToCurves(s, cp.direction, b, Contribution(cp, t));
            cp.direction == Consumer && f != Production ==>
              Curve(n, f) == Bumped(Curve(s, f), b, Get(Contribution(cp, t), f), cp.direction)
  {
    hide Bumped;
  }

  lemma {:induction false} DayKeepsBalance(q: Setup, m: MeterReport, g: Group, f: Field)
    requires CurveFits(q, m, f)
    ensures CurveFits(q, AfterDay(q, m, g), f)
  {
    hide Contribution, AddToCurves, Setup.Bucket, TotalsOf, AllMicro, Sum, Counted;
    if m.meter in q.cps {
      var cp, t, b := q.cps[m.meter], TotalsOf(q.consumers, q.producers, g), q.Bucket(Stamp(g));
      var s := ReportOf(m).series;
      CurvesStep(s, cp, b, t, f);
      if cp.direction == Consumer {
        ContributionMicro(cp, t, f);
      }
      BumpedSum(Curve(s, f), b, Get(Contribution(cp, t), f), cp.direction);
    }
  }

  lemma {:induction false} RunKeepsBalance(q: Setup, m: MeterReport, days: seq<Group>)
    requires Balanced(q, m)
    ensures Balanced(q, AfterDays(q, m, days))
  {
    hide CurveFits, AfterDay;
    if days != [] {
      var n := |days| - 1;
      RunKeepsBalance(q, m, days[..n]);
      forall f ensures CurveFits(q, AfterDays(q, m, days), f) {
        DayKeepsBalance(q, AfterDays(q, m, days[..n]), days[n], f);
      }
    }
  }

  lemma {:induction false} EmptyIsBalanced(q: Setup, m: MeterReport)
    requires ReportOf(m) == EMPTY
    ensures Balanced(q, m)
  {
  }

  // After any run and the final rounding, the chart of a consumer sums to its published summary
  // exactly, that of a producer within half a millionth.
  lemma {:induction false} ChartSumsToSummary(q: Setup, m: MeterReport, days: seq<Group>, f: Field)
    requires Balanced(q, m)
    ensures var r := ReportOf(Finished(AfterDays(q, m, days)));
            && (IsConsumer(q, m) ==> Sum(Curve(r.series, f)) == Get(r.summary, f))
            && -HALF <= Sum(Curve(r.series, f)) - Get(r.summary, f) <= HALF
  {
    hide AfterDays, Sum, RoundFixed;
    RunKeepsBalance(q, m, days);
    var a := AfterDays(q, m, days);
    SummaryIsDue(q, m, days, f);
    assert a.meter == m.(report := a.report).meter == m.meter;
    assert CurveFits(q, a, f);
    if IsConsumer(q, m) {
      SumMicro(Curve(ReportOf(a).series, f));
      RoundKeepsMicro(Get(ReportOf(a).summary, f));
    }
    FinishedReport(a, f);
  }

  lemma {:induction false} FinishedReport(m: MeterReport, f: Field)
    ensures ReportOf(Finished(m)).series == ReportOf(m).series
    ensures Get(ReportOf(Finished(m)).summary, f) == RoundFixed(Get(ReportOf(m).summary, f))
  {
    ZeroRounds();
  }

  lemma {:induction false} ZeroRounds()
    ensures RoundFixed(0.0) == 0.0
  {
    WholeIsMicro(0);
    RoundKeepsMicro(0.0);
  }

  // ---- A chart position holds the days that fall on it. ----

  function DueAt(q: Setup, m: MeterReport, days: seq<Group>, f: Field, b: nat): real {
    if days == [] then 0.0
    else DueAt(q, m, days[..|days| - 1], f, b)
         + if q.Bucket(Stamp(days[|days| - 1])) == b then DueOf(q, m, days[|days| - 1], f) else 0.0
  }

  lemma {:induction false} BumpedAt(s: seq<real>, b: nat, v: real, d: Direction, k: nat)
    requires 0 < b && 0 < k
    requires d == Consumer ==> AllMicro(s) && Micro(v)
    ensures At(Bumped(s, b, v, d), k - 1) == At(s, k - 1) + if k == b then v else 0.0
  {
    hide RoundFixed, Micro;
    if d == Consumer {
      PaddedMicro(s, b);
      MicroAdd(Padded(s, b)[b - 1], v);
      RoundKeepsMicro(Padded(s, b)[b - 1] + v);
    }
  }

  lemma {:induction false} ChartStep(q: Setup, m: MeterReport, m0: MeterReport, g: Group, f: Field, b: nat)
    requires 0 < b && m.(report := m0.report) == m0
    requires CurveFits(q, m, f)
    ensures At(Curve(ReportOf(AfterDay(q, m, g)).series, f), b - 1)
            == At(Curve(ReportOf(m).series, f), b - 1) + if q.Bucket(Stamp(g)) == b then DueOf(q, m0, g, f) else 0.0
  {
    hide Contribution, AddToCurves, Setup.Bucket, TotalsOf, AllMicro, Sum, At, Stamp;
    if m.meter in q.cps && Counted(m, Stamp(g)) {
      var cp, t, k := q.cps[m.meter], TotalsOf(q.consumers, q.producers, g), q.Bucket(Stamp(g));
      var s := ReportOf(m).series;
      CurvesStep(s, cp, k, t, f);
      if cp.direction == Consumer {
        ContributionMicro(cp, t, f);
      }
      BumpedAt(Curve(s, f), k, Get(Contribution(cp, t), f), cp.direction, b);
    }
  }

  // Position b of a chart has grown by exactly the counted days that fall on b.
  lemma {:induction false} ChartIsGrouping(q: Setup, m: MeterReport, days: seq<Group>, f: Field, b: nat)
    requires Balanced(q, m) && 0 < b
    ensures At(Curve(ReportOf(AfterDays(q, m, days)).series, f), b - 1)
            == At(Curve(ReportOf(m).series, f), b - 1) + DueAt(q, m, days, f, b)
  {
    if days != [] {
      hide At, AfterDay, CurveFits, DueOf, Setup.Bucket;
      var n := |days| - 1;
      ChartIsGrouping(q, m, days[..n], f, b);
      RunKeepsBalance(q, m, days[..n]);
      SummaryIsDue(q, m, days[..n], f);
      ChartStep(q, AfterDays(q, m, days[..n]), m, days[n], f, b);
    }
  }

  // ---- Totals. ----

  ghost predicate AllBalanced(q: Setup, ms: seq<MeterReport>) {
    forall i :: 0 <= i < |ms| ==> Balanced(q, ms[i])
  }

  // The entries start with six-decimal values, as empty ones do.
  ghost predicate AllSixDecimal(ms: seq<MeterReport>, f: Field) {
    forall i :: 0 <= i < |ms| ==> Micro(Get(ReportOf(ms[i]).summary, f))
  }

  lemma {:induction false} OverallSnoc(q: Setup, ms: seq<MeterReport>, days: seq<Group>, f: Field)
    requires ms != []
    ensures var n := |ms| - 1;
            Overall(AllFinished(AllAfter(q, ms, days)), f)
            == Overall(AllFinished(AllAfter(q, ms[..n], days)), f)
              + Get(ReportOf(Finished(AfterDays(q, ms[n], days))).summary, f)
  {
    hide AfterDays, Finished, ReportOf, Get;
    var n := |ms| - 1;
    assert AllFinished(AllAfter(q, ms, days))[..n] == AllFinished(AllAfter(q, ms[..n], days));
  }

  // The total of the run is the sum of the published summaries: exactly for consumption, and
  // within half a millionth per entry for the rest.
  lemma {:induction false} TotalsAreSummaries(q: Setup, ms: seq<MeterReport>, days: seq<Group>, f: Field)
    requires AllBalanced(q, ms)
    ensures Near(Overall(AllFinished(AllAfter(q, ms, days)), f), Overall(ms, f) + AllDue(q, ms, days, f), |ms|)
    ensures f == Consumption && AllSixDecimal(ms, f) ==>
              Overall(AllFinished(AllAfter(q, ms, days)), f) == Overall(ms, f) + AllDue(q, ms, days, f)
  {
    NoEntries(q, days, f);
    hide AfterDays, Due, Finished, Balanced, Micro, IsConsumer, ReportOf, Get, AllFinished, AllAfter, Near, AllBalanced,
         AllSixDecimal;
    if ms != [] {
      var n := |ms| - 1;
      BalancedPrefix(q, ms, f);
      TotalsAreSummaries(q, ms[..n], days, f);
      OverallSnoc(q, ms, days, f);
      PublishedEntry(q, ms[n], days, f);
      NearAdd(Overall(AllFinished(AllAfter(q, ms[..n], days)), f), Overall(ms[..n], f) + AllDue(q, ms[..n], days, f), n,
              Get(ReportOf(Finished(AfterDays(q, ms[n], days))).summary, f), Get(ReportOf(ms[n]).summary, f)
                + Due(q, ms[n], days, f));
    }
  }

  lemma {:induction false} NoEntries(q: Setup, days: seq<Group>, f: Field)
    ensures Overall(AllFinished(AllAfter(q, [], days)), f) == 0.0 && Near(0.0, 0.0, 0)
  {
  }

  lemma {:induction false} BalancedPrefix(q: Setup, ms: seq<MeterReport>, f: Field)
    requires AllBalanced(q, ms) && ms != []
    ensures AllBalanced(q, ms[..|ms| - 1]) && Balanced(q, ms[|ms| - 1])
    ensures AllSixDecimal(ms, f) ==> AllSixDecimal(ms[..|ms| - 1], f) && Micro(Get(ReportOf(ms[|ms| - 1]).summary, f))
  {
    hide Balanced, Micro, Get, ReportOf;
  }

  lemma {:induction false} OnlyConsumersConsume(q: Setup, m: MeterReport, days: seq<Group>)
    requires !IsConsumer(q, m)
    ensures Due(q, m, days, Consumption) == 0.0
  {
    if days != [] {
      hide TotalsOf, At;
      OnlyConsumersConsume(q, m, days[..|days| - 1]);
    }
  }

  // One published summary field is the energy due: to the last decimal for a consumer.
  lemma {:induction false} PublishedEntry(q: Setup, m: MeterReport, days: seq<Group>, f: Field)
    requires Balanced(q, m)
    ensures var s := Get(ReportOf(Finished(AfterDays(q, m, days))).summary, f);
            && (IsConsumer(q, m) ==> s == Get(ReportOf(m).summary, f) + Due(q, m, days, f))
            && (f == Consumption && Micro(Get(ReportOf(m).summary, f))
                ==> s == Get(ReportOf(m).summary, f) + Due(q, m, days, f))
            && Near(s, Get(ReportOf(m).summary, f) + Due(q, m, days, f), 1)
  {
    hide AfterDays, Due, Sum, RoundFixed, Micro;
    RunKeepsBalance(q, m, days);
    var a := AfterDays(q, m, days);
    SummaryIsDue(q, m, days, f);
    assert a.meter == m.(report := a.report).meter == m.meter;
    assert CurveFits(q, a, f);
    if IsConsumer(q, m) {
      SumMicro(Curve(ReportOf(a).series, f));
      RoundKeepsMicro(Get(ReportOf(a).summary, f));
    } else if f == Consumption && Micro(Get(ReportOf(m).summary, f)) {
      OnlyConsumersConsume(q, m, days);
      RoundKeepsMicro(Get(ReportOf(a).summary, f));
    }
    FinishedReport(a, f);
  }

  // ---- What a window counts. ----

  // A day is counted when the window holds it, except that a day that starts after midnight is
  // not counted on the window's last day.
  lemma {:induction false} WindowCountsDays(m: MeterReport, day: int)
    ensures Counted(m, day) <==>
              DayOf(m.from) <= DayOf(day) && (DayOf(day) < DayOf(m.until) || (DayOf(day) == DayOf(m.until)
                 && MinuteOfDay(day) == 0))
  {
  }

  // The energy of a metering point over some lines, as its columns hold it.
  function Energy(cp: CounterPoint, g: Group, f: Field): real {
    var i := cp.sourceIdx;
    if cp.direction == Consumer then
      match f
      case Consumption => ConsumerCell(g, i * 3)
      case Allocated => ConsumerCell(g, i * 3 + 1)
      case Utilization => ConsumerCell(g, i * 3 + 2)
      case Production => 0.0
    else
      match f
      case Production => ProducerCell(g, i * 2)
      case Allocated => ProducerCell(g, i * 2 + 1)
      case _ => 0.0
  }

  // The lines of the days a window counts.
  function CountedLines(m: MeterReport, days: seq<Group>): Group {
    if days == [] then []
    else CountedLines(m, days[..|days| - 1]) + if Counted(m, Stamp(days[|days| - 1])) then days[|days| - 1] else []
  }

  lemma {:induction false} ContributionIsEnergy(q: Setup, cp: CounterPoint, g: Group, f: Field)
    ensures var v, e := Get(Contribution(cp, TotalsOf(q.consumers, q.producers, g)), f), Energy(cp, g, f);
            v == if cp.direction == Consumer then RoundFixed(e) else e
  {
    hide At, RoundFixed, RoundUnits, TotalsOf, ConsumerCell, ProducerCell;
    AccumulatorIsColumnSums(q.consumers, q.producers, g, cp.sourceIdx);
    ZeroRounds();
  }

  lemma {:induction false} EnergyAdds(cp: CounterPoint, a: Group, b: Group, f: Field)
    ensures Energy(cp, a + b, f) == Energy(cp, a, f) + Energy(cp, b, f)
  {
    var i := cp.sourceIdx;
    GroupCells(a, b, i * 3);
    GroupCells(a, b, i * 3 + 1);
    GroupCells(a, b, i * 3 + 2);
    GroupCells(a, b, i * 2);
    GroupCells(a, b, i * 2 + 1);
  }

  // What a run adds to an entry is the energy of its metering point over the counted days:
  // exactly for a producer, within half a millionth per day for a consumer.
  lemma {:induction false} DueIsEnergy(q: Setup, m: MeterReport, days: seq<Group>, f: Field)
    requires m.meter in q.cps
    ensures Near(Due(q, m, days, f), Energy(q.cps[m.meter], CountedLines(m, days), f), |days|)
    ensures !IsConsumer(q, m) ==> Due(q, m, days, f) == Energy(q.cps[m.meter], CountedLines(m, days), f)
  {
    if days != [] {
      hide TotalsOf, Contribution, Energy, Counted, Stamp, RoundFixed;
      var n := |days| - 1;
      DueIsEnergy(q, m, days[..n], f);
      ContributionIsEnergy(q, q.cps[m.meter], days[n], f);
      EnergyAdds(q.cps[m.meter], CountedLines(m, days[..n]), days[n], f);
      assert CountedLines(m, days[..n]) + [] == CountedLines(m, days[..n]);
      RoundingIsNear(Energy(q.cps[m.meter], days[n], f));
    }
  }

  lemma {:induction false} RoundingIsNear(v: real)
    ensures -HALF <= RoundFixed(v) - v <= HALF
  {
  }

  // ---- Splitting a window. ----

  // The two halves of a window that is cut after day d.
  ghost predicate IsSplit(m: MeterReport, a: MeterReport, b: MeterReport) {
    && a.meter == b.meter == m.meter && a.from == m.from && b.until == m.until
    && DayOf(b.from) == DayOf(a.until) + 1
    && DayOf(m.from) <= DayOf(a.until) && DayOf(b.from) <= DayOf(m.until)
  }

  // A day whose first line is after midnight on the cut day falls between the halves.
  predicate Lost(a: MeterReport, day: int) {
    DayOf(day) == DayOf(a.until) && MinuteOfDay(day) != 0
  }

  function LostEnergy(q: Setup, a: MeterReport, days: seq<Group>, f: Field): real {
    if days == [] then 0.0
    else
      var g := days[|days| - 1];
      LostEnergy(q, a, days[..|days| - 1], f)
      + if Lost(a, Stamp(g)) then GainOf(q, a, g, f) else 0.0
  }

  lemma {:induction false} SplitDay(q: Setup, m: MeterReport, a: MeterReport, b: MeterReport, day: int)
    requires IsSplit(m, a, b)
    ensures Counted(m, day) <==> Counted(a, day) || Counted(b, day) || Lost(a, day)
    ensures !(Counted(a, day) && Counted(b, day)) && !(Counted(a, day) && Lost(a, day))
            && !(Counted(b, day) && Lost(a, day))
  {
    hide Midnight;
    hide Counted;
    WindowCountsDays(m, day);
    WindowCountsDays(a, day);
    WindowCountsDays(b, day);
  }

  // For every run, the halves together get what the whole window gets, less the lost day.
  lemma {:induction false} SplitLosesExactly(q: Setup, m: MeterReport, a: MeterReport, b: MeterReport, days: seq<Group>,
                                             f: Field)
    requires IsSplit(m, a, b)
    ensures Due(q, m, days, f) == Due(q, a, days, f) + Due(q, b, days, f) + LostEnergy(q, a, days, f)
  {
    if days != [] {
      hide TotalsOf, Contribution, Counted, Lost, Stamp;
      var n := |days| - 1;
      SplitLosesExactly(q, m, a, b, days[..n], f);
      SplitDay(q, m, a, b, Stamp(days[n]));
    }
  }

  // No day starts after midnight on the cut day.
  ghost predicate NothingLost(a: MeterReport, days: seq<Group>) {
    forall i :: 0 <= i < |days| ==> !Lost(a, Stamp(days[i]))
  }

  lemma {:induction false} NothingLostIsZero(q: Setup, a: MeterReport, days: seq<Group>, f: Field)
    requires NothingLost(a, days)
    ensures LostEnergy(q, a, days, f) == 0.0
  {
    if days != [] {
      hide TotalsOf, Contribution, Lost, Stamp;
      NothingLostIsZero(q, a, days[..|days| - 1], f);
    }
  }

  // Lines of a stream without gaps on the quarter-hour grid.
  ghost predicate OnGrid(g: Group) {
    && (forall i :: 0 <= i < |g| ==> g[i].ts % Slots(1) == 0)
    && (forall i :: 0 < i < |g| ==> g[i].ts == g[i - 1].ts + Slots(1))
  }

  // Neighbouring groups hold neighbouring lines.
  lemma {:induction false} Neighbours(days: seq<Group>, i: nat) returns (n: nat)
    requires 0 < i < |days| && forall k :: 0 <= k < |days| ==> days[k] != []
    ensures 0 < n < |Flatten(days)|
    ensures Flatten(days)[n - 1] == days[i - 1][|days[i - 1]| - 1] && Flatten(days)[n] == days[i][0]
  {
    var m := |days| - 1;
    if i < m {
      n := Neighbours(days[..m], i);
      assert Flatten(days)[n - 1] == Flatten(days[..m])[n - 1] && Flatten(days)[n] == Flatten(days[..m])[n];
    } else {
      n := |Flatten(days[..m])|;
      assert days[..m][m - 1] == days[m - 1];
      assert Flatten(days[..m]) == Flatten(days[..m][..m - 1]) + days[m - 1];
    }
  }

  // On the grid every day but the first starts at midnight.
  lemma {:induction false} GridDaysStartAtMidnight(days: seq<Group>, i: nat)
    requires AreDays(days) && OnGrid(Flatten(days)) && 0 < i < |days|
    ensures MinuteOfDay(Stamp(days[i])) == 0
  {
    hide Flatten;
    assert IsDay(days[i - 1]) && IsDay(days[i]);
    forall k | 0 <= k < |days| ensures days[k] != [] {
      assert IsDay(days[k]);
    }
    var n := Neighbours(days, i);
    var a, b := Flatten(days)[n - 1].ts, Flatten(days)[n].ts;
    assert DayOf(a) == DayOf(Stamp(days[i - 1])) < DayOf(b);
    MidnightBetween(a);
  }

  lemma {:induction false} MidnightBetween(a: int)
    requires a % Slots(1) == 0 && DayOf(a) < DayOf(a + Slots(1))
    ensures MinuteOfDay(a + Slots(1)) == 0
  {
  }

  // A grid stream that starts at midnight loses no day to any cut.
  lemma {:induction false} MidnightGridLosesNothing(a: MeterReport, days: seq<Group>)
    requires AreDays(days) && OnGrid(Flatten(days))
    requires days != [] ==> MinuteOfDay(Stamp(days[0])) == 0
    ensures NothingLost(a, days)
  {
    hide AreDays, OnGrid, Flatten, MinuteOfDay, DayOf;
    forall i | 0 <= i < |days| ensures !Lost(a, Stamp(days[i])) {
      if 0 < i {
        GridDaysStartAtMidnight(days, i);
      }
    }
  }

  // The promise: on a grid stream that starts at midnight, cutting a window between two days
  // leaves the energy of the entry unchanged.
  lemma {:induction false} SplitKeepsEnergy(q: Setup, m: MeterReport, a: MeterReport, b: MeterReport, days: seq<Group>,
                                            f: Field)
    requires IsSplit(m, a, b) && AreDays(days) && OnGrid(Flatten(days))
    requires days != [] ==> MinuteOfDay(Stamp(days[0])) == 0
    ensures Due(q, m, days, f) == Due(q, a, days, f) + Due(q, b, days, f)
  {
    hide AreDays, OnGrid, Flatten, Due, LostEnergy, MinuteOfDay, NothingLost, IsSplit;
    MidnightGridLosesNothing(a, days);
    NothingLostIsZero(q, a, days, f);
    SplitLosesExactly(q, m, a, b, days, f);
  }

  // What an entry gets from a day that its window counts.
  function GainOf(q: Setup, m: MeterReport, g: Group, f: Field): real {
    if m.meter in q.cps then Get(Contribution(q.cps[m.meter], TotalsOf(q.consumers, q.producers, g)), f) else 0.0
  }

  // For any stream of days the halves agree with the whole exactly when the cut day, if it starts
  // after midnight, contributes nothing to the field anyway.
  lemma {:induction false} SplitKeepsEnergyIff(q: Setup, m: MeterReport, a: MeterReport, b: MeterReport,
                                               days: seq<Group>, f: Field)
    requires IsSplit(m, a, b) && AreDays(days)
    ensures Due(q, m, days, f) == Due(q, a, days, f) + Due(q, b, days, f)
            <==> forall i :: 0 <= i < |days| && Lost(a, Stamp(days[i])) ==> GainOf(q, m, days[i], f) == 0.0
  {
    hide AreDays, Due, LostEnergy, MinuteOfDay, DayOf, GainOf, Lost;
    SplitLosesExactly(q, m, a, b, days, f);
    SameGain(q, m, a, f);
    forall i | 0 <= i < |days| && Lost(a, Stamp(days[i]))
      ensures LostEnergy(q, a, days, f) == GainOf(q, m, days[i], f) {
      OneIsLost(q, a, days, i, f);
    }
    if NothingLost(a, days) {
      NothingLostIsZero(q, a, days, f);
    }
  }

  lemma {:induction false} SameGain(q: Setup, m: MeterReport, a: MeterReport, f: Field)
    requires m.meter == a.meter
    ensures forall g :: GainOf(q, a, g, f) == GainOf(q, m, g, f)
  {
    hide Contribution, TotalsOf;
  }

  // At most one day is lost, and its gain is the loss.
  lemma {:induction false} OneIsLost(q: Setup, a: MeterReport, days: seq<Group>, i: nat, f: Field)
    requires AreDays(days) && i < |days| && Lost(a, Stamp(days[i]))
    ensures LostEnergy(q, a, days, f) == GainOf(q, a, days[i], f)
  {
    hide AreDays, GainOf, Lost, Stamp, NothingLost;
    var n := |days| - 1;
    FewerDays(days);
    OthersKept(a, days, i);
    if i == n {
      NothingLostIsZero(q, a, days[..n], f);
    } else {
      OneIsLost(q, a, days[..n], i, f);
    }
  }

  lemma {:induction false} OthersKept(a: MeterReport, days: seq<Group>, i: nat)
    requires AreDays(days) && i < |days| && Lost(a, Stamp(days[i]))
    ensures i == |days| - 1 ==> NothingLost(a, days[..|days| - 1])
    ensures i < |days| - 1 ==> !Lost(a, Stamp(days[|days| - 1]))
  {
    hide IsDay, Stamp, DayOf, MinuteOfDay;
  }

  // On the grid only the first day of a stream can be lost.
  lemma {:induction false} OnlyFirstIsLost(a: MeterReport, days: seq<Group>, i: nat)
    requires AreDays(days) && OnGrid(Flatten(days)) && i < |days| && Lost(a, Stamp(days[i]))
    ensures i == 0
  {
    hide AreDays, OnGrid, Flatten, MinuteOfDay, DayOf, Stamp;
    if 0 < i {
      GridDaysStartAtMidnight(days, i);
    }
  }

  // A stream that starts at 00:15 with one millionth, and a window cut after that day: the halves
  // get nothing.
  lemma {:induction false} LateStartLosesEnergy()
    ensures var q := Setup(Period(Monthly, 1, 1), 1, 0, map["AT" := CounterPoint("AT", Consumer, 0, None, None, "")]);
            var m := MeterReport("AT", 0, DAY, None);
            var a, b := m.(until := 0), m.(from := DAY);
            var days := [[CalcLine(15, [1.0, 0.0, 0.0], [])]];
            && q.Valid() && IsSplit(m, a, b) && AreDays(days)
            && Due(q, m, days, Consumption) == 1.0
            && Due(q, a, days, Consumption) + Due(q, b, days, Consumption) == 0.0
  {
    hide TotalsOf, Contribution, RoundFixed;
    var q := Setup(Period(Monthly, 1, 1), 1, 0, map["AT" := CounterPoint("AT", Consumer, 0, None, None, "")]);
    var m := MeterReport("AT", 0, DAY, None);
    var g := [CalcLine(15, [1.0, 0.0, 0.0], [])];
    var days: seq<Group> := [g];
    assert days[..0] == [] && g[..0] == [];
    assert Energy(q.cps["AT"], g, Consumption) == 1.0 by {
      assert ConsumerCell(g, 0) == ConsumerCell(g[..0], 0) + At([1.0, 0.0, 0.0], 0);
    }
    ContributionIsEnergy(q, q.cps["AT"], g, Consumption);
    WholeIsMicro(1);
    RoundKeepsMicro(1.0);
  }

  lemma {:induction false} FewerDays(days: seq<Group>)
    requires AreDays(days) && days != []
    ensures AreDays(days[..|days| - 1])
  {
    hide IsDay, DayOf, Stamp;
  }

  // The entries of a response around the one that is split.
  lemma {:induction false} AllDueOfTwo(q: Setup, ms: seq<MeterReport>, ns: seq<MeterReport>, days: seq<Group>, f: Field)
    ensures AllDue(q, ms + ns, days, f) == AllDue(q, ms, days, f) + AllDue(q, ns, days, f)
  {
    if ns == [] {
      assert ms + ns == ms;
    } else {
      var n := |ns| - 1;
      AllDueOfTwo(q, ms, ns[..n], days, f);
      assert (ms + ns)[..|ms| + n] == ms + ns[..n];
    }
  }

  // Splitting one entry of the response leaves the report's totals unchanged.
  lemma {:induction false} SplitKeepsTotals(q: Setup, ms: seq<MeterReport>, m: MeterReport, a: MeterReport,
                                            b: MeterReport, ns: seq<MeterReport>,
                         days: seq<Group>, f: Field)
    requires IsSplit(m, a, b) && AreDays(days) && OnGrid(Flatten(days))
    requires days != [] ==> MinuteOfDay(Stamp(days[0])) == 0
    ensures AllDue(q, ms + [m] + ns, days, f) == AllDue(q, ms + [a, b] + ns, days, f)
  {
    hide AreDays, OnGrid, Flatten, Due, IsSplit;
    SplitKeepsEnergy(q, m, a, b, days, f);
    AllDueOfTwo(q, ms + [m], ns, days, f);
    AllDueOfTwo(q, ms, [m], days, f);
    AllDueOfTwo(q, ms + [a, b], ns, days, f);
    AllDueOfTwo(q, ms, [a, b], days, f);
    assert [m][..0] == [] && [a, b][..1] == [a] && [a][..0] == [];
  }

  // A summary field as it is published.
  function Published(q: Setup, m: MeterReport, days: seq<Group>, f: Field): real {
    Get(ReportOf(Finished(AfterDays(q, m, days))).summary, f)
  }

  lemma {:induction false} PublishedFresh(q: Setup, m: MeterReport, days: seq<Group>, f: Field)
    requires ReportOf(m) == EMPTY
    ensures Micro(Published(q, m, days, f))
    ensures IsConsumer(q, m) ==> Published(q, m, days, f) == Due(q, m, days, f)
    ensures -HALF <= Published(q, m, days, f) - Due(q, m, days, f) <= HALF
  {
    hide AfterDays, Due, Balanced, Finished;
    EmptyIsBalanced(q, m);
    PublishedEntry(q, m, days, f);
    FinishedReport(AfterDays(q, m, days), f);
  }

  // When no day is lost, the published summaries of the halves add up to that of the whole: to the
  // last decimal for a consumer, within one millionth for a producer.
  lemma {:induction false} SplitKeepsSummary(q: Setup, m: MeterReport, a: MeterReport, b: MeterReport, days: seq<Group>,
                                             f: Field)
    requires IsSplit(m, a, b) && NothingLost(a, days)
    requires ReportOf(m) == ReportOf(a) == ReportOf(b) == EMPTY
    ensures IsConsumer(q, m) ==> Published(q, m, days, f) == Published(q, a, days, f) + Published(q, b, days, f)
    ensures -1.0 <= Published(q, m, days, f) - Published(q, a, days, f) - Published(q, b, days, f) <= 1.0
  {
    hide NothingLost, LostEnergy, Due, Published, ReportOf;
    NothingLostIsZero(q, a, days, f);
    SplitLosesExactly(q, m, a, b, days, f);
    PublishedFresh(q, m, days, f);
    PublishedFresh(q, a, days, f);
    PublishedFresh(q, b, days, f);
    WithinOne(Published(q, m, days, f), Published(q, a, days, f), Published(q, b, days, f));
  }

  lemma {:induction false} WithinOne(whole: real, a: real, b: real)
    requires Micro(whole) && Micro(a) && Micro(b)
    requires -3.0 * HALF <= whole - a - b <= 3.0 * HALF
    ensures -1.0 <= whole - a - b <= 1.0
  {
    MicroAdd(whole, a);
    MicroAdd(whole - a, b);
    var n := (whole - a - b).Floor;
    assert n as real == whole - a - b;
  }

  // What is published is the rounded due.
  lemma {:induction false} PublishedIsRounded(q: Setup, m: MeterReport, days: seq<Group>, f: Field)
    requires ReportOf(m) == EMPTY
    ensures Published(q, m, days, f) == RoundFixed(Due(q, m, days, f))
  {
    hide AfterDays, Due, Finished, RoundFixed;
    SummaryIsDue(q, m, days, f);
    FinishedReport(AfterDays(q, m, days), f);
    assert Get(ReportOf(m).summary, f) == 0.0;
  }

  // What rounding adds to two values is itself at most half a unit, and less where the tie would
  // go the other way.
  predicate RoundTogether(x: real, y: real) {
    var r := RoundFixed(x) - x + (RoundFixed(y) - y);
    -HALF <= r <= HALF && (r == HALF ==> 0.0 <= x + y) && (r == -HALF ==> x + y < 0.0)
  }

  lemma {:induction false} RoundedSum(x: real, y: real)
    ensures RoundFixed(x + y) == RoundFixed(x) + RoundFixed(y) <==> RoundTogether(x, y)
  {
    MicroAdd(RoundFixed(x), RoundFixed(y));
    if RoundTogether(x, y) {
      RoundIsDetermined(x + y, RoundFixed(x) + RoundFixed(y));
    }
  }

  // When no day is lost, the published summaries of the halves add up to that of the whole exactly
  // when the energies the halves count round together.
  lemma {:induction false} SplitKeepsSummaryIff(q: Setup, m: MeterReport, a: MeterReport, b: MeterReport,
                                                days: seq<Group>, f: Field)
    requires IsSplit(m, a, b) && NothingLost(a, days) && m.meter in q.cps && q.cps[m.meter].direction == Producer
    requires ReportOf(m) == ReportOf(a) == ReportOf(b) == EMPTY
    ensures var cp := q.cps[m.meter];
            var x, y := Energy(cp, CountedLines(a, days), f), Energy(cp, CountedLines(b, days), f);
            Published(q, m, days, f) == Published(q, a, days, f) + Published(q, b, days, f) <==> RoundTogether(x, y)
  {
    hide Due, Published, ReportOf, RoundTogether, NothingLost, Energy, RoundFixed;
    SplitLosesExactly(q, m, a, b, days, f);
    NothingLostIsZero(q, a, days, f);
    PublishedIsRounded(q, m, days, f);
    PublishedIsRounded(q, a, days, f);
    PublishedIsRounded(q, b, days, f);
    DueIsEnergy(q, a, days, f);
    DueIsEnergy(q, b, days, f);
    RoundedSum(Due(q, a, days, f), Due(q, b, days, f));
  }

  // All readings of the lines have six decimals.
  ghost predicate SixDecimalLines(g: Group) {
    forall l :: l in g ==> AllMicro(l.c) && AllMicro(l.p)
  }

  lemma {:induction false} CellsAreMicro(g: Group, k: nat)
    requires SixDecimalLines(g)
    ensures Micro(ConsumerCell(g, k)) && Micro(ProducerCell(g, k))
  {
    WholeIsMicro(0);
    if g != [] {
      hide Micro;
      var n := |g| - 1;
      assert g[n] in g && forall l :: l in g[..n] ==> l in g;
      CellsAreMicro(g[..n], k);
      MicroAdd(ConsumerCell(g[..n], k), At(g[n].c, k));
      MicroAdd(ProducerCell(g[..n], k), At(g[n].p, k));
    }
  }

  lemma {:induction false} EnergyIsMicro(cp: CounterPoint, g: Group, f: Field)
    requires SixDecimalLines(g)
    ensures Micro(Energy(cp, g, f))
  {
    hide Micro, SixDecimalLines, ConsumerCell, ProducerCell;
    WholeIsMicro(0);
    var i := cp.sourceIdx;
    CellsAreMicro(g, i * 3);
    CellsAreMicro(g, i * 3 + 1);
    CellsAreMicro(g, i * 3 + 2);
    CellsAreMicro(g, i * 2);
    CellsAreMicro(g, i * 2 + 1);
  }

  lemma {:induction false} CountedSixDecimal(m: MeterReport, days: seq<Group>)
    requires SixDecimalLines(Flatten(days))
    ensures SixDecimalLines(CountedLines(m, days))
  {
    if days != [] {
      hide AllMicro, Counted;
      CountedSixDecimal(m, days[..|days| - 1]);
    }
  }

  // For readings of six decimals they always do.
  lemma {:induction false} SixDecimalsKeepSummary(q: Setup, m: MeterReport, a: MeterReport, b: MeterReport,
                                                  days: seq<Group>, f: Field)
    requires IsSplit(m, a, b) && NothingLost(a, days) && m.meter in q.cps && SixDecimalLines(Flatten(days))
    requires ReportOf(m) == ReportOf(a) == ReportOf(b) == EMPTY
    ensures Published(q, m, days, f) == Published(q, a, days, f) + Published(q, b, days, f)
  {
    hide Due, Published, ReportOf, NothingLost, Energy, SixDecimalLines, CountedLines, Flatten, Micro, RoundFixed;
    var cp := q.cps[m.meter];
    if IsConsumer(q, m) {
      SplitKeepsSummary(q, m, a, b, days, f);
    } else {
      var x, y := Energy(cp, CountedLines(a, days), f), Energy(cp, CountedLines(b, days), f);
      CountedSixDecimal(a, days);
      CountedSixDecimal(b, days);
      EnergyIsMicro(cp, CountedLines(a, days), f);
      EnergyIsMicro(cp, CountedLines(b, days), f);
      RoundKeepsMicro(x);
      RoundKeepsMicro(y);
      SplitKeepsSummaryIff(q, m, a, b, days, f);
    }
  }

  // A producer with half a millionth on each of two days, and a window cut between them: the whole
  // publishes one millionth, and so does each half.
  lemma {:induction false} HalvesRoundUp()
    ensures var q := Setup(Period(Monthly, 1, 1), 0, 1, map["AT" := CounterPoint("AT", Producer, 0, None, None, "")]);
            var m := MeterReport("AT", 0, DAY, None);
            var a, b := m.(until := 0), m.(from := DAY);
            var days := [[CalcLine(0, [], [0.5, 0.0])], [CalcLine(DAY, [], [0.5, 0.0])]];
            && q.Valid() && IsSplit(m, a, b) && AreDays(days) && NothingLost(a, days)
            && Published(q, m, days, Production) == 1.0
            && Published(q, a, days, Production) == 1.0 && Published(q, b, days, Production) == 1.0
  {
    hide Due, Published, Energy, RoundFixed;
    var cp := CounterPoint("AT", Producer, 0, None, None, "");
    var q := Setup(Period(Monthly, 1, 1), 0, 1, map["AT" := cp]);
    var m := MeterReport("AT", 0, DAY, None);
    var a, b := m.(until := 0), m.(from := DAY);
    var g, h := [CalcLine(0, [], [0.5, 0.0])], [CalcLine(DAY, [], [0.5, 0.0])];
    var days: seq<Group> := [g, h];
    HalfOf(cp, g);
    HalfOf(cp, h);
    EnergyAdds(cp, g, h, Production);
    CountedOfTwo(m, g, h);
    CountedOfTwo(a, g, h);
    CountedOfTwo(b, g, h);
    assert g + [] == g && [] + h == h;
    DueIsEnergy(q, m, days, Production);
    DueIsEnergy(q, a, days, Production);
    DueIsEnergy(q, b, days, Production);
    PublishedIsRounded(q, m, days, Production);
    PublishedIsRounded(q, a, days, Production);
    PublishedIsRounded(q, b, days, Production);
    WholeIsMicro(1);
    RoundIsDetermined(0.5, 1.0);
    RoundKeepsMicro(1.0);
  }

  lemma {:induction false} CountedOfTwo(m: MeterReport, g: Group, h: Group)
    ensures CountedLines(m, [g, h])
            == (if Counted(m, Stamp(g)) then g else []) + (if Counted(m, Stamp(h)) then h else [])
  {
    hide Counted, Stamp;
    var days := [g, h];
    assert days[..1] == [g] && days[..1][..0] == [];
    assert CountedLines(m, days[..1]) == [] + if Counted(m, Stamp(g)) then g else [];
  }

  lemma {:induction false} HalfOf(cp: CounterPoint, g: Group)
    requires cp.direction == Producer && cp.sourceIdx == 0 && |g| == 1 && g[0].p == [0.5, 0.0]
    ensures Energy(cp, g, Production) == 0.5
  {
    assert g[..0] == [];
    assert ProducerCell(g, 0) == ProducerCell(g[..0], 0) + At(g[0].p, 0);
  }
}
