/**
 The legacy report: intermediate reports that are flushed at day or month boundaries and
 share their buffers with the accumulator they were taken from, and the summary over them.
 */
module LegacyReport {
  import opened Calendar
  import opened Periods
  import opened Rounding
  import opened Matrices
  import opened CalcResultsModel

  // The number an intermediate report is named by: the day of a monthly report, else the month.
  function PeriodNumber(mode: PeriodMode, ts: int): (n: int)
    ensures 1 <= n <= 31
  {
    if mode == Monthly then DayOfMonth(ts) else MonthOf(ts)
  }

  // Inside the period that is the place of the day in its month, or the number of the month.
  lemma {:induction false} NumberByCalendar(p: Period, ts: int)
    requires p.Includes(ts)
    ensures PeriodNumber(p.mode, ts) == if p.mode == Monthly then DayOf(ts) - DayOf(p.Start()) + 1 else MonthOf(ts)
  {
    hide Leap, DaysBeforeMonth, DaysBeforeYear, YearOf, MonthOf, DayOfMonth, Period.Start, Period.Stop,
         Period.FirstYear, Period.FirstMonth;
    if p.mode == Monthly {
      IncludesMonths(p, ts);
      InMonth(ts);
      PeriodDays(p);
      MonthStart(p);
    }
  }

  lemma {:induction false} MonthStart(p: Period)
    ensures DayOf(p.Start()) == DaysBeforeYear(p.FirstYear()) + DaysBeforeMonth(Leap(p.FirstYear()), p.FirstMonth())
  {
    hide Leap, DaysBeforeMonth, DaysBeforeYear, Period.Start, Period.FirstYear, Period.FirstMonth;
    PeriodDays(p);
  }

  datatype Decision = Decision(flush: bool, next: int)

  // The boundary closures, with the captured day or month counter made explicit (0: no line yet).
  function Decide(mode: PeriodMode, counter: int, ts: int): Decision {
    var n := PeriodNumber(mode, ts);
    if counter == 0 then Decision(false, n)
    else
      var should := n > counter;
      if mode == Halfyear || mode == Quarterly then Decision(should, if should then counter + 1 else counter)
      else Decision(should, n)
  }

  // The lines of the closed reports, those of the open one, and the counter.
  datatype Progress = Progress(closed: seq<Group>, open: Group, counter: int)

  function Advance(mode: PeriodMode, s: Progress, l: CalcLine): Progress {
    var d := Decide(mode, s.counter, l.ts);
    Progress(if d.flush then s.closed + [s.open] else s.closed, if d.flush then [l] else s.open + [l], d.next)
  }

  function Split(mode: PeriodMode, lines: Group): Progress {
    if lines == [] then Progress([], [], 0) else Advance(mode, Split(mode, lines[..|lines| - 1]), lines[|lines| - 1])
  }

  // The groups of lines that are published together.
  function GroupsOf(mode: PeriodMode, lines: Group): seq<Group> {
    if lines == [] then [] else Split(mode, lines).closed + [Split(mode, lines).open]
  }

  // A published report holds references to the buffers of the accumulator.
  datatype EnergyReport = EnergyReport(number: int, consumed: array<real>, allotted: array<real>, produced: array<real>,
                                       distributed: array<real>, shared: array<real>, totalProduced: real)
  {
    ghost function Arrays(): set<object> {
      {consumed, allotted, produced, distributed, shared}
    }

    ghost function View(): Totals
      reads Arrays()
    {
      Totals(consumed[..], allotted[..], shared[..], produced[..], distributed[..], totalProduced)
    }

    // The report shows the rounded totals of a group of lines and the period of its last line.
    ghost predicate ShowsGroup(mode: PeriodMode, consumers: nat, producers: nat, g: Group)
      reads Arrays()
    {
      g != [] && number == PeriodNumber(mode, g[|g| - 1].ts) && View() == Rounded(TotalsOf(consumers, producers, g))
    }
  }

  // What the published reports of some groups of lines add up to.
  function SumOfReports(consumers: nat, producers: nat, groups: seq<Group>): Totals {
    if groups == [] then NoTotals(consumers, producers)
    else Plus(SumOfReports(consumers, producers, groups[..|groups| - 1]),
              Rounded(TotalsOf(consumers, producers, groups[|groups| - 1])))
  }

  lemma {:induction false} SumOfReportsSnoc(consumers: nat, producers: nat, groups: seq<Group>, g: Group)
    ensures SumOfReports(consumers, producers, groups + [g])
            == Plus(SumOfReports(consumers, producers, groups), Rounded(TotalsOf(consumers, producers, g)))
  {
    assert (groups + [g])[..|groups|] == groups;
  }

  lemma {:induction false} ReportShows(r: EnergyReport, mode: PeriodMode, consumers: nat, producers: nat, g: Group)
    requires g != [] && r.number == PeriodNumber(mode, g[|g| - 1].ts)
             && r.View() == Rounded(TotalsOf(consumers, producers, g))
    ensures r.ShowsGroup(mode, consumers, producers, g)
  {
  }

  class LegacyReportConsumer {
    const mode: PeriodMode
    const consumers: nat
    const producers: nat
    var counter: int
    var results: CalcResults
    var intermediate: CalcResults
    var reports: seq<EnergyReport>
    var lastTs: int

    // The lines of the published reports and of the open one, and the published buffers.
    ghost var closed: seq<Group>
    ghost var open: Group
    ghost var published: set<object>

    constructor (mode: PeriodMode, consumers: nat, producers: nat)
      ensures Valid() && Counted() && closed == [] && open == []
      ensures this.mode == mode && this.consumers == consumers && this.producers == producers
      ensures fresh(Footprint())
    {
      hide NoTotals, CalcResults.Valid, CalcResults.View, EnergyReport.ShowsGroup, PeriodNumber;
      this.mode, this.consumers, this.producers := mode, consumers, producers;
      counter, reports, lastTs := 0, [], 0;
      var r := new CalcResults(consumers, producers);
      var i := new CalcResults(consumers, producers);
      results, intermediate := r, i;
      closed, open, published := [], [], {};
    }

    // The published reports still show exactly what they were published with, the running
    // summary is the sum of them, and it shares no buffer with them.
    ghost predicate Published()
      reads this, results, results.Repr, published
    {
      && results.Valid() && results.Repr !! published && this !in results.Repr
      && |reports| == |closed|
      && (forall i :: 0 <= i < |reports| ==>
            reports[i].Arrays() <= published && reports[i].ShowsGroup(mode, consumers, producers, closed[i]))
      && results.View() == SumOfReports(consumers, producers, closed)
    }

    ghost predicate Valid()
      reads this, results, results.Repr, intermediate, intermediate.Repr, published
    {
      && Published()
      && intermediate.Valid() && intermediate.Repr !! published && intermediate.Repr !! results.Repr
         && this !in intermediate.Repr
      && intermediate.View() == TotalsOf(consumers, producers, open)
      && (open != [] ==> lastTs == open[|open| - 1].ts)
    }

    // The counter is 0 until the first line.
    ghost predicate Counted()
      reads this
    {
      (open == [] <==> counter == 0) && 0 <= counter
    }

    ghost function State(): Progress
      reads this
    {
      Progress(closed, open, counter)
    }

    // The accumulator is rounded in place, and its buffers become the report's.
    method RoundedReport() returns (report: EnergyReport)
      requires Valid() && open != []
      modifies intermediate.Repr
      ensures Published() && intermediate.Valid() && intermediate.Repr == old(intermediate.Repr)
      ensures intermediate.View() == Rounded(TotalsOf(consumers, producers, open))
      ensures report.ShowsGroup(mode, consumers, producers, open) && report.Arrays() <= intermediate.Repr
    {
      hide Plus, Rounded, TotalsOf, PeriodNumber, SumOfReports, EnergyReport.ShowsGroup, CalcResults.Valid,
           CalcResults.View;
      intermediate.RoundToFixed();
      intermediate.BuffersOwned();
      report := EnergyReport(PeriodNumber(mode, lastTs), intermediate.rCons.elements, intermediate.rAlloc.elements,
                             intermediate.rProd.elements, intermediate.rDist.elements, intermediate.rShar.elements,
                             intermediate.pSum);
      assert report.View() == intermediate.View();
      ReportShows(report, mode, consumers, producers, open);
    }

    // Publishes the open report, and adds its rounded values to the running summary.
    method Publish()
      requires Valid() && open != []
      modifies this, results.Repr, intermediate.Repr
      ensures Published()
      ensures results == old(results) && fresh(results.Repr - old(results.Repr))
      ensures closed == old(closed) + [old(open)] && open == old(open) && counter == old(counter)
              && lastTs == old(lastTs)
      ensures published <= old(published) + old(intermediate.Repr)
      ensures old(reports) <= reports
    {
      hide Plus, Rounded, TotalsOf, PeriodNumber, SumOfReports, EnergyReport.ShowsGroup, CalcResults.Valid,
           CalcResults.View;
      var report := RoundedReport();
      results.SumIntermediate(intermediate);
      SumOfReportsSnoc(consumers, producers, closed, open);
      reports := reports + [report];
      closed := closed + [open];
      published := published + report.Arrays();
    }

    method StartNext()
      requires Valid() && open != []
      modifies this, results.Repr, intermediate.Repr
      ensures Valid() && counter == old(counter)
      ensures results == old(results) && fresh(results.Repr - old(results.Repr)) && fresh(intermediate.Repr)
      ensures published <= old(published) + old(intermediate.Repr)
      ensures closed == old(closed) + [old(open)] && open == []
      ensures old(reports) <= reports
    {
      hide NoTotals, PeriodNumber, SumOfReports, TotalsOf, EnergyReport.ShowsGroup, CalcResults.View, CalcResults.Valid;
      Publish();
      intermediate := new CalcResults(consumers, producers);
      open := [];
      NoLinesNoTotals(consumers, producers);
    }

    method Append(ts: int, c: array<real>, p: array<real>, next: int)
      requires Valid() && {c, p} !! results.Repr && {c, p} !! intermediate.Repr && {c, p} !! published
      modifies this, intermediate.Repr
      ensures Valid() && counter == next && closed == old(closed) && reports == old(reports)
              && published == old(published)
      ensures results == old(results) && results.Repr == old(results.Repr)
      ensures intermediate == old(intermediate) && fresh(intermediate.Repr - old(intermediate.Repr))
      ensures open == old(open) + [CalcLine(ts, c[..], p[..])]
    {
      hide WithLine, PeriodNumber, SumOfReports, TotalsOf, Rounded, EnergyReport.ShowsGroup, CalcResults.Valid,
           CalcResults.View;
      ghost var l := CalcLine(ts, c[..], p[..]);
      intermediate.AppendResults(c, p);
      TotalsOfSnoc(consumers, producers, open, l);
      open := open + [l];
      lastTs, counter := ts, next;
    }

    // Every buffer the consumer has ever written to.
    ghost function Footprint(): set<object>
      reads this, results, intermediate
    {
      results.Repr + intermediate.Repr + published
    }

    // All lines, one after the other.
    method Feed(lines: seq<LineRef>, ghost all: Group)
      requires Valid() && Counted() && closed == [] && open == []
      requires |all| == |lines|
      requires forall i :: 0 <= i < |lines| ==> all[i] == CalcLine(lines[i].ts, lines[i].c[..], lines[i].p[..])
      requires forall i :: 0 <= i < |lines| ==> lines[i].c !in Footprint() && lines[i].p !in Footprint()
      modifies this, results.Repr, intermediate.Repr
      ensures Valid() && fresh(Footprint() - old(Footprint()))
      ensures State() == Split(mode, all) && (lines != [] ==> open != [])
    {
      NothingSplit(mode);
      hide PeriodNumber, Decide, Valid, Split, Advance;
      assert all[..0] == [];
      for n := 0 to |lines|
        invariant Valid() && Counted()
        invariant fresh(results.Repr - old(results.Repr)) && fresh(intermediate.Repr - old(intermediate.Repr))
        invariant fresh(published - old(published) - old(intermediate.Repr))
        invariant State() == Split(mode, all[..n]) && (n == 0 ==> open == []) && (0 < n ==> open != [])
      {
        SplitNext(mode, all, n);
        HandleLine(lines[n].ts, lines[n].c, lines[n].p);
      }
      assert all[..|lines|] == all;
    }

    // HandleEnd and the final summary: the last report is published, and the summary shows the
    // running sum, rounded once more.
    method Finish() returns (summary: EnergyReport)
      requires Valid() && open != []
      modifies this, results.Repr, intermediate.Repr
      ensures closed == old(closed) + [old(open)] && counter == old(counter)
      ensures |reports| == |closed| && old(reports) <= reports
      ensures forall i :: 0 <= i < |reports| ==> reports[i].ShowsGroup(mode, consumers, producers, closed[i])
      ensures summary.View() == SumOfReports(consumers, producers, closed)
    {
      hide PeriodNumber, SumOfReports, TotalsOf, Rounded;
      Publish();
      SummaryIsExact(consumers, producers, closed);
      results.RoundToFixed();
      summary := EnergyReport(0, results.rCons.elements, results.rAlloc.elements, results.rProd.elements,
                              results.rDist.elements, results.rShar.elements, results.pSum);
    }

    method HandleLine(ts: int, c: array<real>, p: array<real>)
      requires Valid() && Counted() && {c, p} !! results.Repr && {c, p} !! intermediate.Repr && {c, p} !! published
      modifies this, results.Repr, intermediate.Repr
      ensures Valid() && Counted()
      ensures fresh(results.Repr - old(results.Repr)) && fresh(intermediate.Repr - old(intermediate.Repr))
      ensures published <= old(published) + old(intermediate.Repr)
      ensures State() == Advance(mode, old(State()), CalcLine(ts, c[..], p[..])) && open != []
      ensures old(reports) <= reports
    {
      hide Decide, Valid, PeriodNumber;
      var d := Decide(mode, counter, ts);
      DecideFacts(mode, counter, ts);
      if d.flush {
        StartNext();
      }
      Append(ts, c, p, d.next);
    }
  }

  // Lines of a gap-filled stream inside the queried period.
  ghost predicate InStream(p: Period, g: Group) {
    SmallSteps(g) && Within(p, g)
  }

  // Lines of a gap-filled stream as the inclusive query reads them.
  ghost predicate InQuery(p: Period, g: Group) {
    SmallSteps(g) && forall i :: 0 <= i < |g| ==> p.InRange(g[i].ts)
  }

  // The last line is the first slot after the period.
  predicate HasEndSlot(p: Period, g: Group) {
    g != [] && g[|g| - 1].ts == p.Stop()
  }

  // The number of that slot does not rise: every month starts with day 1, and January follows
  // the second half-year and the fourth quarter.
  predicate WrapsAround(p: Period) {
    p.mode == Monthly || p.StopMonth() == 13
  }

  // The groups partition the lines into the runs of one period number each.
  ghost predicate Partitions(mode: PeriodMode, groups: seq<Group>, lines: Group) {
    && Flatten(groups) == lines
    && (forall i :: 0 <= i < |groups| ==> IsRun(mode, groups[i]))
    && (forall i, j :: 0 <= i < j < |groups| ==> RunNumber(mode, groups[i]) < RunNumber(mode, groups[j]))
  }

  ghost predicate Within(p: Period, g: Group) {
    forall k :: 0 <= k < |g| ==> p.Includes(g[k].ts)
  }

  // Every report is about a part of the queried period.
  ghost predicate AllWithin(p: Period, groups: seq<Group>) {
    forall i :: 0 <= i < |groups| ==> Within(p, groups[i])
  }

  datatype EegEnergy = EegEnergy(report: EnergyReport, results: seq<EnergyReport>)
  {
    // What is published over some lines: one report per group, and their sum.
    ghost predicate ShowsLines(mode: PeriodMode, consumers: nat, producers: nat, lines: Group)
      reads report.Arrays(), set i, o | 0 <= i < |results| && o in results[i].Arrays() :: o
    {
      var groups := GroupsOf(mode, lines);
      && |results| == |groups|
      && (forall i :: 0 <= i < |results| ==> results[i].ShowsGroup(mode, consumers, producers, groups[i]))
      && report.View() == SumOfReports(consumers, producers, groups)
    }
  }

  // The legacy report over a delivered stream.
  method RunLegacy(p: Period, consumers: nat, producers: nat, lines: seq<LineRef>) returns (r: EegEnergy)
    requires lines != []
    ensures Flatten(GroupsOf(p.mode, Contents(lines))) == Contents(lines)
    ensures r.ShowsLines(p.mode, consumers, producers, Contents(lines))
    ensures InQuery(p, Contents(lines)) ==>
              (Partitions(p.mode, GroupsOf(p.mode, Contents(lines)), Contents(lines))
               <==> !(HasEndSlot(p, Contents(lines)) && WrapsAround(p) && 1 < |lines|))
  {
    hide PeriodNumber, InQuery, Partitions, SumOfReports, Rounded, TotalsOf, Contents, Flatten, Split, HasEndSlot,
         WrapsAround, CalcResults.Valid, CalcResults.View, EnergyReport.ShowsGroup, EnergyReport.View, GroupsOf;
    ghost var all := Contents(lines);
    SplitKeepsLines(p.mode, all);
    ClosedAndOpen(p.mode, all);
    DeliveredRuns(p, all);
    var consumer := new LegacyReportConsumer(p.mode, consumers, producers);
    consumer.Feed(lines, all);
    var summary := consumer.Finish();
    r := EegEnergy(summary, consumer.reports);
    assert Contents(lines) == all && consumer.closed == GroupsOf(p.mode, all);
  }

  lemma {:induction false} DeliveredRuns(p: Period, lines: Group)
    requires lines != []
    ensures InQuery(p, lines) ==>
              (Partitions(p.mode, GroupsOf(p.mode, lines), lines)
               <==> !(HasEndSlot(p, lines) && WrapsAround(p) && 1 < |lines|))
  {
    hide *;
    if InQuery(p, lines) {
      PartitionIff(p, lines);
    }
  }

  lemma {:induction false} ClosedAndOpen(mode: PeriodMode, lines: Group)
    requires lines != []
    ensures GroupsOf(mode, lines) == Split(mode, lines).closed + [Split(mode, lines).open]
  {
  }

  lemma {:induction false} DecideFacts(mode: PeriodMode, counter: int, ts: int)
    ensures Decide(mode, counter, ts).flush ==> counter != 0
    ensures 0 <= counter ==> 0 < Decide(mode, counter, ts).next
  {
  }

  // Runs of lines with one period number each, in increasing order; `counter` is the number of
  // the last run, which is still open.
  ghost predicate AreRuns(mode: PeriodMode, closed: seq<Group>, open: Group, counter: int) {
    && (open == [] ==> closed == [])
    && (forall k :: 0 <= k < |open| ==> PeriodNumber(mode, open[k].ts) == counter)
    && (forall i :: 0 <= i < |closed| ==> IsRun(mode, closed[i]) && RunNumber(mode, closed[i]) < counter)
    && (forall i, j :: 0 <= i < j < |closed| ==> RunNumber(mode, closed[i]) < RunNumber(mode, closed[j]))
  }

  ghost predicate IsRun(mode: PeriodMode, g: Group) {
    g != [] && forall k :: 0 <= k < |g| ==> PeriodNumber(mode, g[k].ts) == RunNumber(mode, g)
  }

  function RunNumber(mode: PeriodMode, g: Group): int {
    if g == [] then 0 else PeriodNumber(mode, g[0].ts)
  }

  // ---- The groups of a stream. ----

  lemma {:induction false} NothingSplit(mode: PeriodMode)
    ensures Split(mode, []) == Progress([], [], 0)
  {
  }

  lemma {:induction false} SplitNext(mode: PeriodMode, all: Group, n: nat)
    requires n < |all|
    ensures Split(mode, all[..n + 1]) == Advance(mode, Split(mode, all[..n]), all[n])
  {
    assert all[..n + 1][..n] == all[..n];
  }

  // The groups hold the lines, one after the other.
  lemma {:induction false} SplitKeepsLines(mode: PeriodMode, lines: Group)
    ensures var s := Split(mode, lines);
            && Flatten(s.closed) + s.open == lines && Flatten(GroupsOf(mode, lines)) == lines
            && (lines == [] <==> s.open == []) && (lines == [] <==> s.counter == 0) && 0 <= s.counter
  {
    hide Decide, Flatten;
    NoLines();
    if lines != [] {
      var n := |lines| - 1;
      var s := Split(mode, lines[..n]);
      SplitKeepsLines(mode, lines[..n]);
      DecideFacts(mode, s.counter, lines[n].ts);
      FlattenSnoc(s.closed, s.open);
      FlattenSnoc(Split(mode, lines).closed, Split(mode, lines).open);
      assert lines == lines[..n] + [lines[n]];
    }
  }

  lemma {:induction false} NoLines()
    ensures Flatten([]) == []
  {
  }

  // Between two lines of a gap-filled stream inside the period, the number stays or rises, and
  // a month rises by exactly one.
  lemma {:induction false} NumberStep(p: Period, a: int, b: int)
    requires p.Includes(a) && p.Includes(b)
    requires a < b < a + Slots(2)
    ensures PeriodNumber(p.mode, a) <= PeriodNumber(p.mode, b)
    ensures p.mode != Monthly ==> PeriodNumber(p.mode, b) <= PeriodNumber(p.mode, a) + 1
  {
    hide YearOf, MonthOf, DayOfMonth, Period.Includes, Period.FirstMonth, Period.FirstYear;
    IncludesMonths(p, a);
    IncludesMonths(p, b);
    MonthStep(a, b);
    if p.mode == Monthly {
      SameMonthDays(a, b);
    }
  }

  // Inside the period the closures follow the stream: the counter is always the number of the
  // latest line (also where it is only ever bumped by one), and a report is closed exactly when
  // the number changes.
  lemma {:induction false} SwitchFollowsStream(p: Period, s: Progress, l: CalcLine)
    requires AreRuns(p.mode, s.closed, s.open, s.counter)
    requires p.Includes(l.ts) && (s.open == [] <==> s.counter == 0)
    requires s.open != [] ==> p.Includes(s.open[|s.open| - 1].ts)
                              && s.open[|s.open| - 1].ts < l.ts < s.open[|s.open| - 1].ts + Slots(2)
    ensures var d, t := Decide(p.mode, s.counter, l.ts), Advance(p.mode, s, l);
            && d.next == PeriodNumber(p.mode, l.ts)
            && (d.flush <==> s.open != []
                             && PeriodNumber(p.mode, s.open[|s.open| - 1].ts) != PeriodNumber(p.mode, l.ts))
            && AreRuns(p.mode, t.closed, t.open, t.counter)
  {
    hide PeriodNumber, Period.Includes;
    if s.open != [] {
      NumberStep(p, s.open[|s.open| - 1].ts, l.ts);
      assert IsRun(p.mode, s.open) && RunNumber(p.mode, s.open) == s.counter;
    }
  }

  // Over every stream inside the period the groups are the runs of one number each.
  lemma {:induction false} StreamIsRuns(p: Period, lines: Group)
    requires InStream(p, lines)
    ensures var s := Split(p.mode, lines); AreRuns(p.mode, s.closed, s.open, s.counter)
  {
    if lines != [] {
      FewerLines(p, lines);
      hide AreRuns, Split, InStream;
      StreamIsRuns(p, lines[..|lines| - 1]);
      NextLineIsRuns(p, lines);
    }
  }

  lemma {:induction false} NextLineIsRuns(p: Period, lines: Group)
    requires InStream(p, lines) && lines != []
    requires var s := Split(p.mode, lines[..|lines| - 1]); AreRuns(p.mode, s.closed, s.open, s.counter)
    ensures var s := Split(p.mode, lines); AreRuns(p.mode, s.closed, s.open, s.counter)
  {
    hide AreRuns, Advance, Split, Period.Includes, Flatten, PeriodNumber, GroupsOf, InStream, Decide;
    var n := |lines| - 1;
    FewerLines(p, lines);
    SplitKeepsLines(p.mode, lines[..n]);
    if 0 < n {
      OpenEndsLines(p.mode, lines[..n]);
    }
    SwitchFollowsStream(p, Split(p.mode, lines[..n]), lines[n]);
    SplitNext(p.mode, lines, n);
    assert lines[..n + 1] == lines;
  }

  lemma {:induction false} FewerLines(p: Period, lines: Group)
    requires InStream(p, lines) && lines != []
    ensures var n := |lines| - 1;
            && InStream(p, lines[..n]) && p.Includes(lines[n].ts)
            && (0 < n ==> p.Includes(lines[n - 1].ts) && lines[n - 1].ts < lines[n].ts < lines[n - 1].ts + Slots(2))
  {
    hide Period.Includes;
  }

  lemma {:induction false} OpenEndsLines(mode: PeriodMode, lines: Group)
    requires lines != []
    ensures var open := Split(mode, lines).open; open != [] && open[|open| - 1] == lines[|lines| - 1]
  {
    hide Decide;
  }

  // ---- When the partition holds. ----

  // A query reads the period and at most the one slot after it.
  lemma {:induction false} OnlyLastIsOutside(p: Period, lines: Group)
    requires InQuery(p, lines) && lines != []
    ensures InStream(p, lines[..|lines| - 1])
    ensures !HasEndSlot(p, lines) ==> InStream(p, lines)
    ensures HasEndSlot(p, lines) ==> p.mode != Yearly && !p.Includes(lines[|lines| - 1].ts)
  {
    hide DayNumber, Period.Start, Period.Stop, Period.FirstYear, Period.FirstMonth;
    PeriodDays(p);
    var n := |lines| - 1;
    forall i | 0 <= i < n ensures p.Includes(lines[i].ts) {
      assert lines[i].ts < lines[i + 1].ts;
    }
  }

  // The number of the end slot against that of the line before it.
  lemma {:induction false} EndSlotNumber(p: Period, ts: int)
    requires p.Includes(ts) && p.Stop() < ts + Slots(2)
    ensures WrapsAround(p) ==> PeriodNumber(p.mode, p.Stop()) == 1 < PeriodNumber(p.mode, ts)
    ensures !WrapsAround(p) ==> PeriodNumber(p.mode, ts) < PeriodNumber(p.mode, p.Stop()) == p.StopMonth()
  {
    hide DayOfMonth, MonthOf, YearOf, Period.Start, Period.Stop, Period.FirstYear;
    LastDayIsLate(p, ts);
    StopIsFirst(p);
  }

  // The report of the end slot. When its number does not rise, the slot joins the report of the
  // last day or month, and that report is then named 1; otherwise it gets a report of its own,
  // named by the month after the period.
  lemma {:induction false} EndSlotReport(p: Period, lines: Group)
    requires InQuery(p, lines) && HasEndSlot(p, lines) && 1 < |lines|
    ensures var n := |lines| - 1;
            var before, all := GroupsOf(p.mode, lines[..n]), GroupsOf(p.mode, lines);
            && before != [] && Partitions(p.mode, before, lines[..n])
            && var last := before[|before| - 1];
               if WrapsAround(p) then
                 && all == before[..|before| - 1] + [last + [lines[n]]]
                 && PeriodNumber(p.mode, lines[n].ts) == 1 < RunNumber(p.mode, last)
               else
                 && all == before + [[lines[n]]]
                 && RunNumber(p.mode, last) < PeriodNumber(p.mode, lines[n].ts) == p.StopMonth()
  {
    hide AreRuns, PeriodNumber, WrapsAround, Flatten, Split, Period.Includes, Period.Stop, Period.InRange, IsRun,
         Partitions;
    var n := |lines| - 1;
    var s, l := Split(p.mode, lines[..n]), lines[n];
    SplitNext(p.mode, lines, n);
    assert lines[..n + 1] == lines;
    OnlyLastIsOutside(p, lines);
    StreamIsRuns(p, lines[..n]);
    SplitKeepsLines(p.mode, lines[..n]);
    RunsPartition(p.mode, s);
    OpenEndsLines(p.mode, lines[..n]);
    EndSlotNumber(p, lines[n - 1].ts);
    OpenNumber(p.mode, s);
  }

  lemma {:induction false} RunsPartition(mode: PeriodMode, s: Progress)
    requires s.open != [] && AreRuns(mode, s.closed, s.open, s.counter)
    ensures Partitions(mode, s.closed + [s.open], Flatten(s.closed + [s.open]))
  {
    hide PeriodNumber, Flatten;
  }

  lemma {:induction false} OpenNumber(mode: PeriodMode, s: Progress)
    requires s.open != [] && AreRuns(mode, s.closed, s.open, s.counter)
    ensures RunNumber(mode, s.open) == s.counter == PeriodNumber(mode, s.open[|s.open| - 1].ts)
  {
  }

  // A group with lines of two numbers is no run.
  lemma {:induction false} MixedIsNoRun(mode: PeriodMode, g: Group, l: CalcLine)
    requires g != [] && PeriodNumber(mode, l.ts) != RunNumber(mode, g)
    ensures !IsRun(mode, g + [l])
  {
    assert (g + [l])[|g|] == l && (g + [l])[0] == g[0];
  }

  lemma {:induction false} OneMoreRun(mode: PeriodMode, groups: seq<Group>, lines: Group, l: CalcLine)
    requires Partitions(mode, groups, lines) && groups != []
    requires RunNumber(mode, groups[|groups| - 1]) < PeriodNumber(mode, l.ts)
    ensures Partitions(mode, groups + [[l]], lines + [l])
  {
    hide PeriodNumber, Flatten;
    FlattenSnoc(groups, [l]);
    assert IsRun(mode, [l]) && RunNumber(mode, [l]) == PeriodNumber(mode, l.ts);
  }

  // For every stream a query reads: the reports are the runs of the stream exactly when no slot
  // after the period has joined the last of them.
  lemma {:induction false} PartitionIff(p: Period, lines: Group)
    requires InQuery(p, lines) && lines != []
    ensures Partitions(p.mode, GroupsOf(p.mode, lines), lines)
            <==> !(HasEndSlot(p, lines) && WrapsAround(p) && 1 < |lines|)
  {
    hide AreRuns, PeriodNumber, WrapsAround, Flatten, InQuery, HasEndSlot, Period.Includes, IsRun, RunNumber,
         Partitions, Split;
    var n := |lines| - 1;
    OnlyLastIsOutside(p, lines);
    SplitKeepsLines(p.mode, lines);
    if !HasEndSlot(p, lines) {
      StreamIsRuns(p, lines);
      RunsPartition(p.mode, Split(p.mode, lines));
    } else if n == 0 {
      OneLine(p.mode, lines);
    } else {
      EndSlotReport(p, lines);
      var before := GroupsOf(p.mode, lines[..n]);
      assert lines == lines[..n] + [lines[n]];
      if WrapsAround(p) {
        LastIsNoRun(p.mode, before, lines);
      } else {
        OneMoreRun(p.mode, before, lines[..n], lines[n]);
      }
    }
  }

  lemma {:induction false} FirstLine(mode: PeriodMode, l: CalcLine)
    ensures Advance(mode, Progress([], [], 0), l) == Progress([], [l], PeriodNumber(mode, l.ts))
  {
    assert [] + [l] == [l];
  }

  lemma {:induction false} OneRun(mode: PeriodMode, l: CalcLine)
    ensures Partitions(mode, [[l]], [l])
  {
    hide PeriodNumber, Flatten;
    NoLines();
    FlattenSnoc([], [l]);
    assert [] + [[l]] == [[l]] && [] + [l] == [l];
  }

  lemma {:induction false} OneLine(mode: PeriodMode, lines: Group)
    requires |lines| == 1
    ensures GroupsOf(mode, lines) == [lines] && Partitions(mode, [lines], lines)
  {
    hide PeriodNumber, Split, Advance, Partitions;
    assert lines == [lines[0]] && lines[..0] == [] && lines[..1] == lines;
    NothingSplit(mode);
    SplitNext(mode, lines, 0);
    FirstLine(mode, lines[0]);
    OneRun(mode, lines[0]);
  }

  lemma {:induction false} LastIsNoRun(mode: PeriodMode, before: seq<Group>, lines: Group)
    requires before != [] && lines != []
             && PeriodNumber(mode, lines[|lines| - 1].ts) == 1 < RunNumber(mode, before[|before| - 1])
    ensures !Partitions(mode, before[..|before| - 1] + [before[|before| - 1] + [lines[|lines| - 1]]], lines)
  {
    hide PeriodNumber, Flatten;
    var m := |before| - 1;
    var all := before[..m] + [before[m] + [lines[|lines| - 1]]];
    MixedIsNoRun(mode, before[m], lines[|lines| - 1]);
    assert all[m] == before[m] + [lines[|lines| - 1]];
  }

  // Every line is in a report of its own day or month of the period exactly when the query read
  // no slot after the period.
  lemma {:induction false} OwnReportIff(p: Period, lines: Group)
    requires InQuery(p, lines) && lines != []
    ensures Partitions(p.mode, GroupsOf(p.mode, lines), lines) && AllWithin(p, GroupsOf(p.mode, lines))
            <==> !HasEndSlot(p, lines)
  {
    hide Partitions, GroupsOf, WrapsAround, InQuery, HasEndSlot, Period.Includes, Flatten;
    PartitionIff(p, lines);
    OnlyLastIsOutside(p, lines);
    SplitKeepsLines(p.mode, lines);
    WithinIffLines(p, GroupsOf(p.mode, lines));
  }

  lemma {:induction false} WithinBoth(p: Period, a: Group, b: Group)
    ensures Within(p, a + b) <==> Within(p, a) && Within(p, b)
  {
    hide Period.Includes;
    if Within(p, a + b) {
      forall i | 0 <= i < |a| ensures p.Includes(a[i].ts) {
        assert (a + b)[i] == a[i];
      }
      forall i | 0 <= i < |b| ensures p.Includes(b[i].ts) {
        assert (a + b)[|a| + i] == b[i];
      }
    }
  }

  lemma {:induction false} WithinIffLines(p: Period, groups: seq<Group>)
    ensures AllWithin(p, groups) <==> Within(p, Flatten(groups))
  {
    if groups != [] {
      hide Within;
      var n := |groups| - 1;
      WithinIffLines(p, groups[..n]);
      WithinBoth(p, Flatten(groups[..n]), groups[n]);
      if AllWithin(p, groups[..n]) && Within(p, groups[n]) {
        forall i | 0 <= i < |groups| ensures Within(p, groups[i]) {
          assert i < n ==> groups[..n][i] == groups[i];
        }
      }
    }
  }

  // The second half of year 1, and its last slot before and first slot after the stop: one
  // report, named by January.
  lemma {:induction false} DecemberTakesJanuary(p: Period)
    requires p == Period(Halfyear, 1, 2)
    ensures var a, b := CalcLine(p.Stop() - Slots(1), [], []), CalcLine(p.Stop(), [], []);
            && InQuery(p, [a, b])
            && GroupsOf(p.mode, [a, b]) == [[a, b]]
            && PeriodNumber(p.mode, a.ts) == 12 && PeriodNumber(p.mode, b.ts) == 1
  {
    hide DayOfMonth, MonthOf, YearOf, Period.Start, Period.Stop;
    var a, b := CalcLine(p.Stop() - Slots(1), [], []), CalcLine(p.Stop(), [], []);
    StopIsFirst(p);
    PeriodDays(p);
    assert p.StopMonth() == 13;
    LastDayIsLate(p, a.ts);
    assert [a, b][..1] == [a] && [a][..0] == [];
    assert Split(p.mode, [a]) == Progress([], [a], 12) by {
      assert [] + [a] == [a];
    }
    assert [a] + [b] == [a, b];
  }

  // ---- The summary over the reports. ----

  lemma {:induction false} RoundedCellNear(a: seq<real>, i: nat)
    ensures Near(At(RoundCells(a), i), At(a, i), 1)
  {
  }

  // Row i of the totals lies within n half-units of the unrounded column sums of the lines.
  predicate RowNear(s: Totals, all: Group, i: nat, n: nat) {
    && Near(At(s.cons, i), ConsumerCell(all, i * 3), n)
    && Near(At(s.shar, i), ConsumerCell(all, i * 3 + 1), n)
    && Near(At(s.alloc, i), ConsumerCell(all, i * 3 + 2), n)
    && Near(At(s.prod, i), ProducerCell(all, i * 2), n)
    && Near(At(s.dist, i), ProducerCell(all, i * 2 + 1), n)
  }

  lemma {:induction false} OneMoreReport(consumers: nat, producers: nat, s: Totals, all: Group, g: Group, i: nat,
                                         n: nat)
    requires RowNear(s, all, i, n)
    ensures RowNear(Plus(s, Rounded(TotalsOf(consumers, producers, g))), all + g, i, n + 1)
  {
    hide At, Near, RoundCells, SumCells, TotalsOf;
    var t := TotalsOf(consumers, producers, g);
    AccumulatorIsColumnSums(consumers, producers, g, i);
    NearStep(s.cons, t.cons, ConsumerCell(all, i * 3), n, i);
    NearStep(s.shar, t.shar, ConsumerCell(all, i * 3 + 1), n, i);
    NearStep(s.alloc, t.alloc, ConsumerCell(all, i * 3 + 2), n, i);
    NearStep(s.prod, t.prod, ProducerCell(all, i * 2), n, i);
    NearStep(s.dist, t.dist, ProducerCell(all, i * 2 + 1), n, i);
    GroupCells(all, g, i * 3);
    GroupCells(all, g, i * 3 + 1);
    GroupCells(all, g, i * 3 + 2);
    GroupCells(all, g, i * 2);
    GroupCells(all, g, i * 2 + 1);
  }

  // Every row of the summary lies within half a millionth per report of the unrounded column
  // sums over all lines.
  lemma {:induction false} SummaryIsNear(consumers: nat, producers: nat, groups: seq<Group>, i: nat)
    ensures RowNear(SumOfReports(consumers, producers, groups), Flatten(groups), i, |groups|)
  {
    if groups != [] {
      var m := |groups| - 1;
      SummaryIsNear(consumers, producers, groups[..m], i);
      OneMoreReport(consumers, producers, SumOfReports(consumers, producers, groups[..m]), Flatten(groups[..m]),
                    groups[m], i, m);
    }
  }

  lemma {:induction false} NearStep(s: seq<real>, t: seq<real>, sum: real, m: nat, i: nat)
    requires Near(At(s, i), sum, m)
    ensures Near(At(SumCells(s, RoundCells(t)), i), sum + At(t, i), m + 1)
  {
    hide Near, RoundCells, SumCells, At;
    SumCell(s, RoundCells(t), i);
    RoundedCellNear(t, i);
    NearAdd(At(s, i), sum, m, At(RoundCells(t), i), At(t, i));
  }

  lemma {:induction false} MicroSums(a: seq<real>, b: seq<real>)
    requires AllMicro(a) && AllMicro(b)
    ensures AllMicro(SumCells(a, b))
  {
    WholeIsMicro(0);
    forall i | 0 <= i < |SumCells(a, b)| ensures Micro(SumCells(a, b)[i]) {
      MicroAdd(At(a, i), At(b, i));
    }
  }

  lemma {:induction false} MicroRounds(a: seq<real>)
    requires AllMicro(a)
    ensures RoundCells(a) == a
  {
    forall i | 0 <= i < |a| ensures RoundFixed(a[i]) == a[i] {
      RoundKeepsMicro(a[i]);
    }
  }

  lemma {:induction false} RoundedIsMicro(a: seq<real>)
    ensures AllMicro(RoundCells(a))
  {
  }

  lemma {:induction false} SumOfReportsIsMicro(consumers: nat, producers: nat, groups: seq<Group>)
    ensures var s := SumOfReports(consumers, producers, groups);
            AllMicro(s.cons) && AllMicro(s.alloc) && AllMicro(s.shar) && AllMicro(s.prod) && AllMicro(s.dist)
  {
    if groups == [] {
      WholeIsMicro(0);
    } else {
      hide AllMicro, RoundCells, SumCells, TotalsOf;
      var m := |groups| - 1;
      SumOfReportsIsMicro(consumers, producers, groups[..m]);
      var s, t := SumOfReports(consumers, producers, groups[..m]), TotalsOf(consumers, producers, groups[m]);
      RoundedIsMicro(t.cons);
      RoundedIsMicro(t.alloc);
      RoundedIsMicro(t.shar);
      RoundedIsMicro(t.prod);
      RoundedIsMicro(t.dist);
      MicroSums(s.cons, RoundCells(t.cons));
      MicroSums(s.alloc, RoundCells(t.alloc));
      MicroSums(s.shar, RoundCells(t.shar));
      MicroSums(s.prod, RoundCells(t.prod));
      MicroSums(s.dist, RoundCells(t.dist));
    }
  }

  // The last rounding of the summary changes nothing: it is exactly the sum of the reports.
  lemma {:induction false} SummaryIsExact(consumers: nat, producers: nat, groups: seq<Group>)
    ensures Rounded(SumOfReports(consumers, producers, groups)) == SumOfReports(consumers, producers, groups)
  {
    hide AllMicro, RoundCells, SumOfReports;
    var s := SumOfReports(consumers, producers, groups);
    SumOfReportsIsMicro(consumers, producers, groups);
    MicroRounds(s.cons);
    MicroRounds(s.alloc);
    MicroRounds(s.shar);
    MicroRounds(s.prod);
    MicroRounds(s.dist);
  }
}
