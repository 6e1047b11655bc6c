/**
 The participant report of a request, from the entries as handed in to the published ones.
 */
module ParticipantReport {
  import opened CalcResultsModel
  import opened Outcomes
  import opened Participants
  import opened ParticipantTheorems
  import opened Rounding

  // An entry without a report gets an empty one.
  function Ensured(m: MeterReport): MeterReport {
    if m.report == None then m.(report := Some(EMPTY)) else m
  }

  function AllEnsured(ms: seq<MeterReport>): (r: seq<MeterReport>)
    ensures |r| == |ms| && forall i :: 0 <= i < |ms| ==> r[i] == Ensured(ms[i])
  {
    seq(|ms|, i requires 0 <= i < |ms| => Ensured(ms[i]))
  }

  // Fills in the missing reports, and only those.
  method EnsureMeterReports(ms: seq<MeterReport>) returns (r: seq<MeterReport>)
    ensures r == AllEnsured(ms)
  {
    r := ms;
    for i := 0 to |ms|
      invariant |r| == |ms|
      invariant forall j :: 0 <= j < |ms| ==> r[j] == if j < i then Ensured(ms[j]) else ms[j]
    {
      if r[i].report == None {
        r := r[i := r[i].(report := Some(EMPTY))];
      }
    }
  }

  // The published consumption and production of all entries.
  function ConsumptionSum(ms: seq<MeterReport>): real {
    if ms == [] then 0.0 else ConsumptionSum(ms[..|ms| - 1]) + ReportOf(ms[|ms| - 1]).summary.consumption
  }

  function ProductionSum(ms: seq<MeterReport>): real {
    if ms == [] then 0.0 else ProductionSum(ms[..|ms| - 1]) + ReportOf(ms[|ms| - 1]).summary.production
  }

  lemma {:induction false} OverallByField(ms: seq<MeterReport>)
    ensures Overall(ms, Consumption) == ConsumptionSum(ms) && Overall(ms, Production) == ProductionSum(ms)
  {
    if ms != [] {
      OverallByField(ms[..|ms| - 1]);
    }
  }

  // The participant report over a delivered stream; an empty stream leaves empty reports.
  method EnergyReportV2(q: Setup, ms: seq<MeterReport>, consumption: real, production: real, lines: seq<LineRef>)
    returns (meters: seq<MeterReport>, totalConsumption: real, totalProduction: real, ghost days: seq<Group>)
    requires q.Valid()
    ensures Flatten(days) == Contents(lines) && (lines == [] ==> days == [])
    ensures meters == if lines == [] then AllEnsured(ms) else AllFinished(AllAfter(q, AllEnsured(ms), days))
    ensures |meters| == |ms|
    ensures lines == [] ==> meters == AllEnsured(ms) && totalConsumption == consumption && totalProduction == production
    ensures totalConsumption == consumption + AllDue(q, AllEnsured(ms), days, Consumption)
    ensures totalProduction == production + AllDue(q, AllEnsured(ms), days, Production)
    ensures SmallSteps(Contents(lines)) ==> AreDays(days)
    ensures AllBalanced(q, AllEnsured(ms)) ==>
              && (AllSixDecimal(AllEnsured(ms), Consumption) ==>
                    totalConsumption - consumption == ConsumptionSum(meters) - ConsumptionSum(AllEnsured(ms)))
              && Near(ProductionSum(meters) - ProductionSum(AllEnsured(ms)), totalProduction - production, |ms|)
    ensures NoReports(ms) && consumption == 0.0 ==> totalConsumption == ConsumptionSum(meters)
  {
    hide AllAfter, AllFinished, AllDue, SmallSteps, AreDays, Contents, Flatten, Setup.Valid, Overall, ConsumptionSum,
         ProductionSum, AllEnsured,
         AllBalanced,
         AllSixDecimal, Near, NoReports, ParticipantConsumer.Valid, Ensured;
    meters := EnsureMeterReports(ms);
    totalConsumption, totalProduction, days := consumption, production, [];
    NoDays();
    NothingDue(q, meters, Consumption);
    NothingDue(q, meters, Production);
    if lines != [] {
      var consumer := new ParticipantConsumer(q, meters, consumption, production);
      consumer.Feed(lines, Contents(lines));
      consumer.HandleEnd();
      OverallIsDue(q, meters, consumer.closed, Consumption);
      OverallIsDue(q, meters, consumer.closed, Production);
      meters, totalConsumption, totalProduction := consumer.meters, consumer.totalConsumption, consumer.totalProduction;
      days := consumer.closed;
    }
    ReportTotals(q, AllEnsured(ms), days, meters);
    EmptyReports(q, ms);
    OverallByField(meters);
    OverallByField(AllEnsured(ms));
  }

  // The totals move by what the published summaries move.
  lemma {:induction false} ReportTotals(q: Setup, es: seq<MeterReport>, days: seq<Group>, meters: seq<MeterReport>)
    requires meters == AllFinished(AllAfter(q, es, days)) || (meters == es && days == [])
    ensures AllBalanced(q, es) ==>
              && (AllSixDecimal(es, Consumption) ==>
                    Overall(meters, Consumption) - Overall(es, Consumption) == AllDue(q, es, days, Consumption))
              && Near(Overall(meters, Production) - Overall(es, Production), AllDue(q, es, days, Production), |es|)
  {
    hide AllAfter, AllFinished, AllDue, Overall, AllBalanced, AllSixDecimal;
    if AllBalanced(q, es) && meters == AllFinished(AllAfter(q, es, days)) {
      TotalsAreSummaries(q, es, days, Consumption);
      TotalsAreSummaries(q, es, days, Production);
    } else {
      NothingDue(q, es, Consumption);
      NothingDue(q, es, Production);
    }
  }

  ghost predicate NoReports(ms: seq<MeterReport>) {
    forall i :: 0 <= i < |ms| ==> ms[i].report == None
  }

  lemma {:induction false} EmptyReports(q: Setup, ms: seq<MeterReport>)
    ensures NoReports(ms) ==>
              && AllBalanced(q, AllEnsured(ms)) && AllSixDecimal(AllEnsured(ms), Consumption)
              && Overall(AllEnsured(ms), Consumption) == 0.0
  {
    if NoReports(ms) && ms != [] {
      hide Balanced, Micro;
      var n := |ms| - 1;
      EmptyReports(q, ms[..n]);
      assert AllEnsured(ms)[..n] == AllEnsured(ms[..n]);
      EmptyIsBalanced(q, Ensured(ms[n]));
      WholeIsMicro(0);
    }
  }

  lemma {:induction false} NothingDue(q: Setup, ms: seq<MeterReport>, f: Field)
    ensures AllDue(q, ms, [], f) == 0.0
  {
    if ms != [] {
      NothingDue(q, ms[..|ms| - 1], f);
    }
  }
}
