/**
 The counterpoint_meta table: one row per metering point with a source index that must be
 unique within its (tenant, ec, direction).
 */
module CounterPoints {
  import opened Outcomes

  datatype Direction = Consumer | Producer

  function DirectionString(d: Direction): string {
    match d
    case Consumer => "CONSUMPTION"
    case Producer => "GENERATION"
  }

  function ParseDirection(s: string): (r: Option<Direction>) {
    if s in ["CONSUMPTION", "consumer", "consumption", "CONSUMER"] then Some(Consumer)
    else if s in ["GENERATION", "producer", "generation", "PRODUCER", "GENERATOR"] then Some(Producer)
    else None
  }

  lemma {:induction false} DirectionRoundTrip(d: Direction)
    ensures ParseDirection(DirectionString(d)) == Some(d)
  {
    assert "CONSUMPTION" == ["CONSUMPTION", "consumer", "consumption", "CONSUMER"][0];
    assert "GENERATION" == ["GENERATION", "producer", "generation", "PRODUCER", "GENERATOR"][0];
    assert |"GENERATION"| == 10;
  }

  // Every text, by the direction it is read as.
  lemma {:induction false} DirectionsByText(s: string)
    ensures ParseDirection(s) == Some(Consumer) <==> s in ["CONSUMPTION", "consumer", "consumption", "CONSUMER"]
    ensures ParseDirection(s) == Some(Producer) <==>
              s in ["GENERATION", "producer", "generation", "PRODUCER", "GENERATOR"]
    ensures DirectionString(Consumer) == "CONSUMPTION" && DirectionString(Producer) == "GENERATION"
  {
    assert forall t :: t in ["GENERATION", "producer", "generation", "PRODUCER", "GENERATOR"] ==> t[0] in "GgPp";
    assert forall t :: t in ["CONSUMPTION", "consumer", "consumption", "CONSUMER"] ==> t[0] in "Cc";
  }

  datatype MeterKey = MeterKey(tenant: string, ec: string, meter: string)

  datatype Row = Row(direction: Direction, sourceIdx: nat, periodStart: Option<int>, periodEnd: Option<int>,
                     name: string)

  type Table = map<MeterKey, Row>

  // The row of key k competes for indices with those of (tenant, ec, direction).
  predicate InScope(t: Table, k: MeterKey, tenant: string, ec: string, d: Direction) {
    k in t && k.tenant == tenant && k.ec == ec && t[k].direction == d
  }

  // MAX(source_idx) + 1 over the scope, or 0 when the scope is empty.
  ghost predicate IsNextIdx(t: Table, tenant: string, ec: string, d: Direction, n: nat) {
    && (forall k :: InScope(t, k, tenant, ec, d) ==> t[k].sourceIdx < n)
    && (n == 0 || exists k :: InScope(t, k, tenant, ec, d) && t[k].sourceIdx == n - 1)
  }

  ghost predicate UniqueIndices(t: Table) {
    forall j, k :: j in t && k in t && j != k && j.tenant == k.tenant && j.ec == k.ec
      && t[j].direction == t[k].direction
      ==> t[j].sourceIdx != t[k].sourceIdx
  }

  datatype Step =
    | Ensure(key: MeterKey, direction: Direction, today: int)
    | Put(key: MeterKey, row: Row)
    | Remove(key: MeterKey)

  predicate Named(k: MeterKey) {
    k.tenant != "" && k.ec != "" && k.meter != ""
  }

  // One statement against the table, taken atomically.
  ghost predicate Stepped(t: Table, s: Step, u: Table) {
    match s
    case Remove(k) => u == t - {k}
    case Put(k, row) => u == if Named(k) then t[k := row] else t
    case Ensure(k, d, today) =>
      if !Named(k) || k in t then u == t
      else exists n :: IsNextIdx(t, k.tenant, k.ec, d, n)
                       && u == t[k := Row(d, n, Some(today), Some(today), k.meter)]
  }

  class Repository {
    var rows: Table

    constructor ()
      ensures rows == map[]
    {
      rows := map[];
    }

    method NextIdx(tenant: string, ec: string, d: Direction) returns (n: nat)
      ensures IsNextIdx(rows, tenant, ec, d, n)
    {
      n := 0;
      var todo := rows.Keys;
      while todo != {}
        invariant todo <= rows.Keys
        invariant forall k :: InScope(rows, k, tenant, ec, d) && k !in todo ==> rows[k].sourceIdx < n
        invariant n == 0 || exists k :: InScope(rows, k, tenant, ec, d) && rows[k].sourceIdx == n - 1
        decreases todo
      {
        var k :| k in todo;
        todo := todo - {k};
        if InScope(rows, k, tenant, ec, d) && n <= rows[k].sourceIdx {
          n := rows[k].sourceIdx + 1;
        }
      }
    }

    // Creates the row if there is none; an existing row is left alone.
    method EnsureForMeter(k: MeterKey, d: Direction, today: int) returns (ok: bool)
      modifies this
      ensures ok <==> k.tenant != "" && k.ec != "" && k.meter != ""
      ensures Stepped(old(rows), Ensure(k, d, today), rows)
      ensures ok ==> k in rows
    {
      if k.tenant == "" || k.ec == "" || k.meter == "" {
        return false;
      }
      var n := NextIdx(k.tenant, k.ec, d);
      if k !in rows {
        rows := rows[k := Row(d, n, Some(today), Some(today), k.meter)];
      }
      return true;
    }

    // Writes the row with the index it is given, over an existing row too.
    method Upsert(k: MeterKey, row: Row) returns (ok: bool)
      modifies this
      ensures ok <==> k.tenant != "" && k.ec != "" && k.meter != ""
      ensures Stepped(old(rows), Put(k, row), rows)
    {
      if k.tenant == "" || k.ec == "" || k.meter == "" {
        return false;
      }
      rows := rows[k := row];
      return true;
    }

    method Delete(k: MeterKey)
      modifies this
      ensures Stepped(old(rows), Remove(k), rows)
      ensures k !in rows
    {
      rows := rows - {k};
    }
  }

  // The step upserts an index that another metering point of the scope holds.
  ghost predicate Clash(t: Table, s: Step) {
    && s.Put? && Named(s.key)
    && exists k :: k != s.key && InScope(t, k, s.key.tenant, s.key.ec, s.row.direction)
         && t[k].sourceIdx == s.row.sourceIdx
  }

  // A step keeps indices unique exactly when it is no such upsert, and it changes no row that
  // stays, except the one it upserts.
  lemma {:induction false} StepKeepsUnique(t: Table, s: Step, u: Table)
    requires UniqueIndices(t) && Stepped(t, s, u)
    ensures UniqueIndices(u) <==> !Clash(t, s)
    ensures forall k :: k in t && k in u && !(s.Put? && s.key == k) ==> u[k] == t[k]
  {
    if s.Ensure? && Named(s.key) && s.key !in t {
      var n :| IsNextIdx(t, s.key.tenant, s.key.ec, s.direction, n)
               && u == t[s.key := Row(s.direction, n, Some(s.today), Some(s.today), s.key.meter)];
      forall j, k | j in u && k in u && j != k && j.tenant == k.tenant && j.ec == k.ec
        && u[j].direction == u[k].direction
        ensures u[j].sourceIdx != u[k].sourceIdx
      {
        if j == s.key {
          assert InScope(t, k, j.tenant, j.ec, s.direction);
        } else if k == s.key {
          assert InScope(t, j, k.tenant, k.ec, s.direction);
        }
      }
    } else if s.Put? && Named(s.key) {
      PutKeepsUnique(t, s.key, s.row);
    }
  }

  lemma {:induction false} PutKeepsUnique(t: Table, key: MeterKey, row: Row)
    requires UniqueIndices(t) && Named(key)
    ensures UniqueIndices(t[key := row]) <==> !Clash(t, Put(key, row))
  {
    var u := t[key := row];
    if Clash(t, Put(key, row)) {
      var k :| k != key && InScope(t, k, key.tenant, key.ec, row.direction) && t[k].sourceIdx == row.sourceIdx;
      assert k in u && u[k] == t[k] && u[key] == row;
    } else {
      forall j, k | j in u && k in u && j != k && j.tenant == k.tenant && j.ec == k.ec
        && u[j].direction == u[k].direction
        ensures u[j].sourceIdx != u[k].sourceIdx
      {
        if j == key {
          assert InScope(t, k, key.tenant, key.ec, row.direction);
        } else if k == key {
          assert InScope(t, j, key.tenant, key.ec, row.direction);
        }
      }
    }
  }

  // A history of the table: the states between which the steps were taken.
  ghost predicate IsHistory(states: seq<Table>, steps: seq<Step>) {
    && |states| == |steps| + 1
    && states[0] == map[]
    && forall i :: 0 <= i < |steps| ==> Stepped(states[i], steps[i], states[i + 1])
  }

  predicate NoUpserts(steps: seq<Step>) {
    forall i :: 0 <= i < |steps| ==> !steps[i].Put?
  }

  // A new row: free index, the given direction, both periods at the day of the insert, and the
  // metering point as its name.
  lemma {:induction false} EnsuredRow(t: Table, k: MeterKey, d: Direction, today: int, u: Table)
    requires Stepped(t, Ensure(k, d, today), u)
    ensures k.tenant == "" || k.ec == "" || k.meter == "" || k in t ==> u == t
    ensures k.tenant != "" && k.ec != "" && k.meter != "" && k !in t ==>
              && k in u && u == t[k := u[k]] && u[k].direction == d && u[k].name == k.meter
              && u[k].periodStart == Some(today) && u[k].periodEnd == Some(today)
              && (forall j :: InScope(t, j, k.tenant, k.ec, d) ==> t[j].sourceIdx < u[k].sourceIdx)
              && (u[k].sourceIdx == 0
                  || exists j :: InScope(t, j, k.tenant, k.ec, d) && t[j].sourceIdx == u[k].sourceIdx - 1)
  {
  }

  // In every history that upserts nothing, source indices are unique in every state.
  lemma {:induction false} HistoryKeepsUnique(states: seq<Table>, steps: seq<Step>, i: nat)
    requires IsHistory(states, steps) && NoUpserts(steps) && i < |states|
    ensures UniqueIndices(states[i])
  {
    UniqueUntilClash(states, steps, i);
  }

  lemma {:induction false} UniqueUntilClash(states: seq<Table>, steps: seq<Step>, i: nat)
    requires IsHistory(states, steps) && i < |states|
    requires forall n :: 0 <= n < i ==> !Clash(states[n], steps[n])
    ensures UniqueIndices(states[i])
  {
    if 0 < i {
      hide Stepped, Clash;
      UniqueUntilClash(states, steps, i - 1);
      var k := i - 1;
      assert Stepped(states[k], steps[k], states[k + 1]);
      StepKeepsUnique(states[k], steps[k], states[i]);
    }
  }

  // In every history, upserts included, all states are unique exactly when no step clashes.
  lemma {:induction false} HistoryIsUniqueIff(states: seq<Table>, steps: seq<Step>)
    requires IsHistory(states, steps)
    ensures (forall i :: 0 <= i < |states| ==> UniqueIndices(states[i]))
            <==> (forall n :: 0 <= n < |steps| ==> !Clash(states[n], steps[n]))
  {
    hide UniqueIndices, Clash, Stepped;
    if forall n :: 0 <= n < |steps| ==> !Clash(states[n], steps[n]) {
      forall i | 0 <= i < |states| ensures UniqueIndices(states[i]) {
        UniqueUntilClash(states, steps, i);
      }
    }
    if forall i :: 0 <= i < |states| ==> UniqueIndices(states[i]) {
      forall n | 0 <= n < |steps| ensures !Clash(states[n], steps[n]) {
        var k := n + 1;
        assert UniqueIndices(states[n]) && UniqueIndices(states[k]);
        StepKeepsUnique(states[n], steps[n], states[k]);
      }
    }
  }

  // A row that stays in the table from one state to a later one, and is not upserted between
  // them, keeps its index.
  lemma {:induction false} SurvivorKeepsRow(states: seq<Table>, steps: seq<Step>, i: nat, j: nat, k: MeterKey)
    requires IsHistory(states, steps) && i <= j < |states|
    requires forall n :: i <= n <= j ==> k in states[n]
    requires forall n :: i <= n < j ==> !(steps[n].Put? && steps[n].key == k)
    ensures states[i][k] == states[j][k]
    decreases j
  {
    if i < j {
      SurvivorKeepsRow(states, steps, i, j - 1, k);
      var n := j - 1;
      assert Stepped(states[n], steps[n], states[n + 1]) && k in states[n];
    }
  }

  // No row of any state has an empty tenant, community or metering point.
  lemma {:induction false} RowsAreNamed(states: seq<Table>, steps: seq<Step>, i: nat)
    requires IsHistory(states, steps) && i < |states|
    ensures forall k :: k in states[i] ==> Named(k)
  {
    if 0 < i {
      RowsAreNamed(states, steps, i - 1);
      var n := i - 1;
      assert Stepped(states[n], steps[n], states[n + 1]);
    }
  }

  datatype CounterPoint = CounterPoint(meter: string, direction: Direction, sourceIdx: nat,
                                       periodStart: Option<int>, periodEnd: Option<int>, name: string)

  predicate ListedBefore(a: CounterPoint, b: CounterPoint) {
    if a.direction == b.direction then a.sourceIdx <= b.sourceIdx else a.direction == Consumer
  }

  // What ListByEC returns: each row of (tenant, ec) once, consumers first, by source index.
  ghost predicate IsListing(t: Table, tenant: string, ec: string, cps: seq<CounterPoint>) {
    && (forall i :: 0 <= i < |cps| ==>
          var k := MeterKey(tenant, ec, cps[i].meter);
          k in t && t[k] == Row(cps[i].direction, cps[i].sourceIdx, cps[i].periodStart, cps[i].periodEnd, cps[i].name))
    && (forall k :: k in t && k.tenant == tenant && k.ec == ec ==>
          exists i :: 0 <= i < |cps| && cps[i].meter == k.meter)
    && (forall i, j :: 0 <= i < j < |cps| ==> cps[i].meter != cps[j].meter)
    && (forall i, j :: 0 <= i < j < |cps| ==> ListedBefore(cps[i], cps[j]))
  }

  ghost predicate DistinctMeters(cps: seq<CounterPoint>) {
    forall i, j :: 0 <= i < j < |cps| ==> cps[i].meter != cps[j].meter
  }

  // No two metering points of a direction share a block of the wide line.
  ghost predicate DistinctBlocks(cps: seq<CounterPoint>) {
    forall i, j :: 0 <= i < j < |cps| && cps[i].direction == cps[j].direction ==> cps[i].sourceIdx != cps[j].sourceIdx
  }

  lemma {:induction false} ListingIsDistinct(t: Table, tenant: string, ec: string, cps: seq<CounterPoint>)
    requires UniqueIndices(t) && IsListing(t, tenant, ec, cps)
    ensures DistinctMeters(cps) && DistinctBlocks(cps)
  {
    forall i, j | 0 <= i < j < |cps| && cps[i].direction == cps[j].direction
      ensures cps[i].sourceIdx != cps[j].sourceIdx
    {
      var a, b := MeterKey(tenant, ec, cps[i].meter), MeterKey(tenant, ec, cps[j].meter);
      assert t[a].direction == t[b].direction;
    }
  }

  lemma {:induction false} ListedAreNamed(states: seq<Table>, steps: seq<Step>, i: nat, tenant: string, ec: string,
                                          cps: seq<CounterPoint>)
    requires IsHistory(states, steps) && i < |states| && IsListing(states[i], tenant, ec, cps)
    ensures forall j :: 0 <= j < |cps| ==> Named(MeterKey(tenant, ec, cps[j].meter))
  {
    RowsAreNamed(states, steps, i);
  }

  // No listing of the empty community holds a metering point, in any state of any history.
  lemma {:induction false} NoCommunityNoMeters(states: seq<Table>, steps: seq<Step>, i: nat, tenant: string,
                                               cps: seq<CounterPoint>)
    requires IsHistory(states, steps) && i < |states| && IsListing(states[i], tenant, "", cps)
    ensures cps == []
  {
    if cps != [] {
      var first := cps[0];
      ListedAreNamed(states, steps, i, tenant, "", cps);
    }
  }

  // The counterpoint of a metering point, as a map filled in listing order holds it.
  function FindMeter(cps: seq<CounterPoint>, meter: string): (r: Option<CounterPoint>)
    ensures r.Some? ==> r.value in cps && r.value.meter == meter
    ensures r.None? ==> forall i :: 0 <= i < |cps| ==> cps[i].meter != meter
  {
    if cps == [] then None
    else if cps[|cps| - 1].meter == meter then Some(cps[|cps| - 1])
    else FindMeter(cps[..|cps| - 1], meter)
  }
}
