/**
 The running accumulator of one calculation period: per counterpoint the sums of the consumer
 columns consumed, share and coverage and of the producer columns produced and distributed.
 */
module CalcResultsModel {
  import opened Calendar
  import opened Rounding
  import opened Matrices
  import opened Allocation

  // What an accumulator holds.
  datatype Totals = Totals(cons: seq<real>, alloc: seq<real>, shar: seq<real>, prod: seq<real>, dist: seq<real>,
                           pSum: real)

  // Rows of the matrix a flat slice is wrapped in.
  function ConsumerRows(n: nat): nat {
    if n <= 1 then 1 else (n - 1) / 3 + 1
  }

  function ProducerRows(n: nat): nat {
    if n <= 1 then 1 else (n - 1) / 2 + 1
  }

  // At least one row, and just enough rows for the cells.
  lemma {:induction false} RowsCover(n: nat)
    ensures n <= ConsumerRows(n) * 3 && n <= ProducerRows(n) * 2
    ensures 1 < ConsumerRows(n) ==> (ConsumerRows(n) - 1) * 3 < n
    ensures 1 < ProducerRows(n) ==> (ProducerRows(n) - 1) * 2 < n
  {
  }

  function ConsumerColumn(c: seq<real>, slot: nat): (r: seq<real>)
    ensures |r| == ConsumerRows(|c|)
    ensures forall i :: 0 <= i < |r| ==> r[i] == At(c, i * 3 + slot)
  {
    Column(c, 3, slot, ConsumerRows(|c|))
  }

  function ProducerColumn(p: seq<real>, slot: nat): (r: seq<real>)
    ensures |r| == ProducerRows(|p|)
    ensures forall i :: 0 <= i < |r| ==> r[i] == At(p, i * 2 + slot)
  {
    Column(p, 2, slot, ProducerRows(|p|))
  }

  // One line into the accumulator.
  function WithLine(t: Totals, c: seq<real>, p: seq<real>): Totals {
    Totals(SumCells(t.cons, ConsumerColumn(c, 0)), SumCells(t.alloc, ConsumerColumn(c, 2)),
           SumCells(t.shar, ConsumerColumn(c, 1)),
           SumCells(t.prod, ProducerColumn(p, 0)), SumCells(t.dist, ProducerColumn(p, 1)),
           t.pSum + Sum(ProducerColumn(p, 0)))
  }

  // One accumulator into another.
  function Plus(t: Totals, u: Totals): Totals {
    Totals(SumCells(t.cons, u.cons), SumCells(t.alloc, u.alloc), SumCells(t.shar, u.shar),
           SumCells(t.prod, u.prod), SumCells(t.dist, u.dist), t.pSum + u.pSum)
  }

  function Rounded(t: Totals): Totals {
    Totals(RoundCells(t.cons), RoundCells(t.alloc), RoundCells(t.shar), RoundCells(t.prod), RoundCells(t.dist), t.pSum)
  }

  function ZeroCells(n: nat): (r: seq<real>)
    ensures |r| == n && forall i :: 0 <= i < n ==> r[i] == 0.0
  {
    seq(n, _ => 0.0)
  }

  function NoTotals(consumers: nat, producers: nat): Totals {
    Totals(ZeroCells(consumers), ZeroCells(consumers), ZeroCells(consumers), ZeroCells(producers),
           ZeroCells(producers), 0.0)
  }

  lemma {:induction false} ColumnOfPadded(a: seq<real>, n: nat, c: nat, rows: nat, size: nat)
    ensures Column(Padded(a, size), n, c, rows) == Column(a, n, c, rows)
  {
  }

  // The slices of a line as matrices of whole rows; a slice of whole rows is shared, not copied.
  method ConvertLineToMatrix(consumers: array<real>, producers: array<real>) returns (c: Matrix, p: Matrix)
    ensures fresh(c) && fresh(p) && c.Valid() && p.Valid() && c != p
    ensures c.cols == 3 && c.rows == ConsumerRows(consumers.Length)
            && c.elements[..] == Padded(consumers[..], c.rows * 3)
    ensures p.cols == 2 && p.rows == ProducerRows(producers.Length)
            && p.elements[..] == Padded(producers[..], p.rows * 2)
  {
    var lenC := if 1 < consumers.Length - 1 then consumers.Length - 1 else 1;
    var lenP := if 1 < producers.Length - 1 then producers.Length - 1 else 1;
    var rowsC := (lenC + 3 - lenC % 3) / 3;
    var rowsP := (lenP + 2 - lenP % 2) / 2;
    assert rowsC == lenC / 3 + 1 == ConsumerRows(consumers.Length);
    assert rowsP == lenP / 2 + 1 == ProducerRows(producers.Length);
    RowsCover(consumers.Length);
    RowsCover(producers.Length);
    c := new Matrix.Make(consumers, rowsC, 3);
    p := new Matrix.Make(producers, rowsP, 2);
  }

  class CalcResults {
    const rCons: Matrix
    const rAlloc: Matrix
    const rShar: Matrix
    const rProd: Matrix
    const rDist: Matrix
    var pSum: real
    ghost var Repr: set<object>

    ghost function Mats(): set<Matrix> {
      {rCons, rAlloc, rShar, rProd, rDist}
    }

    ghost predicate Valid()
      reads this, Repr
      ensures Valid() ==> this in Repr && Mats() <= Repr
    {
      && this in Repr && Mats() <= Repr
      && {rCons.elements, rAlloc.elements, rShar.elements, rProd.elements, rDist.elements} <= Repr
      && rCons.Valid() && rAlloc.Valid() && rShar.Valid() && rProd.Valid() && rDist.Valid()
      && rCons.cols == rAlloc.cols == rShar.cols == rProd.cols == rDist.cols == 1
      && Different(rCons, rAlloc) && Different(rCons, rShar) && Different(rCons, rProd) && Different(rCons, rDist)
      && Different(rAlloc, rShar) && Different(rAlloc, rProd) && Different(rAlloc, rDist)
      && Different(rShar, rProd) && Different(rShar, rDist) && Different(rProd, rDist)
    }

    static ghost predicate Different(m: Matrix, n: Matrix)
      reads m, n
    {
      m != n && m.elements != n.elements
    }

    ghost function View(): Totals
      requires Valid()
      reads this, Repr
    {
      Totals(rCons.elements[..], rAlloc.elements[..], rShar.elements[..], rProd.elements[..], rDist.elements[..], pSum)
    }

    constructor (consumers: nat, producers: nat)
      ensures Valid() && fresh(Repr) && View() == NoTotals(consumers, producers)
    {
      var c := NewColumn(consumers);
      var a := NewColumn(consumers);
      var p := NewColumn(producers);
      var d := NewColumn(producers);
      var s := NewColumn(consumers);
      rCons, rAlloc, rProd, rDist, rShar, pSum := c, a, p, d, s, 0.0;
      Repr := {this, c, a, p, d, s, c.elements, a.elements, p.elements, d.elements, s.elements};
    }

    // Adds one line; the line's slices are only read.
    method AppendResults(consumers: array<real>, producers: array<real>)
      requires Valid() && consumers !in Repr && producers !in Repr
      modifies Repr
      ensures Valid() && fresh(Repr - old(Repr))
      ensures View() == WithLine(old(View()), consumers[..], producers[..])
    {
      hide Dot, ProductCells, SumCells, Column, ConsumerRows, ProducerRows, ConsumerColumn, ProducerColumn, Sum, Padded,
           Valid, View;
      var consumed, m, s, produced, d := LineColumns(consumers, producers);
      var sumProduced := SumOf(produced.elements);
      AddConsumers(consumed, m, s);
      AddProducers(produced, d);
      AddProduced(sumProduced);
    }

    method AddProduced(v: real)
      requires Valid()
      modifies this`pSum
      ensures Valid() && View() == old(View()).(pSum := old(View()).pSum + v)
    {
      hide Matrix.Valid;
      pSum := pSum + v;
    }

    method AddConsumed(m: Matrix)
      requires Valid() && m.Valid() && m.cols == 1 && m !in Repr && m.elements !in Repr
      modifies Repr, m
      ensures Valid() && fresh(Repr - old(Repr)) && pSum == old(pSum)
      ensures View() == old(View()).(cons := SumCells(old(View()).cons, old(m.elements[..])))
    {
      hide SumCells, Matrix.Valid;
      var ok := rCons.Add(m);
      Repr := Repr + {rCons.elements};
    }

    method AddAllotted(m: Matrix)
      requires Valid() && m.Valid() && m.cols == 1 && m !in Repr && m.elements !in Repr
      modifies Repr, m
      ensures Valid() && fresh(Repr - old(Repr)) && pSum == old(pSum)
      ensures View() == old(View()).(alloc := SumCells(old(View()).alloc, old(m.elements[..])))
    {
      hide SumCells, Matrix.Valid;
      var ok := rAlloc.Add(m);
      Repr := Repr + {rAlloc.elements};
    }

    method AddShared(m: Matrix)
      requires Valid() && m.Valid() && m.cols == 1 && m !in Repr && m.elements !in Repr
      modifies Repr, m
      ensures Valid() && fresh(Repr - old(Repr)) && pSum == old(pSum)
      ensures View() == old(View()).(shar := SumCells(old(View()).shar, old(m.elements[..])))
    {
      hide SumCells, Matrix.Valid;
      var ok := rShar.Add(m);
      Repr := Repr + {rShar.elements};
    }

    // Adds three columns to the consumer side; the buffers of the summands are only read.
    method AddConsumers(consumed: Matrix, alloc: Matrix, share: Matrix)
      requires Valid()
      requires consumed.Valid() && alloc.Valid() && share.Valid() && consumed.cols == alloc.cols == share.cols == 1
      requires {consumed, alloc, share} !! Repr && consumed != alloc && consumed != share && alloc != share
      requires {consumed.elements, alloc.elements, share.elements} !! Repr
      modifies Repr, consumed, alloc, share
      ensures Valid() && fresh(Repr - old(Repr)) && pSum == old(pSum)
      ensures View() == old(View()).(cons := SumCells(old(View()).cons, old(consumed.elements[..])),
                                     alloc := SumCells(old(View()).alloc, old(alloc.elements[..])),
                                     shar := SumCells(old(View()).shar, old(share.elements[..])))
    {
      hide SumCells, Matrix.Valid, Valid, View;
      AddConsumed(consumed);
      AddAllotted(alloc);
      AddShared(share);
    }

    method AddProducers(produced: Matrix, dist: Matrix)
      requires Valid()
      requires produced.Valid() && dist.Valid() && produced.cols == dist.cols == 1
      requires {produced, dist} !! Repr && produced != dist
      requires {produced.elements, dist.elements} !! Repr
      modifies Repr, produced, dist
      ensures Valid() && fresh(Repr - old(Repr)) && pSum == old(pSum)
      ensures View() == old(View()).(prod := SumCells(old(View()).prod, old(produced.elements[..])),
                                     dist := SumCells(old(View()).dist, old(dist.elements[..])))
    {
      hide SumCells, Matrix.Valid;
      var ok := rProd.Add(produced);
      ok := rDist.Add(dist);
      Repr := Repr + {rProd.elements, rDist.elements};
    }

    // Rounds every buffer in place.
    method RoundToFixed()
      requires Valid()
      modifies Repr
      ensures Valid() && Repr == old(Repr) && View() == Rounded(old(View()))
    {
      hide RoundCells;
      rCons.RoundToFixed();
      rAlloc.RoundToFixed();
      rProd.RoundToFixed();
      rDist.RoundToFixed();
      rShar.RoundToFixed();
    }

    // Rounds the consumer side in place and reads one of its rows.
    method RoundedConsumer(i: nat) returns (consumed: real, shared: real, allotted: real)
      requires Valid() && i < rCons.rows && i < rShar.rows && i < rAlloc.rows
      modifies Repr
      ensures Valid() && Repr == old(Repr)
      ensures View() == old(View()).(cons := RoundCells(old(View()).cons), alloc := RoundCells(old(View()).alloc),
                                     shar := RoundCells(old(View()).shar))
      ensures consumed == At(View().cons, i) && shared == At(View().shar, i) && allotted == At(View().alloc, i)
    {
      hide RoundCells;
      rCons.RoundToFixed();
      rShar.RoundToFixed();
      rAlloc.RoundToFixed();
      consumed := rCons.GetElm(i, 0);
      shared := rShar.GetElm(i, 0);
      allotted := rAlloc.GetElm(i, 0);
    }

    lemma {:induction false} BuffersOwned()
      requires Valid()
      ensures {rCons.elements, rAlloc.elements, rShar.elements, rProd.elements, rDist.elements} <= Repr
      ensures View() == Totals(rCons.elements[..], rAlloc.elements[..], rShar.elements[..], rProd.elements[..],
                               rDist.elements[..], pSum)
    {
    }

    // The columns are owned, apart from each other, and one cell wide.
    lemma {:induction false} ColumnsApart()
      requires Valid()
      ensures Mats() <= Repr && rCons.elements in Repr && rAlloc.elements in Repr && rShar.elements in Repr
      ensures rProd.elements in Repr && rDist.elements in Repr
      ensures rCons.Valid() && rAlloc.Valid() && rShar.Valid() && rProd.Valid() && rDist.Valid()
      ensures rCons.cols == rAlloc.cols == rShar.cols == rProd.cols == rDist.cols == 1
      ensures rCons != rAlloc && rCons != rShar && rAlloc != rShar && rProd != rDist
      ensures {rCons, rAlloc, rShar} !! {rProd, rDist}
    {
      hide Matrix.Valid;
    }

    lemma {:induction false} ColumnRows()
      requires Valid()
      ensures var v := View();
              rCons.rows == |v.cons| && rAlloc.rows == |v.alloc| && rShar.rows == |v.shar| && rProd.rows == |v.prod|
                 && rDist.rows == |v.dist|
    {
    }

    // Adds another accumulator. Its matrices may be padded, but its buffers are only read.
    method SumIntermediate(other: CalcResults)
      requires Valid() && other.Valid() && other.Repr !! Repr
      modifies Repr, other.Mats()
      ensures Valid() && fresh(Repr - old(Repr))
      ensures View() == Plus(old(View()), old(other.View()))
    {
      hide SumCells, Matrix.Valid, Valid, View;
      other.ColumnsApart();
      other.BuffersOwned();
      AddConsumers(other.rCons, other.rAlloc, other.rShar);
      AddProducers(other.rProd, other.rDist);
      AddProduced(other.pSum);
    }
  }

  method NewColumn(rows: nat) returns (m: Matrix)
    ensures fresh(m) && fresh(m.elements) && m.Valid() && m.cols == 1 && m.elements[..] == ZeroCells(rows)
  {
    m := new Matrix.New(rows, 1);
  }

  // The five columns of a line, each in a buffer of its own.
  method LineColumns(consumers: array<real>, producers: array<real>)
    returns (consumed: Matrix, alloc: Matrix, share: Matrix, produced: Matrix, dist: Matrix)
    ensures fresh({consumed, alloc, share, produced, dist})
    ensures fresh({consumed.elements, alloc.elements, share.elements, produced.elements, dist.elements})
    ensures consumed != alloc && consumed != share && alloc != share && produced != dist
    ensures {consumed, alloc, share} !! {produced, dist}
    ensures {consumed.elements, alloc.elements, share.elements} !! {produced.elements, dist.elements}
    ensures consumed.Valid() && alloc.Valid() && share.Valid() && produced.Valid() && dist.Valid()
    ensures consumed.cols == alloc.cols == share.cols == produced.cols == dist.cols == 1
    ensures consumed.elements[..] == ConsumerColumn(consumers[..], 0)
    ensures alloc.elements[..] == ConsumerColumn(consumers[..], 2)
    ensures share.elements[..] == ConsumerColumn(consumers[..], 1)
    ensures produced.elements[..] == ProducerColumn(producers[..], 0)
    ensures dist.elements[..] == ProducerColumn(producers[..], 1)
  {
    hide Dot, ProductCells, Column, ConsumerRows, ProducerRows, ConsumerColumn, ProducerColumn, Padded;
    var cm, pm := ConvertLineToMatrix(consumers, producers);
    alloc, share, dist := AllocDynamicV2(cm, pm);
    consumed := PickColumn(cm, 0);
    produced := PickColumn(pm, 0);
    ColumnsOfLine(consumers[..], producers[..]);
  }

  // One column of a matrix, selected by a pick.
  method PickColumn(m: Matrix, c: nat) returns (r: Matrix)
    requires m.Valid() && c < m.cols
    ensures fresh(r) && fresh(r.elements) && r.Valid() && r.cols == 1
    ensures r.elements[..] == Column(m.elements[..], m.cols, c, m.rows)
  {
    hide Dot, ProductCells;
    var pick := MakePick(m.cols, c);
    r := Multiply(m, pick);
    PickSelectsColumn(m.elements[..], pick.elements[..], c, m.rows);
  }

  lemma {:induction false} ColumnsOfLine(c: seq<real>, p: seq<real>)
    ensures forall slot: nat ::
              Column(Padded(c, ConsumerRows(|c|) * 3), 3, slot, ConsumerRows(|c|)) == ConsumerColumn(c, slot)
    ensures forall slot: nat ::
              Column(Padded(p, ProducerRows(|p|) * 2), 2, slot, ProducerRows(|p|)) == ProducerColumn(p, slot)
  {
    forall slot: nat
      ensures Column(Padded(c, ConsumerRows(|c|) * 3), 3, slot, ConsumerRows(|c|)) == ConsumerColumn(c, slot)
    {
      ColumnOfPadded(c, 3, slot, ConsumerRows(|c|), ConsumerRows(|c|) * 3);
    }
    forall slot: nat
      ensures Column(Padded(p, ProducerRows(|p|) * 2), 2, slot, ProducerRows(|p|)) == ProducerColumn(p, slot)
    {
      ColumnOfPadded(p, 2, slot, ProducerRows(|p|), ProducerRows(|p|) * 2);
    }
  }

  // A line as the calculation sees it: its moment and the contents of its slices.
  datatype CalcLine = CalcLine(ts: int, c: seq<real>, p: seq<real>)

  function TotalsOf(consumers: nat, producers: nat, lines: seq<CalcLine>): Totals {
    if lines == [] then NoTotals(consumers, producers)
    else WithLine(TotalsOf(consumers, producers, lines[..|lines| - 1]), lines[|lines| - 1].c, lines[|lines| - 1].p)
  }

  // One cell of the lines, summed.
  function ConsumerCell(lines: seq<CalcLine>, k: nat): real {
    if lines == [] then 0.0 else ConsumerCell(lines[..|lines| - 1], k) + At(lines[|lines| - 1].c, k)
  }

  function ProducerCell(lines: seq<CalcLine>, k: nat): real {
    if lines == [] then 0.0 else ProducerCell(lines[..|lines| - 1], k) + At(lines[|lines| - 1].p, k)
  }

  lemma {:induction false} ColumnCell(c: seq<real>, p: seq<real>, slot: nat, i: nat)
    ensures slot < 3 ==> At(ConsumerColumn(c, slot), i) == At(c, i * 3 + slot)
    ensures slot < 2 ==> At(ProducerColumn(p, slot), i) == At(p, i * 2 + slot)
  {
    hide Column;
    RowsCover(|c|);
    RowsCover(|p|);
  }

  lemma {:induction false} SumCell(a: seq<real>, b: seq<real>, i: nat)
    ensures At(SumCells(a, b), i) == At(a, i) + At(b, i)
  {
  }

  // After any lines, of any lengths, the accumulator holds the column sums of each counterpoint.
  lemma {:induction false} AccumulatorIsColumnSums(consumers: nat, producers: nat, lines: seq<CalcLine>, i: nat)
    ensures var t := TotalsOf(consumers, producers, lines);
            && At(t.cons, i) == ConsumerCell(lines, i * 3)
            && At(t.shar, i) == ConsumerCell(lines, i * 3 + 1)
            && At(t.alloc, i) == ConsumerCell(lines, i * 3 + 2)
            && At(t.prod, i) == ProducerCell(lines, i * 2)
            && At(t.dist, i) == ProducerCell(lines, i * 2 + 1)
  {
    if lines != [] {
      hide At, SumCells, ConsumerColumn, ProducerColumn, Sum;
      var n := |lines| - 1;
      var t, c, p := TotalsOf(consumers, producers, lines[..n]), lines[n].c, lines[n].p;
      AccumulatorIsColumnSums(consumers, producers, lines[..n], i);
      ColumnCell(c, p, 0, i);
      ColumnCell(c, p, 1, i);
      ColumnCell(c, p, 2, i);
      SumCell(t.cons, ConsumerColumn(c, 0), i);
      SumCell(t.shar, ConsumerColumn(c, 1), i);
      SumCell(t.alloc, ConsumerColumn(c, 2), i);
      SumCell(t.prod, ProducerColumn(p, 0), i);
      SumCell(t.dist, ProducerColumn(p, 1), i);
    }
  }

  // When every line has the topology's width the accumulator has one row per counterpoint (or
  // one row for an empty direction).
  lemma {:induction false} AccumulatorWidth(consumers: nat, producers: nat, lines: seq<CalcLine>)
    requires forall i :: 0 <= i < |lines| ==> |lines[i].c| == 3 * consumers && |lines[i].p| == 2 * producers
    ensures var t := TotalsOf(consumers, producers, lines);
            && |t.cons| == |t.shar| == |t.alloc| == (if lines == [] || 0 < consumers then consumers else 1)
            && |t.prod| == |t.dist| == (if lines == [] || 0 < producers then producers else 1)
  {
    if lines != [] {
      AccumulatorWidth(consumers, producers, lines[..|lines| - 1]);
    }
  }

  // Lines less than half an hour apart, as a gap-filled stream delivers them.
  ghost predicate SmallSteps(g: seq<CalcLine>) {
    forall i :: 0 < i < |g| ==> g[i - 1].ts < g[i].ts < g[i - 1].ts + Slots(2)
  }

  // Lines of one flushed period.
  type Group = seq<CalcLine>

  lemma {:induction false} TotalsOfSnoc(consumers: nat, producers: nat, g: Group, l: CalcLine)
    ensures TotalsOf(consumers, producers, g + [l]) == WithLine(TotalsOf(consumers, producers, g), l.c, l.p)
  {
    assert (g + [l])[..|g|] == g;
  }

  lemma {:induction false} NoLinesNoTotals(consumers: nat, producers: nat)
    ensures TotalsOf(consumers, producers, []) == NoTotals(consumers, producers)
  {
  }

  // The delivered line, holding its slices by reference.
  datatype LineRef = LineRef(ts: int, c: array<real>, p: array<real>)

  ghost function Contents(lines: seq<LineRef>): (g: Group)
    reads set i | 0 <= i < |lines| :: lines[i].c, set i | 0 <= i < |lines| :: lines[i].p
    ensures |g| == |lines| && forall i :: 0 <= i < |lines| ==>
              g[i] == CalcLine(lines[i].ts, lines[i].c[..], lines[i].p[..])
  {
    seq(|lines|, i requires 0 <= i < |lines|
        reads set i | 0 <= i < |lines| :: lines[i].c, set i | 0 <= i < |lines| :: lines[i].p
      => CalcLine(lines[i].ts, lines[i].c[..], lines[i].p[..]))
  }

  function Flatten(groups: seq<Group>): Group {
    if groups == [] then [] else Flatten(groups[..|groups| - 1]) + groups[|groups| - 1]
  }

  lemma {:induction false} FlattenSnoc(groups: seq<Group>, g: Group)
    ensures Flatten(groups + [g]) == Flatten(groups) + g
  {
    assert (groups + [g])[..|groups|] == groups;
  }

  lemma {:induction false} GroupCells(a: Group, b: Group, k: nat)
    ensures ConsumerCell(a + b, k) == ConsumerCell(a, k) + ConsumerCell(b, k)
    ensures ProducerCell(a + b, k) == ProducerCell(a, k) + ProducerCell(b, k)
  {
    if b == [] {
      assert a + b == a;
    } else {
      GroupCells(a, b[..|b| - 1], k);
      assert (a + b)[..|a + b| - 1] == a + b[..|b| - 1];
    }
  }
}
