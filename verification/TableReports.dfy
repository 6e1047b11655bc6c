/**
 From the table to the energy reports: every amount, quality and count in the summary, in a chart
 entry and in an aggregated reading, told by the slots of the looked-up rows.
 */
module TableReports {
  import opened Calendar
  import opened CounterPoints
  import opened RawLine
  import opened Rounding
  import opened Buckets
  import opened Tally
  import opened Weeks
  import opened Loader
  import opened QueryEngine
  import opened RawQuery
  import opened Reports
  import opened ReportTheorems

  // ---- What the table holds. ----

  // One slot at a moment, over all metering points of a direction.
  function PointTotal(cps: seq<CounterPoint>, rows: seq<SlotRow>, ts: int, d: Direction, slot: nat): real {
    if cps == [] then 0.0 else
    var cp := cps[|cps| - 1];
    PointTotal(cps[..|cps| - 1], rows, ts, d, slot)
    + if cp.direction == d then ValueOr0(Lookup(rows, ts, cp, slot)) else 0.0
  }

  // The qualities of their first slots, joined.
  function PointQov(cps: seq<CounterPoint>, rows: seq<SlotRow>, ts: int, d: Direction): int {
    if cps == [] then 1 else
    var cp := cps[|cps| - 1];
    CalcQov(PointQov(cps[..|cps| - 1], rows, ts, d), if cp.direction == d then QovOr1(Lookup(rows, ts, cp, 0)) else 1)
  }

  // The same over the moments that some lines are counted for.
  function TableTotal(cps: seq<CounterPoint>, rows: seq<SlotRow>, fs: seq<Entry>, p: int -> bool, d: Direction,
                      slot: nat): real {
    if fs == [] then 0.0 else
    var ts := fs[|fs| - 1].ts;
    TableTotal(cps, rows, fs[..|fs| - 1], p, d, slot) + if p(ts) then PointTotal(cps, rows, ts, d, slot) else 0.0
  }

  function TableQov(cps: seq<CounterPoint>, rows: seq<SlotRow>, fs: seq<Entry>, p: int -> bool, d: Direction): int {
    if fs == [] then 1 else
    var ts := fs[|fs| - 1].ts;
    CalcQov(TableQov(cps, rows, fs[..|fs| - 1], p, d), if p(ts) then PointQov(cps, rows, ts, d) else 1)
  }

  // What a report entry shows of the moments it is counted for: consumed, allocated and distributed
  // energy are slots 0, 1 and 2 of the consumers, produced energy is slot 0 of the producers.
  ghost predicate ShowsTable(out: ReportData, cps: seq<CounterPoint>, rows: seq<SlotRow>, fs: seq<Entry>,
                             p: int -> bool) {
    && out.consumed == TableTotal(cps, rows, fs, p, Consumer, 0)
    && out.allotted == TableTotal(cps, rows, fs, p, Consumer, 1)
    && out.distributed == TableTotal(cps, rows, fs, p, Consumer, 2)
    && out.produced == TableTotal(cps, rows, fs, p, Producer, 0)
    && out.qovConsumer == CalcQov(0, TableQov(cps, rows, fs, p, Consumer))
    && out.qovProducer == CalcQov(0, TableQov(cps, rows, fs, p, Producer))
  }

  // ---- Cells and metering points. ----

  ghost predicate IsMonoid<T(!new)>(op: (T, T) -> T, unit: T) {
    && (forall a, b, c :: op(op(a, b), c) == op(a, op(b, c)))
    && (forall a, b :: op(a, b) == op(b, a))
    && (forall a :: op(a, unit) == a)
  }

  function Fold<T>(c: seq<T>, op: (T, T) -> T, unit: T): T {
    if c == [] then unit else op(Fold(c[..|c| - 1], op, unit), c[|c| - 1])
  }

  lemma {:induction false} FoldUpdate<T(!new)>(c: seq<T>, op: (T, T) -> T, unit: T, k: nat)
    requires IsMonoid(op, unit) && k < |c|
    ensures op(Fold(c[k := unit], op, unit), c[k]) == Fold(c, op, unit)
  {
    var n := |c| - 1;
    if k == n {
      assert c[k := unit][..n] == c[..n];
    } else {
      assert c[k := unit][..n] == c[..n][k := unit];
      FoldUpdate(c[..n], op, unit, k);
      Rearranged(op, unit, Fold(c[..n][k := unit], op, unit), c[n], c[k]);
    }
  }

  lemma {:induction false} Rearranged<T(!new)>(op: (T, T) -> T, unit: T, a: T, b: T, c: T)
    requires IsMonoid(op, unit)
    ensures op(op(a, b), c) == op(op(a, c), b)
  {
    assert op(op(a, b), c) == op(a, op(b, c));
    assert op(op(a, c), b) == op(a, op(c, b));
  }

  // The cells of the metering points of a direction, by their source indices.
  function PointFold<T>(cps: seq<CounterPoint>, d: Direction, c: seq<T>, op: (T, T) -> T, unit: T): T {
    if cps == [] then unit else
    var cp := cps[|cps| - 1];
    op(PointFold(cps[..|cps| - 1], d, c, op, unit),
       if cp.direction == d && cp.sourceIdx < |c| then c[cp.sourceIdx] else unit)
  }

  ghost predicate HasIndex(cps: seq<CounterPoint>, d: Direction, b: nat) {
    exists i :: 0 <= i < |cps| && cps[i].direction == d && cps[i].sourceIdx == b
  }

  lemma {:induction false} OtherCells<T>(cps: seq<CounterPoint>, d: Direction, c: seq<T>, op: (T, T) -> T, unit: T,
                                         b: nat)
    requires b < |c| && !HasIndex(cps, d, b)
    ensures PointFold(cps, d, c[b := unit], op, unit) == PointFold(cps, d, c, op, unit)
  {
    if cps != [] {
      FewerIndices(cps, d, b);
      OtherCells(cps[..|cps| - 1], d, c, op, unit, b);
    }
  }

  lemma {:induction false} FewerIndices(cps: seq<CounterPoint>, d: Direction, b: nat)
    requires cps != []
    ensures HasIndex(cps, d, b) <==>
              HasIndex(cps[..|cps| - 1], d, b) || (cps[|cps| - 1].direction == d && cps[|cps| - 1].sourceIdx == b)
  {
    var n := |cps| - 1;
    if HasIndex(cps[..n], d, b) {
      var i :| 0 <= i < n && cps[..n][i].direction == d && cps[..n][i].sourceIdx == b;
      assert cps[i].direction == d;
    }
    if HasIndex(cps, d, b) {
      var i :| 0 <= i < |cps| && cps[i].direction == d && cps[i].sourceIdx == b;
      assert i < n ==> cps[..n][i].direction == d;
    }
  }

  lemma {:induction false} FoldOfUnits<T(!new)>(c: seq<T>, op: (T, T) -> T, unit: T)
    requires IsMonoid(op, unit) && forall b :: 0 <= b < |c| ==> c[b] == unit
    ensures Fold(c, op, unit) == unit
  {
    if c != [] {
      FoldOfUnits(c[..|c| - 1], op, unit);
    }
  }

  // When no two metering points share a cell and the other cells are empty, folding the cells is
  // folding over the metering points.
  lemma {:induction false} CellsArePoints<T(!new)>(cps: seq<CounterPoint>, d: Direction, c: seq<T>, op: (T, T) -> T,
                                                   unit: T)
    requires IsMonoid(op, unit) && DistinctBlocks(cps)
    requires forall b: nat :: b < |c| && !HasIndex(cps, d, b) ==> c[b] == unit
    ensures Fold(c, op, unit) == PointFold(cps, d, c, op, unit)
  {
    hide *;
    if cps == [] {
      NoPoints(d, c, op, unit);
    } else {
      var n, cp := |cps| - 1, cps[|cps| - 1];
      LastIsAlone(cps);
      if cp.direction == d && cp.sourceIdx < |c| {
        RestIsEmpty(cps, d, c, unit, true);
        CellsArePoints(cps[..n], d, c[cp.sourceIdx := unit], op, unit);
        OtherCells(cps[..n], d, c, op, unit, cp.sourceIdx);
        FoldUpdate(c, op, unit, cp.sourceIdx);
        LastPoint(cps, d, c, op, unit);
      } else {
        RestIsEmpty(cps, d, c, unit, false);
        CellsArePoints(cps[..n], d, c, op, unit);
        LastPoint(cps, d, c, op, unit);
      }
    }
  }

  lemma {:induction false} NoPoints<T(!new)>(d: Direction, c: seq<T>, op: (T, T) -> T, unit: T)
    requires IsMonoid(op, unit)
    requires forall b: nat :: b < |c| && !HasIndex([], d, b) ==> c[b] == unit
    ensures Fold(c, op, unit) == PointFold([], d, c, op, unit)
  {
    FoldOfUnits(c, op, unit);
  }

  lemma {:induction false} LastPoint<T(!new)>(cps: seq<CounterPoint>, d: Direction, c: seq<T>, op: (T, T) -> T, unit: T)
    requires cps != [] && IsMonoid(op, unit)
    ensures var cp, before := cps[|cps| - 1], PointFold(cps[..|cps| - 1], d, c, op, unit);
            PointFold(cps, d, c, op, unit)
            == if cp.direction == d && cp.sourceIdx < |c| then op(before, c[cp.sourceIdx]) else before
  {
  }

  // Without the last metering point, and its cell when it has one, the other cells stay empty.
  lemma {:induction false} RestIsEmpty<T>(cps: seq<CounterPoint>, d: Direction, c: seq<T>, unit: T, owned: bool)
    requires cps != []
    requires owned <==> cps[|cps| - 1].direction == d && cps[|cps| - 1].sourceIdx < |c|
    requires forall b: nat :: b < |c| && !HasIndex(cps, d, b) ==> c[b] == unit
    ensures var rest := if owned then c[cps[|cps| - 1].sourceIdx := unit] else c;
            forall b: nat :: b < |c| && !HasIndex(cps[..|cps| - 1], d, b) ==> rest[b] == unit
  {
    hide HasIndex;
    forall b: nat | b < |c| && !HasIndex(cps[..|cps| - 1], d, b)
      ensures (owned && b == cps[|cps| - 1].sourceIdx) || c[b] == unit
    {
      FewerIndices(cps, d, b);
    }
  }

  lemma {:induction false} LastIsAlone(cps: seq<CounterPoint>)
    requires DistinctBlocks(cps) && cps != []
    ensures DistinctBlocks(cps[..|cps| - 1])
    ensures !HasIndex(cps[..|cps| - 1], cps[|cps| - 1].direction, cps[|cps| - 1].sourceIdx)
  {
  }

  function RealSum(a: real, b: real): real { a + b }

  lemma {:induction false} SumIsMonoid()
    ensures IsMonoid(RealSum, 0.0)
  {
  }

  lemma {:induction false} JoinIsMonoid()
    ensures IsMonoid(CalcQov, 1)
  {
    forall a, b, c ensures CalcQov(CalcQov(a, b), c) == CalcQov(a, CalcQov(b, c)) {
      QovLaws(a, b, c);
    }
    forall a, b ensures CalcQov(a, b) == CalcQov(b, a) {
      QovLaws(a, b, 1);
    }
    forall a ensures CalcQov(a, 1) == a {
      QovLaws(a, 1, 1);
    }
  }

  // ---- One line. ----

  // The cells of one slot, block by block.
  function SlotCells(l: RawSourceLine, d: Direction, slot: nat, n: nat): (c: seq<real>)
    ensures |c| == n && forall b: nat :: b < n ==> c[b] == l.Cell(d, BlockCell(d, b, slot))
  {
    seq(n, b requires 0 <= b < n => l.Cell(d, BlockCell(d, b, slot)))
  }

  function QovCells(l: RawSourceLine, d: Direction, n: nat): (c: seq<int>)
    ensures |c| == n && forall b: nat :: b < n ==> c[b] == l.Qov(d, BlockCell(d, b, 0))
  {
    seq(n, b requires 0 <= b < n => l.Qov(d, BlockCell(d, b, 0)))
  }

  lemma {:induction false} SlotSumIsFold(l: RawSourceLine, d: Direction, slot: nat, n: nat)
    ensures SlotSum(l, d, slot, n) == Fold(SlotCells(l, d, slot, n), RealSum, 0.0)
    ensures SlotQov(l, d, n) == Fold(QovCells(l, d, n), CalcQov, 1)
  {
    if 0 < n {
      hide BlockCell, RawSourceLine.Cell, RawSourceLine.Qov, CalcQov;
      SlotSumIsFold(l, d, slot, n - 1);
      assert SlotCells(l, d, slot, n)[..n - 1] == SlotCells(l, d, slot, n - 1);
      assert QovCells(l, d, n)[..n - 1] == QovCells(l, d, n - 1);
    }
  }

  // A line that shows the table: the slots of its blocks are what the table holds.
  lemma {:induction false} ShownSlots(cps: seq<CounterPoint>, shape: Shape, rows: seq<SlotRow>, ts: int,
                                      l: RawSourceLine, d: Direction, slot: nat)
    requires IsShape(cps, shape) && DistinctBlocks(cps) && Shows(cps, shape, rows, ts, l) && slot < Stride(d)
    ensures SlotSum(l, d, slot, BlockCount(l, d)) == PointTotal(cps, rows, ts, d, slot)
    ensures LineQov(l, d) == PointQov(cps, rows, ts, d)
  {
    hide IsShape, DistinctBlocks, Shows, SlotSum, SlotQov, Lookup, PointTotal, PointQov, IsMonoid, Fold, PointFold;
    var n := Blocks(shape, d);
    ShownIsSized(cps, shape, rows, ts, l);
    SizedBlocks(l, shape, d);
    var c, v := SlotCells(l, d, slot, n), QovCells(l, d, n);
    SlotSumIsFold(l, d, slot, n);
    forall b: nat | b < n && !HasIndex(cps, d, b) ensures c[b] == 0.0 && v[b] == 1 {
      OwnerlessCell(cps, shape, rows, ts, l, d, b, slot);
      OwnerlessCell(cps, shape, rows, ts, l, d, b, 0);
    }
    SumIsMonoid();
    JoinIsMonoid();
    CellsArePoints(cps, d, c, RealSum, 0.0);
    CellsArePoints(cps, d, v, CalcQov, 1);
    PointsAreLookups(cps, shape, rows, ts, l, d, slot, |cps|);
    assert cps[..|cps|] == cps;
  }

  lemma {:induction false} SizedBlocks(l: RawSourceLine, shape: Shape, d: Direction)
    requires l.Sized(shape)
    ensures BlockCount(l, d) == Blocks(shape, d)
  {
  }

  lemma {:induction false} ShownIsSized(cps: seq<CounterPoint>, shape: Shape, rows: seq<SlotRow>, ts: int,
                                        l: RawSourceLine)
    requires Shows(cps, shape, rows, ts, l)
    ensures l.Sized(shape)
  {
  }

  lemma {:induction false} OwnerlessCell(cps: seq<CounterPoint>, shape: Shape, rows: seq<SlotRow>, ts: int,
                                         l: RawSourceLine, d: Direction, b: nat, slot: nat)
    requires Shows(cps, shape, rows, ts, l) && !HasIndex(cps, d, b) && slot < Stride(d)
    ensures l.Cell(d, BlockCell(d, b, slot)) == 0.0 && l.Qov(d, BlockCell(d, b, slot)) == 1
  {
    hide Lookup, Holds;
    var k := BlockCell(d, b, slot);
    if Owned(cps, d, k) {
      var c, j: nat :| 0 <= c < |cps| && cps[c].direction == d && j < Stride(d) && CellIdx(cps[c], j) == k;
      SameBlock(d, cps[c].sourceIdx, j, b, slot);
    }
  }

  lemma {:induction false} SameBlock(d: Direction, a: nat, i: nat, b: nat, j: nat)
    requires i < Stride(d) && j < Stride(d) && BlockCell(d, a, i) == BlockCell(d, b, j)
    ensures a == b && i == j
  {
  }

  lemma {:induction false} PointsAreLookups(cps: seq<CounterPoint>, shape: Shape, rows: seq<SlotRow>, ts: int,
                                            l: RawSourceLine, d: Direction, slot: nat, n: nat)
    requires IsShape(cps, shape) && Shows(cps, shape, rows, ts, l) && slot < Stride(d) && n <= |cps|
    ensures PointFold(cps[..n], d, SlotCells(l, d, slot, Blocks(shape, d)), RealSum, 0.0)
            == PointTotal(cps[..n], rows, ts, d, slot)
    ensures PointFold(cps[..n], d, QovCells(l, d, Blocks(shape, d)), CalcQov, 1) == PointQov(cps[..n], rows, ts, d)
  {
    if 0 < n {
      hide *;
      PointsAreLookups(cps, shape, rows, ts, l, d, slot, n - 1);
      assert cps[..n][..n - 1] == cps[..n - 1];
      StrideHasSlots(d);
      if cps[n - 1].direction == d {
        ShownCell(cps, shape, rows, ts, l, n - 1, slot);
        ShownCell(cps, shape, rows, ts, l, n - 1, 0);
      }
      NextPoint(cps[..n], rows, ts, d, slot, SlotCells(l, d, slot, Blocks(shape, d)), QovCells(l, d, Blocks(shape, d)));
    }
  }

  lemma {:induction false} StrideHasSlots(d: Direction)
    ensures 0 < Stride(d)
  {
  }

  lemma {:induction false} NextPoint(cps: seq<CounterPoint>, rows: seq<SlotRow>, ts: int, d: Direction, slot: nat,
                                     c: seq<real>, v: seq<int>)
    requires cps != []
    ensures var cp, before := cps[|cps| - 1], cps[..|cps| - 1];
            && PointFold(cps, d, c, RealSum, 0.0)
               == PointFold(before, d, c, RealSum, 0.0)
                  + (if cp.direction == d && cp.sourceIdx < |c| then c[cp.sourceIdx] else 0.0)
            && PointFold(cps, d, v, CalcQov, 1)
               == CalcQov(PointFold(before, d, v, CalcQov, 1),
                          if cp.direction == d && cp.sourceIdx < |v| then v[cp.sourceIdx] else 1)
            && PointTotal(cps, rows, ts, d, slot)
               == PointTotal(before, rows, ts, d, slot)
                  + (if cp.direction == d then ValueOr0(Lookup(rows, ts, cp, slot)) else 0.0)
            && PointQov(cps, rows, ts, d)
               == CalcQov(PointQov(before, rows, ts, d),
                          if cp.direction == d then QovOr1(Lookup(rows, ts, cp, 0)) else 1)
  {
    hide CalcQov, Lookup;
  }

  lemma {:induction false} ShownCell(cps: seq<CounterPoint>, shape: Shape, rows: seq<SlotRow>, ts: int,
                                     l: RawSourceLine, i: nat, slot: nat)
    requires IsShape(cps, shape) && Shows(cps, shape, rows, ts, l) && i < |cps| && slot < Stride(cps[i].direction)
    ensures cps[i].sourceIdx < Blocks(shape, cps[i].direction)
    ensures l.Cell(cps[i].direction, BlockCell(cps[i].direction, cps[i].sourceIdx, slot))
            == ValueOr0(Lookup(rows, ts, cps[i], slot))
    ensures l.Qov(cps[i].direction, BlockCell(cps[i].direction, cps[i].sourceIdx, slot))
            == QovOr1(Lookup(rows, ts, cps[i], slot))
  {
    hide Lookup, BlockCell, RawSourceLine.Cell, RawSourceLine.Qov;
    assert Holds(l, cps[i], slot, Lookup(rows, ts, cps[i], slot));
  }

  // ---- All lines. ----

  // The direction and slot a quantity is read from.
  lemma {:induction false} AmountsBySlot(l: RawSourceLine)
    ensures Amount(l, Consumed) == SlotSum(l, Consumer, 0, BlockCount(l, Consumer))
    ensures Amount(l, Allocated) == SlotSum(l, Consumer, 1, BlockCount(l, Consumer))
    ensures Amount(l, Distributed) == SlotSum(l, Consumer, 2, BlockCount(l, Consumer))
    ensures Amount(l, Produced) == SlotSum(l, Producer, 0, BlockCount(l, Producer))
  {
  }

  // One quantity by its direction and slot.
  ghost predicate IsSlot(q: Quantity, d: Direction, slot: nat) {
    slot < Stride(d) && forall l :: Amount(l, q) == SlotSum(l, d, slot, BlockCount(l, d))
  }

  lemma {:induction false} QuantitySlots()
    ensures IsSlot(Consumed, Consumer, 0) && IsSlot(Allocated, Consumer, 1) && IsSlot(Distributed, Consumer, 2)
    ensures IsSlot(Produced, Producer, 0)
  {
    hide SlotSum, BlockCount, Amount;
    forall l
      ensures Amount(l, Consumed) == SlotSum(l, Consumer, 0, BlockCount(l, Consumer))
      ensures Amount(l, Allocated) == SlotSum(l, Consumer, 1, BlockCount(l, Consumer))
      ensures Amount(l, Distributed) == SlotSum(l, Consumer, 2, BlockCount(l, Consumer))
      ensures Amount(l, Produced) == SlotSum(l, Producer, 0, BlockCount(l, Producer))
    {
      AmountsBySlot(l);
    }
  }

  ghost predicate AllShow(cps: seq<CounterPoint>, shape: Shape, rows: seq<SlotRow>, fs: seq<Entry>) {
    forall i :: 0 <= i < |fs| ==> Shows(cps, shape, rows, fs[i].ts, fs[i].line)
  }

  lemma {:induction false} KeyedAmount<K>(cps: seq<CounterPoint>, shape: Shape, rows: seq<SlotRow>, fs: seq<Entry>,
                                          f: int -> K, key: K, p: int -> bool, q: Quantity, d: Direction, slot: nat)
    requires IsShape(cps, shape) && DistinctBlocks(cps) && AllShow(cps, shape, rows, fs) && IsSlot(q, d, slot)
    requires forall ts :: p(ts) <==> f(ts) == key
    ensures AmountFor(Rekey(EntryPieces(fs), f), key, q) == TableTotal(cps, rows, fs, p, d, slot)
    ensures QovFor(Rekey(EntryPieces(fs), f), key, d) == TableQov(cps, rows, fs, p, d)
  {
    if fs != [] {
      hide IsShape, DistinctBlocks, Shows, PointTotal, PointQov, Amount, LineQov, CalcQov, SlotSum;
      var n := |fs| - 1;
      KeyedAmount(cps, shape, rows, fs[..n], f, key, p, q, d, slot);
      ShownSlots(cps, shape, rows, fs[n].ts, fs[n].line, d, slot);
      assert Rekey(EntryPieces(fs), f)[..n] == Rekey(EntryPieces(fs[..n]), f);
    }
  }

  // An entry over lines by a key of their moments.
  lemma {:induction false} KeyedEntry<K>(cps: seq<CounterPoint>, shape: Shape, rows: seq<SlotRow>, fs: seq<Entry>,
                                         f: int -> K, key: K, p: int -> bool, out: ReportData)
    requires IsShape(cps, shape) && DistinctBlocks(cps) && AllShow(cps, shape, rows, fs)
    requires forall ts :: p(ts) <==> f(ts) == key
    requires forall q: Quantity :: out.Of(q) == AmountFor(Rekey(EntryPieces(fs), f), key, q)
    requires forall s: Side :: out.QovOf(s) == CalcQov(0, QovFor(Rekey(EntryPieces(fs), f), key, s))
    ensures ShowsTable(out, cps, rows, fs, p)
  {
    hide IsShape, DistinctBlocks, AllShow, IsSlot, AmountFor, QovFor, TableTotal, TableQov, CalcQov;
    QuantitySlots();
    KeyedAmount(cps, shape, rows, fs, f, key, p, Consumed, Consumer, 0);
    KeyedAmount(cps, shape, rows, fs, f, key, p, Allocated, Consumer, 1);
    KeyedAmount(cps, shape, rows, fs, f, key, p, Distributed, Consumer, 2);
    KeyedAmount(cps, shape, rows, fs, f, key, p, Produced, Producer, 0);
    EntryFields(out);
    assert out.QovOf(Consumer) == CalcQov(0, QovFor(Rekey(EntryPieces(fs), f), key, Consumer));
    assert out.QovOf(Producer) == CalcQov(0, QovFor(Rekey(EntryPieces(fs), f), key, Producer));
  }

  lemma {:induction false} EntryFields(out: ReportData)
    ensures out.Of(Consumed) == out.consumed && out.Of(Allocated) == out.allotted
    ensures out.Of(Distributed) == out.distributed && out.Of(Produced) == out.produced
    ensures out.QovOf(Consumer) == out.qovConsumer && out.QovOf(Producer) == out.qovProducer
    ensures out.CountOf(Consumer) == out.cntConsumer && out.CountOf(Producer) == out.cntProducer
  {
  }

  lemma {:induction false} DeliveredShow(cps: seq<CounterPoint>, shape: Shape, rows: seq<SlotRow>, fs: seq<Entry>)
    requires Delivered(cps, shape, rows, fs)
    ensures AllShow(cps, shape, rows, fs)
  {
    hide Shows;
  }

  // The summary shows what the table holds over all delivered moments.
  lemma {:induction false} SummaryShowsTable(cps: seq<CounterPoint>, shape: Shape, rows: seq<SlotRow>, fs: seq<Entry>,
                                             out: ReportData)
    requires IsShape(cps, shape) && DistinctBlocks(cps) && Delivered(cps, shape, rows, fs) && SumsUp(out, fs)
    ensures ShowsTable(out, cps, rows, fs, ts => true)
  {
    hide IsShape, DistinctBlocks, AllShow, Delivered, AmountFor, AmountOfAll, QovFor, ShowsTable;
    DeliveredShow(cps, shape, rows, fs);
    forall q: Quantity ensures out.Of(q) == AmountFor(Rekey(EntryPieces(fs), Whole), 0, q) {
      AllIsOneKey(EntryPieces(fs), Whole, q);
    }
    KeyedEntry(cps, shape, rows, fs, Whole, 0, ts => true, out);
  }

  // Each entry of the weekly curve shows what the table holds over the moments with one Monday.
  lemma {:induction false} WeeksShowTable(cps: seq<CounterPoint>, shape: Shape, rows: seq<SlotRow>, fs: seq<Entry>,
                                          keys: seq<(int, int)>, out: seq<ReportData>, i: nat, t: int)
    requires IsShape(cps, shape) && DistinctBlocks(cps) && Delivered(cps, shape, rows, fs)
    requires IsChart(Rekey(EntryPieces(fs), LineKey(true)), keys, out) && i < |out| && IsoWeek(t) == keys[i]
    ensures ShowsTable(out[i], cps, rows, fs, ts => MondayOf(ts) == MondayOf(t))
  {
    hide IsShape, DistinctBlocks, AllShow, Delivered, AmountFor, QovFor, ShowsTable, IsoWeek, MondayOf;
    DeliveredShow(cps, shape, rows, fs);
    forall ts ensures MondayOf(ts) == MondayOf(t) <==> LineKey(true)(ts) == keys[i] {
      SameWeekIffMonday(ts, t);
    }
    assert IsEntry(out[i], Rekey(EntryPieces(fs), LineKey(true)), keys[i]);
    KeyedEntry(cps, shape, rows, fs, LineKey(true), keys[i], ts => MondayOf(ts) == MondayOf(t), out[i]);
  }

  // Each entry of the monthly curve shows what the table holds in its month of its year.
  lemma {:induction false} MonthsShowTable(cps: seq<CounterPoint>, shape: Shape, rows: seq<SlotRow>, fs: seq<Entry>,
                                           keys: seq<(int, int)>, out: seq<ReportData>, i: nat)
    requires IsShape(cps, shape) && DistinctBlocks(cps) && Delivered(cps, shape, rows, fs)
    requires IsChart(Rekey(EntryPieces(fs), LineKey(false)), keys, out) && i < |out|
    ensures ShowsTable(out[i], cps, rows, fs, ts => YearOf(ts) == keys[i].0 && MonthOf(ts) == keys[i].1)
  {
    hide IsShape, DistinctBlocks, AllShow, Delivered, AmountFor, QovFor, ShowsTable, YearOf, MonthOf;
    DeliveredShow(cps, shape, rows, fs);
    forall ts ensures YearOf(ts) == keys[i].0 && MonthOf(ts) == keys[i].1 <==> LineKey(false)(ts) == keys[i] {
    }
    assert IsEntry(out[i], Rekey(EntryPieces(fs), LineKey(false)), keys[i]);
    KeyedEntry(cps, shape, rows, fs, LineKey(false), keys[i],
               ts => YearOf(ts) == keys[i].0 && MonthOf(ts) == keys[i].1, out[i]);
  }

  // A chart over buckets: its keys are keys of labels.
  lemma {:induction false} BucketsShowTable<K>(cps: seq<CounterPoint>, shape: Shape, rows: seq<SlotRow>, fs: seq<Entry>,
                                               s: int, w: int, bs: seq<Bucket>, g: int -> K, p: int -> bool,
                                               key: K, out: ReportData)
    requires IsShape(cps, shape) && DistinctBlocks(cps) && Delivered(cps, shape, rows, fs) && 0 < w
    requires IsGrouping(s, w, shape, fs, bs) && IsEntry(out, Rekey(BucketPieces(bs), g), key)
    requires forall ts :: p(ts) <==> g(Label(s, w, ts)) == key
    ensures ShowsTable(out, cps, rows, fs, p)
  {
    hide IsShape, DistinctBlocks, Shows, AmountFor, QovFor, Label, IsGrouping, ShowsTable, Totals;
    DeliveredShow(cps, shape, rows, fs);
    forall n | 0 <= n < |fs| ensures fs[n].line.Sized(shape) {
      ShownIsSized(cps, shape, rows, fs[n].ts, fs[n].line);
    }
    GroupingTotals(s, w, shape, fs, bs);
    var f := ts requires 0 < w => g(Label(s, w, ts));
    var pieces := Rekey(LabelPieces(s, w, fs), g);
    assert pieces == Rekey(EntryPieces(fs), ts => if 0 < w then g(Label(s, w, ts)) else key);
    forall q: Quantity ensures out.Of(q) == AmountFor(pieces, key, q) {
      RegroupAmount(BucketPieces(bs), LabelPieces(s, w, fs), g, key, q);
    }
    forall d: Side ensures out.QovOf(d) == CalcQov(0, QovFor(pieces, key, d)) {
      RegroupQov(BucketPieces(bs), LabelPieces(s, w, fs), g, key, d);
    }
    KeyedEntry(cps, shape, rows, fs, ts => if 0 < w then g(Label(s, w, ts)) else key, key, p, out);
  }

  // Each entry of the load curve shows what the table holds on its date.
  lemma {:induction false} DaysShowTable(cps: seq<CounterPoint>, rows: seq<SlotRow>, ctx: EngineContext, fs: seq<Entry>,
                                         bs: seq<Bucket>, keys: seq<Date>, out: seq<ReportData>, i: nat)
    requires IsShape(cps, ctx.shape) && DistinctBlocks(cps) && Delivered(cps, ctx.shape, rows, fs)
             && ctx.start % DAY == 0
    requires IsGrouping(ctx.start, DAY, ctx.shape, fs, bs) && IsChart(Rekey(BucketPieces(bs), DayEnding), keys, out)
    requires i < |out| && HasKey(Rekey(BucketPieces(bs), DayEnding), keys[i])
    ensures var day := DayNumber(keys[i].year, keys[i].month, keys[i].day);
            ShowsTable(out[i], cps, rows, fs, ts => DayOf(ts) == day)
  {
    hide IsShape, DistinctBlocks, Delivered, IsGrouping, Label, ShowsTable, DayNumber, ValidDate, AmountFor, QovFor,
         DayOf, DayEnding, DateOfDay;
    var pieces, day := Rekey(BucketPieces(bs), DayEnding), DayNumber(keys[i].year, keys[i].month, keys[i].day);
    var j :| 0 <= j < |pieces| && pieces[j].key == keys[i];
    forall ts ensures DayOf(ts) == day <==> DayEnding(Label(ctx.start, DAY, ts)) == keys[i] {
      DayOfKey(ctx.start, ts, bs[j].due);
    }
    assert IsEntry(out[i], pieces, keys[i]);
    BucketsShowTable(cps, ctx.shape, rows, fs, ctx.start, DAY, bs, DayEnding, ts => DayOf(ts) == day, keys[i], out[i]);
  }

  lemma {:induction false} DayOfKey(start: int, ts: int, due: int)
    requires start % DAY == 0
    ensures var d := DayEnding(due);
            DayOf(ts) == DayNumber(d.year, d.month, d.day) <==> DayEnding(Label(start, DAY, ts)) == d
  {
    hide Label, DayNumber, ValidDate, DayOf;
    DayOfLabel(start, ts);
    DatesByDay(DayOf(ts), DayOf(due - DAY));
  }

  lemma {:induction false} DatesByDay(a: int, b: int)
    ensures var d := DateOfDay(b); a == DayNumber(d.year, d.month, d.day) <==> DateOfDay(a) == d
  {
    hide DayNumber, ValidDate;
  }

  lemma {:induction false} DayOfLabel(start: int, ts: int)
    requires start % DAY == 0
    ensures DayOf(Label(start, DAY, ts) - DAY) == DayOf(ts)
  {
    LabelBounds(start, DAY, ts);
    assert Label(start, DAY, ts) % DAY == 0;
  }

  // The i-th entry of the intraday report shows what the table holds in the i-th hour of the UTC
  // days, which is `zone` hours before the local one.
  lemma {:induction false} HoursShowTable(cps: seq<CounterPoint>, rows: seq<SlotRow>, ctx: EngineContext,
                                          fs: seq<Entry>, zone: int, bs: seq<Bucket>, out: seq<ReportData>, i: nat)
    requires IsShape(cps, ctx.shape) && DistinctBlocks(cps) && Delivered(cps, ctx.shape, rows, fs)
             && ctx.start % DAY == 0
    requires IsGrouping(ctx.start, 60, ctx.shape, fs, bs) && IsChart(Rekey(BucketPieces(bs), HourOf(zone)), HOURS, out)
    requires i < 24
    ensures i < |out| && ShowsTable(out[i], cps, rows, fs, ts => (ts / 60 - zone) % 24 == i)
  {
    hide IsShape, DistinctBlocks, Delivered, IsGrouping, Label, ShowsTable, AmountFor, QovFor;
    forall ts ensures (ts / 60 - zone) % 24 == i <==> HourOf(zone)(Label(ctx.start, 60, ts)) == HOURS[i] {
      HourOfLabel(ctx.start, zone, ts);
    }
    assert IsEntry(out[i], Rekey(BucketPieces(bs), HourOf(zone)), HOURS[i]);
    BucketsShowTable(cps, ctx.shape, rows, fs, ctx.start, 60, bs, HourOf(zone), ts => (ts / 60 - zone) % 24 == i,
                     HOURS[i], out[i]);
  }

  lemma {:induction false} HourOfLabel(start: int, zone: int, ts: int)
    requires start % DAY == 0
    ensures (Label(start, 60, ts) - 60 - zone * 60) / 60 % 24 == (ts / 60 - zone) % 24
  {
    LabelBounds(start, 60, ts);
    var hour := Label(start, 60, ts) - 60;
    SameHour(hour, ts);
    HourShift(hour, zone);
  }

  lemma {:induction false} SameHour(hour: int, ts: int)
    requires hour % 60 == 0 && hour <= ts < hour + 60
    ensures hour / 60 == ts / 60
  {
  }

  lemma {:induction false} HourShift(ts: int, zone: int)
    ensures (ts - zone * 60) / 60 == ts / 60 - zone
  {
  }

  // An input: half past midnight, an hour ahead of UTC, is in the last hour of the UTC day before.
  lemma {:induction false} AfterMidnight(day: int)
    ensures ((day * 1440 + 30) / 60 - 1) % 24 == 23
  {
    assert (day * 1440 + 30) / 60 == day * 24;
  }

  // ---- Aggregated readings. ----

  // The looked-up rows of one slot over the moments of an interval.
  function IntervalAmount(rows: seq<SlotRow>, fs: seq<Entry>, from: int, until: int, cp: CounterPoint,
                          slot: nat): real {
    if fs == [] then 0.0 else
    var ts := fs[|fs| - 1].ts;
    IntervalAmount(rows, fs[..|fs| - 1], from, until, cp, slot)
    + if from <= ts < until then ValueOr0(Lookup(rows, ts, cp, slot)) else 0.0
  }

  function IntervalQov(rows: seq<SlotRow>, fs: seq<Entry>, from: int, until: int, cp: CounterPoint, slot: nat): int {
    if fs == [] then 1 else
    var ts := fs[|fs| - 1].ts;
    CalcQov(IntervalQov(rows, fs[..|fs| - 1], from, until, cp, slot),
            if from <= ts < until then QovOr1(Lookup(rows, ts, cp, slot)) else 1)
  }

  // A label is the end of the interval of its moments.
  lemma {:induction false} LabelIsInterval(s: int, w: int, a: int, ts: int)
    requires 0 < w
    ensures Label(s, w, ts) == Label(s, w, a) <==> Label(s, w, a) - w <= ts < Label(s, w, a)
  {
    hide Label;
    LabelBounds(s, w, ts);
    if Label(s, w, a) - w <= ts < Label(s, w, a) {
      LabelIsDetermined(s, w, a, ts);
    }
  }

  lemma {:induction false} ColumnIsInterval(cps: seq<CounterPoint>, shape: Shape, s: int, w: int, rows: seq<SlotRow>,
                                            fs: seq<Entry>, due: int, a: int, c: nat, slot: nat)
    requires 0 < w && IsShape(cps, shape) && c < |cps| && slot < Stride(cps[c].direction) && due == Label(s, w, a)
    requires AllShow(cps, shape, rows, fs)
    ensures ColumnSum(InBucket(s, w, fs, due), cps[c].direction, CellIdx(cps[c], slot))
            == IntervalAmount(rows, fs, due - w, due, cps[c], slot)
    ensures ColumnQov(InBucket(s, w, fs, due), cps[c].direction, CellIdx(cps[c], slot))
            == IntervalQov(rows, fs, due - w, due, cps[c], slot)
  {
    if fs != [] {
      var n := |fs| - 1;
      assert Shows(cps, shape, rows, fs[n].ts, fs[n].line);
      assert AllShow(cps, shape, rows, fs[..n]);
      hide *;
      ColumnIsInterval(cps, shape, s, w, rows, fs[..n], due, a, c, slot);
      IntervalNext(cps, shape, s, w, rows, fs[..n], fs[n], due, a, c, slot);
      assert fs[..n] + [fs[n]] == fs;
    }
  }

  lemma {:induction false} IntervalNext(cps: seq<CounterPoint>, shape: Shape, s: int, w: int, rows: seq<SlotRow>,
                                        fs: seq<Entry>, e: Entry, due: int, a: int, c: nat, slot: nat)
    requires 0 < w && IsShape(cps, shape) && c < |cps| && slot < Stride(cps[c].direction) && due == Label(s, w, a)
    requires Shows(cps, shape, rows, e.ts, e.line)
    requires ColumnSum(InBucket(s, w, fs, due), cps[c].direction, CellIdx(cps[c], slot))
             == IntervalAmount(rows, fs, due - w, due, cps[c], slot)
    requires ColumnQov(InBucket(s, w, fs, due), cps[c].direction, CellIdx(cps[c], slot))
             == IntervalQov(rows, fs, due - w, due, cps[c], slot)
    ensures ColumnSum(InBucket(s, w, fs + [e], due), cps[c].direction, CellIdx(cps[c], slot))
            == IntervalAmount(rows, fs + [e], due - w, due, cps[c], slot)
    ensures ColumnQov(InBucket(s, w, fs + [e], due), cps[c].direction, CellIdx(cps[c], slot))
            == IntervalQov(rows, fs + [e], due - w, due, cps[c], slot)
  {
    hide Label, Lookup, Shows, IsShape, InBucket, IntervalAmount, IntervalQov, ColumnSum, ColumnQov, BlockCell, CalcQov,
         RawSourceLine.Cell, RawSourceLine.Qov, ValueOr0, QovOr1;
    IntervalSnoc(rows, fs, e, due - w, due, cps[c], slot);
    LabelIsInterval(s, w, a, e.ts);
    ShownCell(cps, shape, rows, e.ts, e.line, c, slot);
    InBucketSnoc(s, w, fs, e, due);
    ColumnSnoc(InBucket(s, w, fs, due), e, cps[c].direction, CellIdx(cps[c], slot));
    QovLaws(IntervalQov(rows, fs, due - w, due, cps[c], slot), 1, 1);
    assert InBucket(s, w, fs, due) + [] == InBucket(s, w, fs, due);
  }

  lemma {:induction false} IntervalSnoc(rows: seq<SlotRow>, fs: seq<Entry>, e: Entry, from: int, until: int,
                                        cp: CounterPoint, slot: nat)
    ensures IntervalAmount(rows, fs + [e], from, until, cp, slot)
            == IntervalAmount(rows, fs, from, until, cp, slot)
               + if from <= e.ts < until then ValueOr0(Lookup(rows, e.ts, cp, slot)) else 0.0
    ensures IntervalQov(rows, fs + [e], from, until, cp, slot)
            == CalcQov(IntervalQov(rows, fs, from, until, cp, slot),
                       if from <= e.ts < until then QovOr1(Lookup(rows, e.ts, cp, slot)) else 1)
  {
    assert (fs + [e])[..|fs|] == fs;
  }

  // Every bucket of a grouping has the label of a moment.
  lemma {:induction false} BucketsHaveMoments(s: int, w: int, shape: Shape, fs: seq<Entry>, bs: seq<Bucket>, i: nat)
    returns (a: int)
    requires 0 < w && IsGrouping(s, w, shape, fs, bs) && i < |bs|
    ensures bs[i].due == Label(s, w, a)
  {
    hide IsTotal;
    if i == 0 {
      a := s;
      assert (s - s) / w == 0;
    } else {
      assert Touched(s, w, fs, bs[i].due);
      var n :| 0 <= n < |fs| && Label(s, w, fs[n].ts) == bs[i].due;
      a := fs[n].ts;
    }
  }

  // An aggregated reading is, slot by slot, what the table holds over the interval of one width
  // that ends with the reading's moment.
  lemma {:induction false} AggregateShowsTable(cps: seq<CounterPoint>, shape: Shape, rows: seq<SlotRow>, fs: seq<Entry>,
                                               s: int, w: int, bs: seq<Bucket>, c: nat, i: nat, slot: nat)
    requires 0 < w && IsShape(cps, shape) && Delivered(cps, shape, rows, fs) && IsGrouping(s, w, shape, fs, bs)
    requires c < |cps| && i < |bs| && slot < Stride(cps[c].direction)
    ensures var r := Series(cps[c], BucketEntries(bs))[i];
            && r.value[slot] == IntervalAmount(rows, fs, r.ts - w, r.ts, cps[c], slot)
            && r.qov[slot] == IntervalQov(rows, fs, r.ts - w, r.ts, cps[c], slot)
  {
    hide Label, Lookup, Shows, IsShape, IsGrouping, InBucket, Series, Reading, IntervalAmount, IntervalQov;
    var a := BucketsHaveMoments(s, w, shape, fs, bs, i);
    DeliveredShow(cps, shape, rows, fs);
    AggregateIsSum(s, w, cps, shape, fs, bs, cps[c], i, slot);
    ColumnIsInterval(cps, shape, s, w, rows, fs, bs[i].due, a, c, slot);
  }
}
