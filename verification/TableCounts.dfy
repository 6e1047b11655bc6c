/**
 The active metering points of the energy reports: how many there are in an entry, told by the
 looked-up rows.
 */
module TableCounts {
  import opened CounterPoints
  import opened RawLine
  import opened Rounding
  import opened Buckets
  import opened Tally
  import opened Loader
  import opened QueryEngine
  import opened RawQuery
  import opened Reports
  import opened ReportTheorems
  import opened TableReports

  // A metering point is active when one of its slots is not zero.
  predicate IsActive(cp: CounterPoint, v: (CounterPoint, nat) -> real) {
    || v(cp, 0) != 0.0 || v(cp, 1) != 0.0 || (cp.direction == Consumer && v(cp, 2) != 0.0)
  }

  // The active metering points of a direction, when their slots have the values v.
  function ActivePoints(cps: seq<CounterPoint>, d: Direction, v: (CounterPoint, nat) -> real): int {
    if cps == [] then 0 else
    var cp := cps[|cps| - 1];
    ActivePoints(cps[..|cps| - 1], d, v) + if cp.direction == d && IsActive(cp, v) then 1 else 0
  }

  // The slots of the metering points as the table holds them at a moment.
  function HeldAt(rows: seq<SlotRow>, ts: int): (CounterPoint, nat) -> real {
    (cp: CounterPoint, slot: nat) => ValueOr0(Lookup(rows, ts, cp, slot))
  }

  // And summed over an interval.
  function HeldOver(rows: seq<SlotRow>, fs: seq<Entry>, from: int, until: int): (CounterPoint, nat) -> real {
    (cp: CounterPoint, slot: nat) => IntervalAmount(rows, fs, from, until, cp, slot)
  }

  // The most metering points active at one of the moments.
  function TableCount(cps: seq<CounterPoint>, rows: seq<SlotRow>, fs: seq<Entry>, p: int -> bool, d: Direction): int {
    if fs == [] then 0 else
    var ts := fs[|fs| - 1].ts;
    var n := if p(ts) then ActivePoints(cps, d, HeldAt(rows, ts)) else 0;
    var before := TableCount(cps, rows, fs[..|fs| - 1], p, d);
    if before < n then n else before
  }

  // The most metering points active over one of the intervals that end with a label of the key.
  function BucketCount<K(==)>(cps: seq<CounterPoint>, rows: seq<SlotRow>, fs: seq<Entry>, w: int, bs: seq<Bucket>,
                              g: int -> K, key: K, d: Direction): int {
    if bs == [] then 0 else
    var due := bs[|bs| - 1].due;
    var n := if g(due) == key then ActivePoints(cps, d, HeldOver(rows, fs, due - w, due)) else 0;
    var before := BucketCount(cps, rows, fs, w, bs[..|bs| - 1], g, key, d);
    if before < n then n else before
  }

  // ---- One line. ----

  // The line holds the values of the metering points of a direction, and nothing else.
  ghost predicate HoldsValues(cps: seq<CounterPoint>, shape: Shape, l: RawSourceLine, d: Direction,
                              v: (CounterPoint, nat) -> real) {
    && l.Sized(shape)
    && (forall i, slot: nat :: 0 <= i < |cps| && cps[i].direction == d && slot < Stride(d) ==>
          l.Cell(d, BlockCell(d, cps[i].sourceIdx, slot)) == v(cps[i], slot))
    && (forall b, slot: nat :: !HasIndex(cps, d, b) && slot < Stride(d) ==> l.Cell(d, BlockCell(d, b, slot)) == 0.0)
  }

  function ActiveCells(l: RawSourceLine, d: Direction, n: nat): (c: seq<int>)
    ensures |c| == n && forall b: nat :: b < n ==> c[b] == if ActiveBlock(l, d, b) then 1 else 0
  {
    seq(n, b requires 0 <= b < n => if ActiveBlock(l, d, b) then 1 else 0)
  }

  function IntSum(a: int, b: int): int { a + b }

  lemma {:induction false} IntSumIsMonoid()
    ensures IsMonoid(IntSum, 0)
  {
  }

  lemma {:induction false} ActiveBlocksIsFold(l: RawSourceLine, d: Direction, n: nat)
    ensures ActiveBlocks(l, d, n) == Fold(ActiveCells(l, d, n), IntSum, 0)
  {
    if 0 < n {
      hide ActiveBlock;
      ActiveBlocksIsFold(l, d, n - 1);
      assert ActiveCells(l, d, n)[..n - 1] == ActiveCells(l, d, n - 1);
    }
  }

  lemma {:induction false} ActiveByValue(cps: seq<CounterPoint>, shape: Shape, l: RawSourceLine, d: Direction,
                                         v: (CounterPoint, nat) -> real, i: nat)
    requires HoldsValues(cps, shape, l, d, v) && i < |cps| && cps[i].direction == d
    ensures ActiveBlock(l, d, cps[i].sourceIdx) <==> IsActive(cps[i], v)
  {
    hide BlockCell, RawSourceLine.Cell, HasIndex;
    assert 0 < Stride(d) && 1 < Stride(d) && (d == Consumer ==> 2 < Stride(d));
    assert l.Cell(d, BlockCell(d, cps[i].sourceIdx, 0)) == v(cps[i], 0);
    assert l.Cell(d, BlockCell(d, cps[i].sourceIdx, 1)) == v(cps[i], 1);
    assert d == Consumer ==> l.Cell(d, BlockCell(d, cps[i].sourceIdx, 2)) == v(cps[i], 2);
  }

  lemma {:induction false} IdleBlock(cps: seq<CounterPoint>, shape: Shape, l: RawSourceLine, d: Direction,
                                     v: (CounterPoint, nat) -> real, b: nat)
    requires HoldsValues(cps, shape, l, d, v) && !HasIndex(cps, d, b)
    ensures !ActiveBlock(l, d, b)
  {
    hide BlockCell, RawSourceLine.Cell, HasIndex;
    assert 0 < Stride(d) && 1 < Stride(d) && (d == Consumer ==> 2 < Stride(d));
    assert l.Cell(d, BlockCell(d, b, 0)) == 0.0 && l.Cell(d, BlockCell(d, b, 1)) == 0.0;
    assert d == Consumer ==> l.Cell(d, BlockCell(d, b, 2)) == 0.0;
  }

  lemma {:induction false} FoldIsActive(cps: seq<CounterPoint>, shape: Shape, l: RawSourceLine, d: Direction,
                                        v: (CounterPoint, nat) -> real, n: nat)
    requires IsShape(cps, shape) && HoldsValues(cps, shape, l, d, v) && n <= |cps|
    ensures PointFold(cps[..n], d, ActiveCells(l, d, Blocks(shape, d)), IntSum, 0) == ActivePoints(cps[..n], d, v)
  {
    if 0 < n {
      hide HoldsValues, IsActive, ActiveBlock;
      FoldIsActive(cps, shape, l, d, v, n - 1);
      assert cps[..n][..n - 1] == cps[..n - 1];
      if cps[n - 1].direction == d {
        ActiveByValue(cps, shape, l, d, v, n - 1);
      }
    }
  }

  lemma {:induction false} ActiveArePoints(cps: seq<CounterPoint>, shape: Shape, l: RawSourceLine, d: Direction,
                                           v: (CounterPoint, nat) -> real)
    requires IsShape(cps, shape) && DistinctBlocks(cps) && HoldsValues(cps, shape, l, d, v)
    ensures ActiveCount(l, d) == ActivePoints(cps, d, v)
  {
    hide IsShape, DistinctBlocks, ActiveBlock, ActiveBlocks, ActivePoints, IsMonoid, Fold, PointFold, HasIndex;
    var n := Blocks(shape, d);
    ValuesAreSized(cps, shape, l, d, v);
    SizedBlocks(l, shape, d);
    var c := ActiveCells(l, d, n);
    ActiveBlocksIsFold(l, d, n);
    hide HoldsValues;
    forall b: nat | b < n && !HasIndex(cps, d, b) ensures c[b] == 0 {
      IdleBlock(cps, shape, l, d, v, b);
    }
    IntSumIsMonoid();
    CellsArePoints(cps, d, c, IntSum, 0);
    FoldIsActive(cps, shape, l, d, v, |cps|);
    assert cps[..|cps|] == cps;
  }

  lemma {:induction false} ValuesAreSized(cps: seq<CounterPoint>, shape: Shape, l: RawSourceLine, d: Direction,
                                          v: (CounterPoint, nat) -> real)
    requires HoldsValues(cps, shape, l, d, v)
    ensures l.Sized(shape)
  {
  }

  lemma {:induction false} ShownValues(cps: seq<CounterPoint>, shape: Shape, rows: seq<SlotRow>, ts: int,
                                       l: RawSourceLine, d: Direction)
    requires IsShape(cps, shape) && Shows(cps, shape, rows, ts, l)
    ensures HoldsValues(cps, shape, l, d, HeldAt(rows, ts))
  {
    hide Lookup, BlockCell, RawSourceLine.Cell, RawSourceLine.Qov, HasIndex, IsShape, Shows;
    ShownIsSized(cps, shape, rows, ts, l);
    forall i, slot: nat | 0 <= i < |cps| && cps[i].direction == d && slot < Stride(d)
      ensures l.Cell(d, BlockCell(d, cps[i].sourceIdx, slot)) == ValueOr0(Lookup(rows, ts, cps[i], slot))
    {
      ShownCell(cps, shape, rows, ts, l, i, slot);
    }
    forall b, slot: nat | !HasIndex(cps, d, b) && slot < Stride(d) ensures l.Cell(d, BlockCell(d, b, slot)) == 0.0 {
      OwnerlessCell(cps, shape, rows, ts, l, d, b, slot);
    }
  }

  // ---- Lines by a key. ----

  lemma {:induction false} KeyedCount<K>(cps: seq<CounterPoint>, shape: Shape, rows: seq<SlotRow>, fs: seq<Entry>,
                                         f: int -> K, key: K, p: int -> bool, d: Direction)
    requires IsShape(cps, shape) && DistinctBlocks(cps) && AllShow(cps, shape, rows, fs)
    requires forall ts :: p(ts) <==> f(ts) == key
    ensures CountFor(Rekey(EntryPieces(fs), f), key, d) == TableCount(cps, rows, fs, p, d)
  {
    if fs != [] {
      hide IsShape, DistinctBlocks, Shows, ActiveCount, ActivePoints, HoldsValues;
      var n := |fs| - 1;
      KeyedCount(cps, shape, rows, fs[..n], f, key, p, d);
      ShownValues(cps, shape, rows, fs[n].ts, fs[n].line, d);
      ActiveArePoints(cps, shape, fs[n].line, d, HeldAt(rows, fs[n].ts));
      assert Rekey(EntryPieces(fs), f)[..n] == Rekey(EntryPieces(fs[..n]), f);
    }
  }

  // An entry of the weekly or the monthly curve counts the most metering points that are active at
  // one of its moments.
  lemma {:induction false} CurveCounts(cps: seq<CounterPoint>, shape: Shape, rows: seq<SlotRow>, fs: seq<Entry>,
                                       weekly: bool, keys: seq<(int, int)>, out: seq<ReportData>, i: nat)
    requires IsShape(cps, shape) && DistinctBlocks(cps) && Delivered(cps, shape, rows, fs)
    requires IsChart(Rekey(EntryPieces(fs), LineKey(weekly)), keys, out) && i < |out|
    ensures var p := ts => LineKey(weekly)(ts) == keys[i];
            && out[i].cntConsumer == TableCount(cps, rows, fs, p, Consumer)
            && out[i].cntProducer == TableCount(cps, rows, fs, p, Producer)
  {
    hide IsShape, DistinctBlocks, AllShow, Delivered, CountFor, TableCount, LineKey;
    DeliveredShow(cps, shape, rows, fs);
    var p := ts => LineKey(weekly)(ts) == keys[i];
    assert IsEntry(out[i], Rekey(EntryPieces(fs), LineKey(weekly)), keys[i]);
    KeyedCount(cps, shape, rows, fs, LineKey(weekly), keys[i], p, Consumer);
    KeyedCount(cps, shape, rows, fs, LineKey(weekly), keys[i], p, Producer);
    EntryFields(out[i]);
  }

  // ---- Buckets by a key. ----

  lemma {:induction false} BucketValues(cps: seq<CounterPoint>, shape: Shape, rows: seq<SlotRow>, fs: seq<Entry>,
                                        s: int, w: int, bs: seq<Bucket>, i: nat, d: Direction)
    requires 0 < w && IsShape(cps, shape) && AllShow(cps, shape, rows, fs) && IsGrouping(s, w, shape, fs, bs)
             && i < |bs|
    ensures HoldsValues(cps, shape, bs[i].line, d, HeldOver(rows, fs, bs[i].due - w, bs[i].due))
  {
    hide Label, InBucket, IntervalAmount, BlockCell, HasIndex, IsShape, ColumnSum, AllShow, RawSourceLine.Cell,
         RawSourceLine.Qov;
    var a := BucketsHaveMoments(s, w, shape, fs, bs, i);
    var mine := InBucket(s, w, fs, bs[i].due);
    assert IsTotal(bs[i].line, shape, mine);
    hide IsGrouping;
    forall k, slot: nat | 0 <= k < |cps| && cps[k].direction == d && slot < Stride(d)
      ensures bs[i].line.Cell(d, BlockCell(d, cps[k].sourceIdx, slot))
              == IntervalAmount(rows, fs, bs[i].due - w, bs[i].due, cps[k], slot)
    {
      CellInBounds(cps, shape, k, slot);
      ColumnIsInterval(cps, shape, s, w, rows, fs, bs[i].due, a, k, slot);
    }
    forall b, slot: nat | !HasIndex(cps, d, b) && slot < Stride(d)
      ensures bs[i].line.Cell(d, BlockCell(d, b, slot)) == 0.0
    {
      OwnerlessColumn(cps, shape, rows, s, w, fs, bs[i].due, d, b, slot);
      TotalCell(bs[i].line, shape, mine, d, BlockCell(d, b, slot));
    }
  }

  lemma {:induction false} TotalCell(l: RawSourceLine, shape: Shape, es: seq<Entry>, d: Direction, k: nat)
    requires IsTotal(l, shape, es)
    ensures l.Cell(d, k) == 0.0 || l.Cell(d, k) == ColumnSum(es, d, k)
  {
  }

  lemma {:induction false} OwnerlessColumn(cps: seq<CounterPoint>, shape: Shape, rows: seq<SlotRow>, s: int, w: int,
                                           fs: seq<Entry>, due: int, d: Direction, b: nat, slot: nat)
    requires 0 < w && AllShow(cps, shape, rows, fs) && !HasIndex(cps, d, b) && slot < Stride(d)
    ensures ColumnSum(InBucket(s, w, fs, due), d, BlockCell(d, b, slot)) == 0.0
  {
    if fs != [] {
      var n := |fs| - 1;
      assert Shows(cps, shape, rows, fs[n].ts, fs[n].line);
      assert AllShow(cps, shape, rows, fs[..n]);
      hide *;
      OwnerlessColumn(cps, shape, rows, s, w, fs[..n], due, d, b, slot);
      OwnerlessCell(cps, shape, rows, fs[n].ts, fs[n].line, d, b, slot);
      EmptyColumn(s, w, fs[..n], fs[n], due, d, BlockCell(d, b, slot));
      assert fs[..n] + [fs[n]] == fs;
    }
  }

  lemma {:induction false} EmptyColumn(s: int, w: int, fs: seq<Entry>, e: Entry, due: int, d: Direction, k: nat)
    requires 0 < w && ColumnSum(InBucket(s, w, fs, due), d, k) == 0.0 && e.line.Cell(d, k) == 0.0
    ensures ColumnSum(InBucket(s, w, fs + [e], due), d, k) == 0.0
  {
    hide *;
    InBucketSnoc(s, w, fs, e, due);
    ColumnSnoc(InBucket(s, w, fs, due), e, d, k);
    assert InBucket(s, w, fs, due) + [] == InBucket(s, w, fs, due);
  }

  lemma {:induction false} KeyedBuckets<K>(cps: seq<CounterPoint>, shape: Shape, rows: seq<SlotRow>, fs: seq<Entry>,
                                           s: int, w: int, bs: seq<Bucket>, n: nat, g: int -> K, key: K, d: Direction)
    requires 0 < w && IsShape(cps, shape) && DistinctBlocks(cps) && AllShow(cps, shape, rows, fs)
    requires IsGrouping(s, w, shape, fs, bs) && n <= |bs|
    ensures CountFor(Rekey(BucketPieces(bs[..n]), g), key, d) == BucketCount(cps, rows, fs, w, bs[..n], g, key, d)
  {
    hide *;
    if n == 0 {
      NoBuckets(cps, rows, fs, w, g, key, d);
      assert bs[..0] == [];
    } else {
      var b := bs[n - 1];
      KeyedBuckets(cps, shape, rows, fs, s, w, bs, n - 1, g, key, d);
      BucketValues(cps, shape, rows, fs, s, w, bs, n - 1, d);
      ActiveArePoints(cps, shape, b.line, d, HeldOver(rows, fs, b.due - w, b.due));
      NextBucketCount(cps, rows, fs, w, bs[..n - 1], b, g, key, d);
      assert bs[..n] == bs[..n - 1] + [b];
    }
  }

  lemma {:induction false} NoBuckets<K>(cps: seq<CounterPoint>, rows: seq<SlotRow>, fs: seq<Entry>, w: int, g: int -> K,
                                        key: K, d: Direction)
    ensures CountFor(Rekey(BucketPieces([]), g), key, d) == 0 == BucketCount(cps, rows, fs, w, [], g, key, d)
  {
  }

  lemma {:induction false} NextBucketCount<K>(cps: seq<CounterPoint>, rows: seq<SlotRow>, fs: seq<Entry>, w: int,
                                              bs: seq<Bucket>, b: Bucket, g: int -> K, key: K, d: Direction)
    requires CountFor(Rekey(BucketPieces(bs), g), key, d) == BucketCount(cps, rows, fs, w, bs, g, key, d)
    requires ActiveCount(b.line, d) == ActivePoints(cps, d, HeldOver(rows, fs, b.due - w, b.due))
    ensures CountFor(Rekey(BucketPieces(bs + [b]), g), key, d) == BucketCount(cps, rows, fs, w, bs + [b], g, key, d)
  {
    hide *;
    var before := CountFor(Rekey(BucketPieces(bs), g), key, d);
    PiecesSnoc(bs, b, [], Entry(0, b.line), g);
    CountSnoc(Rekey(BucketPieces(bs), g), Piece(g(b.due), b.line), key, d);
    BucketCountSnoc(cps, rows, fs, w, bs, b, g, key, d);
    MaxIsLarger(before, ActiveCount(b.line, d));
  }

  lemma {:induction false} CountSnoc<K>(ps: seq<Piece<K>>, p: Piece<K>, key: K, d: Direction)
    ensures CountFor(ps + [p], key, d) == Max(CountFor(ps, key, d), if p.key == key then ActiveCount(p.line, d) else 0)
  {
    assert (ps + [p])[..|ps|] == ps;
  }

  lemma {:induction false} MaxIsLarger(a: int, b: nat)
    ensures 0 <= a ==> Max(a, b) == (if a < b then b else a) && Max(a, 0) == a
  {
  }

  lemma {:induction false} BucketCountSnoc<K>(cps: seq<CounterPoint>, rows: seq<SlotRow>, fs: seq<Entry>, w: int,
                                              bs: seq<Bucket>, b: Bucket, g: int -> K, key: K, d: Direction)
    ensures var n := if g(b.due) == key then ActivePoints(cps, d, HeldOver(rows, fs, b.due - w, b.due)) else 0;
            var before := BucketCount(cps, rows, fs, w, bs, g, key, d);
            BucketCount(cps, rows, fs, w, bs + [b], g, key, d) == if before < n then n else before
  {
    hide ActivePoints;
    assert (bs + [b])[..|bs|] == bs;
  }

  // An entry of the load curve or of the intraday report counts the most metering points that are
  // active over one of its buckets.
  lemma {:induction false} BucketCounts<K>(cps: seq<CounterPoint>, shape: Shape, rows: seq<SlotRow>, fs: seq<Entry>,
                                           s: int, w: int, bs: seq<Bucket>, g: int -> K, keys: seq<K>,
                                           out: seq<ReportData>, i: nat)
    requires 0 < w && IsShape(cps, shape) && DistinctBlocks(cps) && Delivered(cps, shape, rows, fs)
    requires IsGrouping(s, w, shape, fs, bs) && IsChart(Rekey(BucketPieces(bs), g), keys, out) && i < |out|
    ensures out[i].cntConsumer == BucketCount(cps, rows, fs, w, bs, g, keys[i], Consumer)
    ensures out[i].cntProducer == BucketCount(cps, rows, fs, w, bs, g, keys[i], Producer)
  {
    hide IsShape, DistinctBlocks, AllShow, Delivered, CountFor, BucketCount, IsGrouping;
    DeliveredShow(cps, shape, rows, fs);
    assert bs[..|bs|] == bs;
    assert IsEntry(out[i], Rekey(BucketPieces(bs), g), keys[i]);
    KeyedBuckets(cps, shape, rows, fs, s, w, bs, |bs|, g, keys[i], Consumer);
    KeyedBuckets(cps, shape, rows, fs, s, w, bs, |bs|, g, keys[i], Producer);
    EntryFields(out[i]);
  }
}
