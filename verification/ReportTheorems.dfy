/** What the reports over one query have to do with each other. */
module ReportTheorems {
  import opened Calendar
  import opened CounterPoints
  import opened RawLine
  import opened Buckets
  import opened Tally
  import opened Loader
  import opened QueryEngine
  import opened RawQuery
  import opened Reports

  // ---- A bucket holds the totals of its lines. ----

  function EntriesSlot(es: seq<Entry>, s: Side, slot: nat, n: nat): real {
    if es == [] then 0.0 else EntriesSlot(es[..|es| - 1], s, slot, n) + SlotSum(es[|es| - 1].line, s, slot, n)
  }

  function EntriesQov(es: seq<Entry>, s: Side, n: nat): int {
    if es == [] then 1 else CalcQov(EntriesQov(es[..|es| - 1], s, n), SlotQov(es[|es| - 1].line, s, n))
  }

  lemma {:induction false} OneMoreBlock(es: seq<Entry>, s: Side, slot: nat, n: nat)
    requires 0 < n
    ensures EntriesSlot(es, s, slot, n) == EntriesSlot(es, s, slot, n - 1) + ColumnSum(es, s, BlockCell(s, n - 1, slot))
    ensures EntriesQov(es, s, n) == CalcQov(EntriesQov(es, s, n - 1), ColumnQov(es, s, BlockCell(s, n - 1, 0)))
  {
    if es != [] {
      var m := |es| - 1;
      var l := es[m].line;
      OneMoreBlock(es[..m], s, slot, n);
      var a, b, c, d := EntriesQov(es[..m], s, n - 1), ColumnQov(es[..m], s, BlockCell(s, n - 1, 0)),
        SlotQov(l, s, n - 1), l.Qov(s, BlockCell(s, n - 1, 0));
      QovLaws(a, b, CalcQov(c, d));
      QovLaws(b, c, d);
      QovLaws(c, b, d);
      QovLaws(a, c, CalcQov(b, d));
    }
  }

  lemma {:induction false} NoBlocks(es: seq<Entry>, s: Side, slot: nat)
    ensures EntriesSlot(es, s, slot, 0) == 0.0 && EntriesQov(es, s, 0) == 1
  {
    if es != [] {
      NoBlocks(es[..|es| - 1], s, slot);
    }
  }

  lemma {:induction false} TotalSlots(l: RawSourceLine, shape: Shape, es: seq<Entry>, s: Side, slot: nat, n: nat)
    requires IsTotal(l, shape, es) && n <= Blocks(shape, s) && slot < Stride(s)
    ensures SlotSum(l, s, slot, n) == EntriesSlot(es, s, slot, n)
    ensures SlotQov(l, s, n) == EntriesQov(es, s, n)
  {
    if n == 0 {
      NoBlocks(es, s, slot);
    } else {
      hide EntriesSlot, EntriesQov, ColumnSum, ColumnQov, CalcQov;
      TotalSlots(l, shape, es, s, slot, n - 1);
      OneMoreBlock(es, s, slot, n);
      assert BlockCell(s, n - 1, slot) < Width(shape, s) && BlockCell(s, n - 1, 0) < Width(shape, s);
    }
  }

  function LabelPieces(s: int, w: int, es: seq<Entry>): (ps: seq<Piece<int>>)
    requires 0 < w
    ensures |ps| == |es|
    ensures forall i :: 0 <= i < |es| ==> ps[i] == Piece(Label(s, w, es[i].ts), es[i].line)
  {
    seq(|es|, i requires 0 <= i < |es| => Piece(Label(s, w, es[i].ts), es[i].line))
  }

  lemma {:induction false} SizedMeasures(l: RawSourceLine, shape: Shape)
    requires l.Sized(shape)
    ensures forall q: Quantity :: Amount(l, q) == SlotSum(l, SideOf(q), SlotOf(q), Blocks(shape, SideOf(q)))
    ensures forall d: Side :: LineQov(l, d) == SlotQov(l, d, Blocks(shape, d))
  {
  }

  lemma {:induction false} LabelPiecesSnoc(s: int, w: int, es: seq<Entry>, e: Entry)
    requires 0 < w
    ensures LabelPieces(s, w, es + [e]) == LabelPieces(s, w, es) + [Piece(Label(s, w, e.ts), e.line)]
  {
  }

  lemma {:induction false} EntriesSnoc(es: seq<Entry>, e: Entry, s: Side, slot: nat, n: nat)
    ensures EntriesSlot(es + [e], s, slot, n) == EntriesSlot(es, s, slot, n) + SlotSum(e.line, s, slot, n)
    ensures EntriesQov(es + [e], s, n) == CalcQov(EntriesQov(es, s, n), SlotQov(e.line, s, n))
  {
    assert (es + [e])[..|es|] == es;
  }

  // Counting the lines of one bucket, once as a list and once by key.
  lemma {:induction false} BucketByKey(s: int, w: int, shape: Shape, es: seq<Entry>, due: int, q: Quantity, d: Side)
    requires 0 < w && AllSized(es, shape)
    ensures AmountFor(LabelPieces(s, w, es), due, q)
            == EntriesSlot(InBucket(s, w, es, due), SideOf(q), SlotOf(q), Blocks(shape, SideOf(q)))
    ensures QovFor(LabelPieces(s, w, es), due, d) == EntriesQov(InBucket(s, w, es, due), d, Blocks(shape, d))
  {
    if es == [] {
      assert LabelPieces(s, w, es) == [];
    } else {
      hide *;
      var n := |es| - 1;
      FirstSized(es, shape);
      BucketByKey(s, w, shape, es[..n], due, q, d);
      OneMoreLine(s, w, shape, es[..n], es[n], due, q, d);
      assert es[..n] + [es[n]] == es;
    }
  }

  lemma {:induction false} OneMoreLine(s: int, w: int, shape: Shape, es: seq<Entry>, e: Entry, due: int, q: Quantity,
                                       d: Side)
    requires 0 < w && e.line.Sized(shape)
    requires AmountFor(LabelPieces(s, w, es), due, q)
             == EntriesSlot(InBucket(s, w, es, due), SideOf(q), SlotOf(q), Blocks(shape, SideOf(q)))
    requires QovFor(LabelPieces(s, w, es), due, d) == EntriesQov(InBucket(s, w, es, due), d, Blocks(shape, d))
    ensures AmountFor(LabelPieces(s, w, es + [e]), due, q)
            == EntriesSlot(InBucket(s, w, es + [e], due), SideOf(q), SlotOf(q), Blocks(shape, SideOf(q)))
    ensures QovFor(LabelPieces(s, w, es + [e]), due, d)
            == EntriesQov(InBucket(s, w, es + [e], due), d, Blocks(shape, d))
  {
    hide *;
    LabelPiecesSnoc(s, w, es, e);
    ForSnoc(LabelPieces(s, w, es), Piece(Label(s, w, e.ts), e.line), due);
    InBucketSnoc(s, w, es, e, due);
    if Label(s, w, e.ts) == due {
      EntriesSnoc(InBucket(s, w, es, due), e, SideOf(q), SlotOf(q), Blocks(shape, SideOf(q)));
      EntriesSnoc(InBucket(s, w, es, due), e, d, 0, Blocks(shape, d));
      SizedMeasures(e.line, shape);
    } else {
      QovLaws(QovFor(LabelPieces(s, w, es), due, d), 0, 0);
      assert InBucket(s, w, es, due) + [] == InBucket(s, w, es, due);
    }
  }

  lemma {:induction false} FirstSized(es: seq<Entry>, shape: Shape)
    requires es != [] && AllSized(es, shape)
    ensures AllSized(es[..|es| - 1], shape) && es[|es| - 1].line.Sized(shape)
  {
  }

  lemma {:induction false} BucketTotals(s: int, w: int, shape: Shape, es: seq<Entry>, b: Bucket, q: Quantity, d: Side)
    requires 0 < w && AllSized(es, shape)
    requires IsTotal(b.line, shape, InBucket(s, w, es, b.due))
    ensures Amount(b.line, q) == AmountFor(LabelPieces(s, w, es), b.due, q)
    ensures LineQov(b.line, d) == QovFor(LabelPieces(s, w, es), b.due, d)
  {
    hide Label, AmountFor, QovFor, InBucket, IsTotal, Amount, LineQov;
    var mine := InBucket(s, w, es, b.due);
    BucketByKey(s, w, shape, es, b.due, q, d);
    TotalSlots(b.line, shape, mine, SideOf(q), SlotOf(q), Blocks(shape, SideOf(q)));
    TotalSlots(b.line, shape, mine, d, 0, Blocks(shape, d));
    TotalIsSized(b.line, shape, mine);
    SizedMeasures(b.line, shape);
  }

  lemma {:induction false} TotalIsSized(l: RawSourceLine, shape: Shape, es: seq<Entry>)
    requires IsTotal(l, shape, es)
    ensures l.Sized(shape)
  {
  }

  lemma {:induction false} GroupingTotals(s: int, w: int, shape: Shape, es: seq<Entry>, bs: seq<Bucket>)
    requires 0 < w && AllSized(es, shape)
    requires IsGrouping(s, w, shape, es, bs)
    ensures Totals(BucketPieces(bs), LabelPieces(s, w, es))
  {
    hide Label, AmountFor, QovFor, InBucket, IsTotal, Amount, LineQov;
    var rs, ps := BucketPieces(bs), LabelPieces(s, w, es);
    forall i | 0 <= i < |ps| ensures HasKey(rs, ps[i].key) {
      assert HasLabel(bs, Label(s, w, es[i].ts));
      var j :| 0 <= j < |bs| && bs[j].due == Label(s, w, es[i].ts);
      assert rs[j].key == ps[i].key;
    }
    forall i, q: Quantity | 0 <= i < |rs| ensures Amount(rs[i].line, q) == AmountFor(ps, rs[i].key, q) {
      BucketTotals(s, w, shape, es, bs[i], q, Consumer);
    }
    forall i, d: Side | 0 <= i < |rs| ensures LineQov(rs[i].line, d) == QovFor(ps, rs[i].key, d) {
      BucketTotals(s, w, shape, es, bs[i], Consumed, d);
    }
  }

  // ---- All reports agree. ----

  function SumOf(out: seq<ReportData>, q: Quantity): real {
    if out == [] then 0.0 else SumOf(out[..|out| - 1], q) + out[|out| - 1].Of(q)
  }

  function SumUnused(out: seq<ReportData>): real {
    if out == [] then 0.0 else SumUnused(out[..|out| - 1]) + out[|out| - 1].unused
  }

  lemma {:induction false} SumOfEntries<K>(ps: seq<Piece<K>>, keys: seq<K>, out: seq<ReportData>, q: Quantity)
    requires |out| == |keys| && forall i :: 0 <= i < |out| ==> IsEntry(out[i], ps, keys[i])
    ensures SumOf(out, q) == SumFor(keys, ps, q)
  {
    if out != [] {
      SumOfEntries(ps, keys[..|out| - 1], out[..|out| - 1], q);
    }
  }

  lemma {:induction false} ChartSum<K>(ps: seq<Piece<K>>, keys: seq<K>, out: seq<ReportData>, q: Quantity)
    requires IsChart(ps, keys, out)
    ensures SumOf(out, q) == AmountOfAll(ps, q)
  {
    SumOfEntries(ps, keys, out, q);
    EntriesSumToAll(keys, ps, q);
  }

  lemma {:induction false} AllIsOneKey<J>(ps: seq<Piece<J>>, f: J -> int, q: Quantity)
    requires forall j: J :: f(j) == 0
    ensures AmountFor(Rekey(ps, f), 0, q) == AmountOfAll(ps, q)
  {
    if ps != [] {
      var n := |ps| - 1;
      AllIsOneKey(ps[..n], f, q);
      assert Rekey(ps, f)[..n] == Rekey(ps[..n], f);
    }
  }

  lemma {:induction false} AllIgnoresKeys<J, K>(ps: seq<Piece<J>>, rs: seq<Piece<K>>, q: Quantity)
    requires |ps| == |rs| && forall i :: 0 <= i < |ps| ==> ps[i].line == rs[i].line
    ensures AmountOfAll(ps, q) == AmountOfAll(rs, q)
  {
    if ps != [] {
      AllIgnoresKeys(ps[..|ps| - 1], rs[..|ps| - 1], q);
    }
  }

  // Bucketing first, by any width and any key, keeps the total.
  lemma {:induction false} BucketsKeepTotal<K>(s: int, w: int, shape: Shape, es: seq<Entry>, bs: seq<Bucket>,
                                               f: int -> K, q: Quantity)
    requires 0 < w && AllSized(es, shape)
    requires IsGrouping(s, w, shape, es, bs)
    ensures AmountOfAll(Rekey(BucketPieces(bs), f), q) == AmountOfAll(EntryPieces(es), q)
  {
    hide Label, IsGrouping;
    GroupingTotals(s, w, shape, es, bs);
    RegroupAmount(BucketPieces(bs), LabelPieces(s, w, es), Whole, 0, q);
    AllIsOneKey(BucketPieces(bs), Whole, q);
    AllIsOneKey(LabelPieces(s, w, es), Whole, q);
    AllIgnoresKeys(Rekey(BucketPieces(bs), f), BucketPieces(bs), q);
    AllIgnoresKeys(LabelPieces(s, w, es), EntryPieces(es), q);
  }

  // Consumed, allocated, distributed and produced energy: the 24 hours, the days, the weeks and
  // the months each add up to the summary.
  lemma {:induction false} ReportsAgree(ctx: EngineContext, fs: seq<Entry>, zone: int, q: Quantity,
                     hours: seq<ReportData>, hourBuckets: seq<Bucket>,
                     days: seq<ReportData>, dayKeys: seq<Date>, dayBuckets: seq<Bucket>,
                     weeks: seq<ReportData>, weekKeys: seq<(int, int)>,
                     months: seq<ReportData>, monthKeys: seq<(int, int)>,
                     summary: ReportData)
    requires AllSized(fs, ctx.shape)
    requires IsGrouping(ctx.start, 60, ctx.shape, fs, hourBuckets)
             && IsChart(Rekey(BucketPieces(hourBuckets), HourOf(zone)), HOURS, hours)
    requires IsGrouping(ctx.start, DAY, ctx.shape, fs, dayBuckets)
             && IsChart(Rekey(BucketPieces(dayBuckets), DayEnding), dayKeys, days)
    requires IsChart(Rekey(EntryPieces(fs), LineKey(true)), weekKeys, weeks)
    requires IsChart(Rekey(EntryPieces(fs), LineKey(false)), monthKeys, months)
    requires SumsUp(summary, fs)
    ensures SumOf(hours, q) == SumOf(days, q) == SumOf(weeks, q) == SumOf(months, q) == summary.Of(q)
  {
    hide IsGrouping, IsChart, HourOf, DayEnding, LineKey;
    BucketsKeepTotal(ctx.start, 60, ctx.shape, fs, hourBuckets, HourOf(zone), q);
    ChartSum(Rekey(BucketPieces(hourBuckets), HourOf(zone)), HOURS, hours, q);
    BucketsKeepTotal(ctx.start, DAY, ctx.shape, fs, dayBuckets, DayEnding, q);
    ChartSum(Rekey(BucketPieces(dayBuckets), DayEnding), dayKeys, days, q);
    AllIgnoresKeys(Rekey(EntryPieces(fs), LineKey(true)), EntryPieces(fs), q);
    ChartSum(Rekey(EntryPieces(fs), LineKey(true)), weekKeys, weeks, q);
    AllIgnoresKeys(Rekey(EntryPieces(fs), LineKey(false)), EntryPieces(fs), q);
    ChartSum(Rekey(EntryPieces(fs), LineKey(false)), monthKeys, months, q);
  }

  // ---- The surplus only grows when the periods get finer. ----

  // A chart never reports less surplus than the clipped difference of its totals.
  lemma {:induction false} SurplusAtLeastNet(out: seq<ReportData>)
    requires ShowsSurplus(out)
    ensures SumUnused(out) >= Max0(SumOf(out, Produced) - SumOf(out, Distributed))
  {
    if out != [] {
      SurplusAtLeastNet(out[..|out| - 1]);
    }
  }

  function Net<K(==)>(ps: seq<Piece<K>>, key: K): real {
    AmountFor(ps, key, Produced) - AmountFor(ps, key, Distributed)
  }

  function ClippedSum<K(==)>(keys: seq<K>, ps: seq<Piece<K>>): real {
    if keys == [] then 0.0 else ClippedSum(keys[..|keys| - 1], ps) + Max0(Net(ps, keys[|keys| - 1]))
  }

  lemma {:induction false} UnusedIsClippedSum<K>(ps: seq<Piece<K>>, keys: seq<K>, out: seq<ReportData>)
    requires |out| == |keys| && forall i :: 0 <= i < |out| ==> IsEntry(out[i], ps, keys[i])
    ensures SumUnused(out) == ClippedSum(keys, ps)
  {
    if out != [] {
      var n := |out| - 1;
      UnusedIsClippedSum(ps, keys[..n], out[..n]);
      assert IsEntry(out[n], ps, keys[n]);
      assert out[n].Of(Produced) == out[n].produced && out[n].Of(Distributed) == out[n].distributed;
    }
  }

  // The net of the fine keys in `fine` that map to a coarse key.
  function CoarseNet<J(==), K(==)>(fine: seq<J>, ps: seq<Piece<J>>, f: J -> K, key: K): real {
    CoarseSum(fine, ps, f, key, Produced) - CoarseSum(fine, ps, f, key, Distributed)
  }

  function ClippedCoarse<J(==), K(==)>(coarse: seq<K>, fine: seq<J>, ps: seq<Piece<J>>, f: J -> K): real {
    if coarse == [] then 0.0 else
    ClippedCoarse(coarse[..|coarse| - 1], fine, ps, f) + Max0(CoarseNet(fine, ps, f, coarse[|coarse| - 1]))
  }

  // One more fine key raises the clipped coarse sums by no more than its own clipped net.
  lemma {:induction false} OneMoreFineKey<J, K>(coarse: seq<K>, fine: seq<J>, last: J, ps: seq<Piece<J>>, f: J -> K)
    requires Distinct(coarse)
    ensures ClippedCoarse(coarse, fine + [last], ps, f) <= ClippedCoarse(coarse, fine, ps, f) + Max0(Net(ps, last))
    ensures f(last) !in coarse ==> ClippedCoarse(coarse, fine + [last], ps, f) == ClippedCoarse(coarse, fine, ps, f)
  {
    if coarse != [] {
      var n := |coarse| - 1;
      OneMoreFineKey(coarse[..n], fine, last, ps, f);
      assert (fine + [last])[..|fine|] == fine;
      assert f(last) in coarse <==> f(last) in coarse[..n] || f(last) == coarse[n];
    }
  }

  lemma {:induction false} ClippedNothing<J, K>(coarse: seq<K>, ps: seq<Piece<J>>, f: J -> K)
    ensures ClippedCoarse(coarse, [], ps, f) == 0.0
  {
    if coarse != [] {
      ClippedNothing(coarse[..|coarse| - 1], ps, f);
    }
  }

  lemma {:induction false} CoarseClipsLess<J, K>(coarse: seq<K>, fine: seq<J>, ps: seq<Piece<J>>, f: J -> K)
    requires Distinct(coarse)
    ensures ClippedCoarse(coarse, fine, ps, f) <= ClippedSum(fine, ps)
  {
    if fine == [] {
      ClippedNothing(coarse, ps, f);
    } else {
      var n := |fine| - 1;
      CoarseClipsLess(coarse, fine[..n], ps, f);
      OneMoreFineKey(coarse, fine[..n], fine[n], ps, f);
      assert fine[..n] + [fine[n]] == fine;
    }
  }

  lemma {:induction false} ClippedCoarseIsSum<J, K>(coarse: seq<K>, fine: seq<J>, ps: seq<Piece<J>>, f: J -> K,
                                                    rs: seq<Piece<K>>)
    requires Distinct(fine) && Covers(fine, ps)
    requires forall k, q: Quantity {:trigger AmountFor(rs, k, q)} :: k in coarse ==>
               AmountFor(rs, k, q) == AmountFor(Rekey(ps, f), k, q)
    ensures ClippedSum(coarse, rs) == ClippedCoarse(coarse, fine, ps, f)
  {
    if coarse != [] {
      var n := |coarse| - 1;
      ClippedCoarseIsSum(coarse[..n], fine, ps, f, rs);
      CoarseSumIsAmount(fine, ps, f, coarse[n], Produced);
      CoarseSumIsAmount(fine, ps, f, coarse[n], Distributed);
    }
  }

  function MonthOfDate(d: Date): (int, int) {
    (d.year, d.month)
  }

  function MonthEnding(due: int): (int, int) {
    MonthOfDate(DayEnding(due))
  }

  // A day's bucket and its lines are in the same month.
  lemma {:induction false} DayBucketMonth(start: int, ts: int)
    requires start % DAY == 0
    ensures MonthEnding(Label(start, DAY, ts)) == MonthAt(ts)
  {
    LabelBounds(start, DAY, ts);
    assert Label(start, DAY, ts) % DAY == 0;
    assert DayOf(Label(start, DAY, ts) - DAY) == DayOf(ts);
  }

  // The month chart's amounts are the day chart's, regrouped by month.
  lemma {:induction false} MonthsRegroupDays(ctx: EngineContext, fs: seq<Entry>, bs: seq<Bucket>, key: (int, int),
                                             q: Quantity)
    requires ctx.start % DAY == 0 && AllSized(fs, ctx.shape)
    requires IsGrouping(ctx.start, DAY, ctx.shape, fs, bs)
    ensures AmountFor(Rekey(EntryPieces(fs), LineKey(false)), key, q)
            == AmountFor(Rekey(Rekey(BucketPieces(bs), DayEnding), MonthOfDate), key, q)
  {
    hide DayEnding, MonthAt, IsGrouping, AmountFor;
    GroupingTotals(ctx.start, DAY, ctx.shape, fs, bs);
    RegroupAmount(BucketPieces(bs), LabelPieces(ctx.start, DAY, fs), MonthEnding, key, q);
    assert Rekey(Rekey(BucketPieces(bs), DayEnding), MonthOfDate) == Rekey(BucketPieces(bs), MonthEnding);
    forall i | 0 <= i < |fs| ensures MonthEnding(Label(ctx.start, DAY, fs[i].ts)) == MonthAt(fs[i].ts) {
      DayBucketMonth(ctx.start, fs[i].ts);
    }
    assert Rekey(LabelPieces(ctx.start, DAY, fs), MonthEnding) == Rekey(EntryPieces(fs), LineKey(false));
  }

  // Reported surplus: days show at least as much as months, and months at least the clipped
  // difference of the summary.
  lemma {:induction false} SurplusGrowsWithDetail(ctx: EngineContext, fs: seq<Entry>, bs: seq<Bucket>,
                               days: seq<ReportData>, dayKeys: seq<Date>,
                               months: seq<ReportData>, monthKeys: seq<(int, int)>, summary: ReportData)
    requires ctx.start % DAY == 0 && AllSized(fs, ctx.shape)
    requires IsGrouping(ctx.start, DAY, ctx.shape, fs, bs) && IsChart(Rekey(BucketPieces(bs), DayEnding), dayKeys, days)
    requires IsChart(Rekey(EntryPieces(fs), LineKey(false)), monthKeys, months)
    requires SumsUp(summary, fs)
    ensures SumUnused(days) >= SumUnused(months) >= Max0(summary.produced - summary.distributed)
  {
    hide IsGrouping, DayEnding, LineKey, AmountFor;
    var dayPieces, monthPieces := Rekey(BucketPieces(bs), DayEnding), Rekey(EntryPieces(fs), LineKey(false));
    UnusedIsClippedSum(dayPieces, dayKeys, days);
    UnusedIsClippedSum(monthPieces, monthKeys, months);
    forall k, q: Quantity ensures AmountFor(monthPieces, k, q) == AmountFor(Rekey(dayPieces, MonthOfDate), k, q) {
      MonthsRegroupDays(ctx, fs, bs, k, q);
    }
    ClippedCoarseIsSum(monthKeys, dayKeys, dayPieces, MonthOfDate, monthPieces);
    CoarseClipsLess(monthKeys, dayKeys, dayPieces, MonthOfDate);
    SurplusAtLeastNet(months);
    forall q: Quantity ensures SumOf(months, q) == summary.Of(q) {
      ChartSum(monthPieces, monthKeys, months, q);
      AllIgnoresKeys(monthPieces, EntryPieces(fs), q);
    }
    assert summary.Of(Produced) == summary.produced && summary.Of(Distributed) == summary.distributed;
  }

  // ---- Quality does not depend on the bucketing. ----

  // The quality of an hour, day or any other group of buckets is the one-level join over the
  // group's lines.
  lemma {:induction false} BucketedQovIsLineQov<K>(s: int, w: int, shape: Shape, fs: seq<Entry>, bs: seq<Bucket>,
                                                   f: int -> K, key: K,
                                rd: ReportData, d: Side)
    requires 0 < w && AllSized(fs, shape)
    requires IsGrouping(s, w, shape, fs, bs) && IsEntry(rd, Rekey(BucketPieces(bs), f), key)
    ensures rd.QovOf(d) == CalcQov(0, QovFor(Rekey(LabelPieces(s, w, fs), f), key, d))
  {
    hide IsGrouping, Label;
    GroupingTotals(s, w, shape, fs, bs);
    RegroupQov(BucketPieces(bs), LabelPieces(s, w, fs), f, key, d);
  }

  // ---- Filled gaps are invisible. ----

  // Entries with the same measures are the same entry.
  lemma {:induction false} SameEntry<K>(a: ReportData, b: ReportData, ps: seq<Piece<K>>, fs: seq<Piece<K>>, key: K)
    requires IsEntry(a, ps, key) && IsEntry(b, fs, key)
    requires PaddedWith(ps, fs)
    ensures a == b
  {
    PaddingChangesNothing(ps, fs, key);
    assert a.Of(Consumed) == b.Of(Consumed) && a.Of(Allocated) == b.Of(Allocated);
    assert a.Of(Distributed) == b.Of(Distributed) && a.Of(Produced) == b.Of(Produced);
    assert a.QovOf(Consumer) == b.QovOf(Consumer) && a.QovOf(Producer) == b.QovOf(Producer);
    assert a.CountOf(Consumer) == b.CountOf(Consumer) && a.CountOf(Producer) == b.CountOf(Producer);
  }

  lemma {:induction false} PaddingKeepsKeys<K>(ps: seq<Piece<K>>, fs: seq<Piece<K>>, key: K)
    requires PaddedWith(ps, fs) && HasKey(ps, key)
    ensures HasKey(fs, key)
  {
    hide SameCells;
    var i :| 0 <= i < |ps| && ps[i].key == key;
    if fs != [] {
      var n := |fs| - 1;
      var kept := PaddedEnd(ps, fs);
      if kept && i == |ps| - 1 {
        assert fs[n].key == key;
      } else {
        var bare := if kept then ps[..|ps| - 1] else ps;
        assert bare[i].key == key;
        PaddingKeepsKeys(bare, fs[..n], key);
        HasKeySnoc(fs[..n], fs[n], key);
      }
    }
  }

  // A chart over a padded stream has every entry of the chart over the bare stream, unchanged,
  // and its other entries are zero.
  lemma {:induction false} PaddedChart<K>(ps: seq<Piece<K>>, keys: seq<K>, out: seq<ReportData>,
                       fs: seq<Piece<K>>, keysF: seq<K>, outF: seq<ReportData>)
    requires PaddedWith(ps, fs)
    requires IsChart(ps, keys, out) && IsChart(fs, keysF, outF)
    requires forall i :: 0 <= i < |keys| ==> HasKey(ps, keys[i]) || keys == keysF
    ensures forall i :: 0 <= i < |keys| ==> exists j :: 0 <= j < |keysF| && keysF[j] == keys[i] && outF[j] == out[i]
    ensures forall j :: 0 <= j < |keysF| && keysF[j] !in keys ==> outF[j] == NOTHING
  {
    forall i | 0 <= i < |keys| ensures exists j :: 0 <= j < |keysF| && keysF[j] == keys[i] && outF[j] == out[i] {
      if keys == keysF {
        SameEntry(out[i], outF[i], ps, fs, keys[i]);
        assert keysF[i] == keys[i] && outF[i] == out[i];
      } else {
        PaddingKeepsKeys(ps, fs, keys[i]);
        var n :| 0 <= n < |fs| && fs[n].key == keys[i];
        assert fs[n].key in keysF;
        var j :| 0 <= j < |keysF| && keysF[j] == keys[i];
        SameEntry(out[i], outF[j], ps, fs, keys[i]);
      }
    }
    forall j | 0 <= j < |keysF| && keysF[j] !in keys ensures outF[j] == NOTHING {
      assert !HasKey(ps, keysF[j]);
      NothingEntry(ps, keysF[j]);
      SameEntry(NOTHING, outF[j], ps, fs, keysF[j]);
    }
  }

  lemma {:induction false} SameLineCells(l: RawSourceLine)
    ensures SameCells(l, l)
  {
  }

  // Charts over lines: filling the gaps pads the pieces.
  lemma {:induction false} PaddedLines<K>(es: seq<Entry>, fs: seq<Entry>, shape: Shape, f: int -> K)
    requires Padding(es, fs, shape)
    ensures PaddedWith(Rekey(EntryPieces(es), f), Rekey(EntryPieces(fs), f))
  {
    if fs == [] {
      assert Rekey(EntryPieces(es), f) == [] && Rekey(EntryPieces(fs), f) == [];
    } else {
      hide PaddedWith, SameCells, Padding;
      var n := |fs| - 1;
      var last := Piece(f(fs[n].ts), fs[n].line);
      var kept := PaddingEnd(es, fs, shape);
      var bare := if kept then es[..|es| - 1] else es;
      PaddedLines(bare, fs[..n], shape, f);
      PiecesSnoc([], Bucket(0, fs[n].line), fs[..n], fs[n], f);
      PiecesSnoc([], Bucket(0, fs[n].line), bare, fs[n], f);
      SameLineCells(fs[n].line);
      PaddedPush(Rekey(EntryPieces(bare), f), Rekey(EntryPieces(fs[..n]), f), last, last);
    }
  }

  lemma {:induction false} ColumnSnoc(es: seq<Entry>, e: Entry, d: Side, i: nat)
    ensures ColumnSum(es + [e], d, i) == ColumnSum(es, d, i) + e.line.Cell(d, i)
    ensures ColumnQov(es + [e], d, i) == CalcQov(ColumnQov(es, d, i), e.line.Qov(d, i))
  {
    assert (es + [e])[..|es|] == es;
  }

  lemma {:induction false} PaddedColumns(s: int, w: int, es: seq<Entry>, fs: seq<Entry>, shape: Shape, due: int,
                                         d: Side,
                                         i: nat)
    requires 0 < w && Padding(es, fs, shape)
    ensures ColumnSum(InBucket(s, w, fs, due), d, i) == ColumnSum(InBucket(s, w, es, due), d, i)
    ensures ColumnQov(InBucket(s, w, fs, due), d, i) == ColumnQov(InBucket(s, w, es, due), d, i)
  {
    if fs != [] {
      hide *;
      var n := |fs| - 1;
      var kept := PaddingEnd(es, fs, shape);
      var bare := if kept then es[..|es| - 1] else es;
      PaddedColumns(s, w, bare, fs[..n], shape, due, d, i);
      ColumnsNext(s, w, fs[..n], fs[n], due, d, i);
      if kept {
        ColumnsNext(s, w, bare, fs[n], due, d, i);
      }
    }
  }

  // The columns of a bucket after one more line; an empty line changes none.
  lemma {:induction false} ColumnsNext(s: int, w: int, es: seq<Entry>, e: Entry, due: int, d: Side, i: nat)
    requires 0 < w
    ensures var mine, next := InBucket(s, w, es, due), InBucket(s, w, es + [e], due);
            if Label(s, w, e.ts) == due && !e.line.Empty() then
              ColumnSum(next, d, i) == ColumnSum(mine, d, i) + e.line.Cell(d, i)
              && ColumnQov(next, d, i) == CalcQov(ColumnQov(mine, d, i), e.line.Qov(d, i))
            else ColumnSum(next, d, i) == ColumnSum(mine, d, i) && ColumnQov(next, d, i) == ColumnQov(mine, d, i)
  {
    hide Label, ColumnSum, ColumnQov, InBucket, CalcQov;
    var mine := InBucket(s, w, es, due);
    InBucketSnoc(s, w, es, e, due);
    ColumnSnoc(mine, e, d, i);
    assert mine + [] == mine;
    QovLaws(ColumnQov(mine, d, i), 0, 0);
  }

  lemma {:induction false} PaddedTouches(s: int, w: int, es: seq<Entry>, fs: seq<Entry>, shape: Shape, j: nat)
    requires 0 < w && Padding(es, fs, shape) && j < |es|
    ensures Touched(s, w, fs, Label(s, w, es[j].ts))
  {
    hide Label;
    PaddingKeeps(es, fs, shape, j);
    var i :| 0 <= i < |fs| && fs[i].ts == es[j].ts;
    assert Label(s, w, fs[i].ts) == Label(s, w, es[j].ts);
  }

  ghost predicate InOrder(bs: seq<Bucket>) {
    forall i, j :: 0 <= i < j < |bs| ==> bs[i].due < bs[j].due
  }

  // Each bucket of cs either has the cells of the bucket of bs at its moment or is empty.
  ghost predicate Extends(bs: seq<Bucket>, cs: seq<Bucket>) {
    && (forall i :: 0 <= i < |bs| ==> HasLabel(cs, bs[i].due))
    && (forall i, j :: 0 <= i < |bs| && 0 <= j < |cs| && bs[i].due == cs[j].due ==> SameCells(bs[i].line, cs[j].line))
    && (forall j :: 0 <= j < |cs| && !HasLabel(bs, cs[j].due) ==> cs[j].line.Empty())
  }

  lemma {:induction false} PaddedBuckets<K>(bs: seq<Bucket>, cs: seq<Bucket>, f: int -> K)
    requires InOrder(bs) && InOrder(cs) && Extends(bs, cs)
    ensures PaddedWith(Rekey(BucketPieces(bs), f), Rekey(BucketPieces(cs), f))
  {
    hide *;
    if bs != [] {
      SomeBucket(bs, cs);
    }
    if cs == [] {
      NoPadding(f);
    } else {
      var n, m := |cs| - 1, |bs| - 1;
      var none := Entry(0, cs[n].line);
      var last := Piece(f(cs[n].due), cs[n].line);
      LastBucket(bs, cs);
      assert cs[..n] + [cs[n]] == cs;
      PiecesSnoc(cs[..n], cs[n], [], none, f);
      if bs != [] && bs[m].due == cs[n].due {
        PaddedBuckets(bs[..m], cs[..n], f);
        assert bs[..m] + [bs[m]] == bs;
        PiecesSnoc(bs[..m], bs[m], [], none, f);
        PaddedPush(Rekey(BucketPieces(bs[..m]), f), Rekey(BucketPieces(cs[..n]), f), Piece(f(bs[m].due), bs[m].line),
                   last);
      } else {
        PaddedBuckets(bs, cs[..n], f);
        PaddedPush(Rekey(BucketPieces(bs), f), Rekey(BucketPieces(cs[..n]), f), last, last);
      }
    }
  }

  lemma {:induction false} NoPadding<K>(f: int -> K)
    ensures PaddedWith(Rekey(BucketPieces([]), f), Rekey(BucketPieces([]), f))
  {
  }

  lemma {:induction false} SomeBucket(bs: seq<Bucket>, cs: seq<Bucket>)
    requires bs != [] && Extends(bs, cs)
    ensures cs != []
  {
    var d := bs[0].due;
    assert HasLabel(cs, d);
    var j :| 0 <= j < |cs| && cs[j].due == d;
  }

  // Taking the last bucket away: from both lists when they have it in common, else from cs only.
  lemma {:induction false} LastBucket(bs: seq<Bucket>, cs: seq<Bucket>)
    requires InOrder(bs) && InOrder(cs) && Extends(bs, cs) && cs != []
    ensures var n, m := |cs| - 1, |bs| - 1;
            if bs != [] && bs[m].due == cs[n].due then SameCells(bs[m].line, cs[n].line) && Extends(bs[..m], cs[..n])
            else cs[n].line.Empty() && Extends(bs, cs[..n])
    ensures InOrder(cs[..|cs| - 1]) && (bs != [] ==> InOrder(bs[..|bs| - 1]))
  {
    hide SameCells, HasLabel;
    var n, m := |cs| - 1, |bs| - 1;
    if bs != [] && bs[m].due == cs[n].due {
      KeepLabels(bs[..m], bs, cs, n);
      KeepCells(bs[..m], bs, cs, n);
    } else {
      NotInShorter(bs, cs);
      KeepLabels(bs, bs, cs, n);
      KeepCells(bs, bs, cs, n);
    }
  }

  lemma {:induction false} NotInShorter(bs: seq<Bucket>, cs: seq<Bucket>)
    requires InOrder(bs) && InOrder(cs) && cs != []
    requires forall i :: 0 <= i < |bs| ==> HasLabel(cs, bs[i].due)
    requires bs == [] || bs[|bs| - 1].due != cs[|cs| - 1].due
    ensures !HasLabel(bs, cs[|cs| - 1].due)
    ensures forall i :: 0 <= i < |bs| ==> bs[i].due != cs[|cs| - 1].due
  {
    if bs != [] {
      assert HasLabel(cs, bs[|bs| - 1].due);
    }
  }

  lemma {:induction false} KeepCells(ds: seq<Bucket>, bs: seq<Bucket>, cs: seq<Bucket>, n: nat)
    requires n <= |cs| && ds <= bs
    requires Extends(bs, cs)
    ensures forall i, j :: 0 <= i < |ds| && 0 <= j < n && ds[i].due == cs[..n][j].due ==>
              SameCells(ds[i].line, cs[..n][j].line)
  {
    hide SameCells;
  }

  lemma {:induction false} KeepLabels(ds: seq<Bucket>, bs: seq<Bucket>, cs: seq<Bucket>, n: nat)
    requires n == |cs| - 1 && ds <= bs
    requires InOrder(cs)
    requires forall i :: 0 <= i < |bs| ==> HasLabel(cs, bs[i].due)
    requires forall i :: 0 <= i < |ds| ==> ds[i].due != cs[n].due
    requires forall i :: |ds| <= i < |bs| ==> bs[i].due == cs[n].due
    ensures forall i :: 0 <= i < |ds| ==> HasLabel(cs[..n], ds[i].due)
    ensures forall j :: 0 <= j < n && !HasLabel(ds, cs[..n][j].due) ==> !HasLabel(bs, cs[j].due)
  {
    forall i | 0 <= i < |ds| ensures HasLabel(cs[..n], ds[i].due) {
      assert ds[i] == bs[i];
      var j :| 0 <= j < |cs| && cs[j].due == bs[i].due;
      assert cs[..n][j].due == ds[i].due;
    }
    forall j | 0 <= j < n && HasLabel(bs, cs[j].due) ensures HasLabel(ds, cs[..n][j].due) {
      var i :| 0 <= i < |bs| && bs[i].due == cs[j].due;
      assert ds[i].due == cs[j].due;
    }
  }

  // Charts over buckets: filling the gaps adds empty buckets and changes no other.
  lemma {:induction false} PaddedGroupings<K>(s: int, w: int, shape: Shape, es: seq<Entry>, fs: seq<Entry>,
                                              bs: seq<Bucket>, cs: seq<Bucket>, f: int -> K)
    requires 0 < w && Padding(es, fs, shape)
    requires IsGrouping(s, w, shape, es, bs) && IsGrouping(s, w, shape, fs, cs)
    ensures PaddedWith(Rekey(BucketPieces(bs), f), Rekey(BucketPieces(cs), f))
  {
    hide Label, Padding, InBucket, IsTotal, PaddedWith, Extends;
    FilledBuckets(s, w, shape, es, fs, bs, cs);
    PaddedBuckets(bs, cs, f);
  }

  lemma {:induction false} SameBucketCells(s: int, w: int, shape: Shape, es: seq<Entry>, fs: seq<Entry>, due: int,
                                           l: RawSourceLine, m: RawSourceLine)
    requires 0 < w && Padding(es, fs, shape)
    requires IsTotal(l, shape, InBucket(s, w, es, due)) && IsTotal(m, shape, InBucket(s, w, fs, due))
    ensures SameCells(l, m)
  {
    forall d: Side, i: nat ensures l.Cell(d, i) == m.Cell(d, i) && l.Qov(d, i) == m.Qov(d, i) {
      PaddedColumns(s, w, es, fs, shape, due, d, i);
      if i < Width(shape, d) {
        assert l.Cell(d, i) == ColumnSum(InBucket(s, w, es, due), d, i);
      }
    }
  }

  lemma {:induction false} EmptyBucket(s: int, w: int, shape: Shape, es: seq<Entry>, fs: seq<Entry>, due: int,
                                       bs: seq<Bucket>, m: RawSourceLine)
    requires 0 < w && Padding(es, fs, shape)
    requires IsGrouping(s, w, shape, es, bs) && !HasLabel(bs, due)
    requires IsTotal(m, shape, InBucket(s, w, fs, due))
    ensures m.Empty()
  {
    hide Label;
    assert !Touched(s, w, es, due) by {
      forall i | 0 <= i < |es| ensures Label(s, w, es[i].ts) != due {
        assert HasLabel(bs, Label(s, w, es[i].ts));
      }
    }
    NoLateLines(s, w, es, due);
    forall d: Side, i: nat ensures m.Cell(d, i) == 0.0 && m.Qov(d, i) == 1 {
      PaddedColumns(s, w, es, fs, shape, due, d, i);
      if i < Width(shape, d) {
        assert m.Cell(d, i) == ColumnSum(InBucket(s, w, fs, due), d, i);
      }
    }
  }

  // Running the day chart over the filled stream or over the bare one gives the same entries;
  // the filled run only adds days that are all zero.
  lemma {:induction false} GapFillInvisibleInDays(ctx: EngineContext, es: seq<Entry>, bs: seq<Bucket>, keys: seq<Date>,
                                                  out: seq<ReportData>, cs: seq<Bucket>, keysF: seq<Date>,
                                                    outF: seq<ReportData>)
    requires IsGrouping(ctx.start, DAY, ctx.shape, es, bs) && IsChart(Rekey(BucketPieces(bs), DayEnding), keys, out)
    requires forall i :: 0 <= i < |keys| ==> HasKey(Rekey(BucketPieces(bs), DayEnding), keys[i])
    requires IsGrouping(ctx.start, DAY, ctx.shape, Fill(es, ctx.shape), cs)
             && IsChart(Rekey(BucketPieces(cs), DayEnding), keysF, outF)
    ensures forall i :: 0 <= i < |keys| ==> exists j :: 0 <= j < |keysF| && keysF[j] == keys[i] && outF[j] == out[i]
    ensures forall j :: 0 <= j < |keysF| && keysF[j] !in keys ==> outF[j] == NOTHING
  {
    hide IsGrouping, Fill, DayEnding, IsEntry;
    FillIsPadding(es, ctx.shape);
    PaddedGroupings(ctx.start, DAY, ctx.shape, es, Fill(es, ctx.shape), bs, cs, DayEnding);
    PaddedChart(Rekey(BucketPieces(bs), DayEnding), keys, out, Rekey(BucketPieces(cs), DayEnding), keysF, outF);
  }

  lemma {:induction false} GapFillInvisibleInHours(ctx: EngineContext, es: seq<Entry>, zone: int, bs: seq<Bucket>,
                                                   out: seq<ReportData>, cs: seq<Bucket>, outF: seq<ReportData>)
    requires IsGrouping(ctx.start, 60, ctx.shape, es, bs) && IsChart(Rekey(BucketPieces(bs), HourOf(zone)), HOURS, out)
    requires IsGrouping(ctx.start, 60, ctx.shape, Fill(es, ctx.shape), cs)
             && IsChart(Rekey(BucketPieces(cs), HourOf(zone)), HOURS, outF)
    ensures outF == out
  {
    hide IsGrouping, Fill, HourOf, IsEntry;
    var ps, qs := Rekey(BucketPieces(bs), HourOf(zone)), Rekey(BucketPieces(cs), HourOf(zone));
    FillIsPadding(es, ctx.shape);
    PaddedGroupings(ctx.start, 60, ctx.shape, es, Fill(es, ctx.shape), bs, cs, HourOf(zone));
    forall i | 0 <= i < |out| ensures out[i] == outF[i] {
      SameEntry(out[i], outF[i], ps, qs, HOURS[i]);
    }
  }

  lemma {:induction false} GapFillInvisibleInCurves(ctx: EngineContext, es: seq<Entry>, weekly: bool,
                                                    keys: seq<(int, int)>, out: seq<ReportData>,
                                                    keysF: seq<(int, int)>, outF: seq<ReportData>)
    requires IsChart(Rekey(EntryPieces(es), LineKey(weekly)), keys, out)
    requires forall i :: 0 <= i < |keys| ==> HasKey(Rekey(EntryPieces(es), LineKey(weekly)), keys[i])
    requires IsChart(Rekey(EntryPieces(Fill(es, ctx.shape)), LineKey(weekly)), keysF, outF)
    ensures forall i :: 0 <= i < |keys| ==> exists j :: 0 <= j < |keysF| && keysF[j] == keys[i] && outF[j] == out[i]
    ensures forall j :: 0 <= j < |keysF| && keysF[j] !in keys ==> outF[j] == NOTHING
  {
    hide Fill, LineKey, IsEntry;
    FillIsPadding(es, ctx.shape);
    PaddedLines(es, Fill(es, ctx.shape), ctx.shape, LineKey(weekly));
    PaddedChart(Rekey(EntryPieces(es), LineKey(weekly)), keys, out,
                Rekey(EntryPieces(Fill(es, ctx.shape)), LineKey(weekly)), keysF, outF);
  }

  // The summary of the filled stream is that of the bare one.
  lemma {:induction false} GapFillInvisibleInSummary(ctx: EngineContext, es: seq<Entry>, out: ReportData,
                                                     outF: ReportData)
    requires SumsUp(out, es) && out.unused == 0.0 && out.cntConsumer == out.cntProducer == 0
    requires SumsUp(outF, Fill(es, ctx.shape)) && outF.unused == 0.0 && outF.cntConsumer == outF.cntProducer == 0
    ensures outF == out
  {
    hide Fill;
    var ps, qs := Rekey(EntryPieces(es), Whole), Rekey(EntryPieces(Fill(es, ctx.shape)), Whole);
    FillIsPadding(es, ctx.shape);
    PaddedLines(es, Fill(es, ctx.shape), ctx.shape, Whole);
    PaddingChangesNothing(ps, qs, 0);
    forall q: Quantity ensures out.Of(q) == outF.Of(q) {
      AllIsOneKey(EntryPieces(es), Whole, q);
      AllIsOneKey(EntryPieces(Fill(es, ctx.shape)), Whole, q);
    }
    SameReport(out, outF);
  }

  lemma {:induction false} SameReport(a: ReportData, b: ReportData)
    requires forall q: Quantity :: a.Of(q) == b.Of(q)
    requires forall s: Side :: a.QovOf(s) == b.QovOf(s)
    requires a.unused == b.unused && a.cntConsumer == b.cntConsumer && a.cntProducer == b.cntProducer
    ensures a == b
  {
    assert a.Of(Consumed) == b.Of(Consumed) && a.Of(Allocated) == b.Of(Allocated);
    assert a.Of(Distributed) == b.Of(Distributed) && a.Of(Produced) == b.Of(Produced);
    assert a.QovOf(Consumer) == b.QovOf(Consumer) && a.QovOf(Producer) == b.QovOf(Producer);
  }

  // ---- Raw series. ----

  // A reading of a line that adds nothing.
  ghost predicate IsZero(d: RawData) {
    (forall i :: 0 <= i < |d.value| ==> d.value[i] == 0.0) && (forall i :: 0 <= i < |d.qov| ==> d.qov[i] == 1)
  }

  lemma {:induction false} SameReading(cp: CounterPoint, shape: Shape, ts: int, l: RawSourceLine, m: RawSourceLine)
    requires cp.sourceIdx < Blocks(shape, cp.direction) && l.Sized(shape) && m.Sized(shape)
    ensures SameCells(l, m) ==> Reading(cp, ts, l) == Reading(cp, ts, m)
    ensures l.Empty() ==> IsZero(Reading(cp, ts, l))
  {
    var a, b := Reading(cp, ts, l), Reading(cp, ts, m);
    forall slot: nat | slot < Stride(cp.direction)
      ensures SameCells(l, m) ==> a.value[slot] == b.value[slot] && a.qov[slot] == b.qov[slot]
      ensures l.Empty() ==> a.value[slot] == 0.0 && a.qov[slot] == 1
    {
      ReadingCells(cp, ts, l, shape, slot);
      ReadingCells(cp, ts, m, shape, slot);
    }
  }

  // Buckets of every width: the filled stream has every bucket of the bare one, with the same
  // cells, and its other buckets are empty.
  lemma {:induction false} FilledBuckets(s: int, w: int, shape: Shape, es: seq<Entry>, fs: seq<Entry>, bs: seq<Bucket>,
                                         cs: seq<Bucket>)
    requires 0 < w && Padding(es, fs, shape)
    requires IsGrouping(s, w, shape, es, bs) && IsGrouping(s, w, shape, fs, cs)
    ensures Extends(bs, cs)
  {
    hide Label, Padding, InBucket, IsTotal, SameCells;
    forall i | 0 <= i < |bs| ensures HasLabel(cs, bs[i].due) {
      if i == 0 {
        assert cs[0].due == bs[0].due;
      } else {
        assert Touched(s, w, es, bs[i].due);
        var j :| 0 <= j < |es| && Label(s, w, es[j].ts) == bs[i].due;
        PaddedTouches(s, w, es, fs, shape, j);
        var k :| 0 <= k < |fs| && Label(s, w, fs[k].ts) == bs[i].due;
        assert HasLabel(cs, Label(s, w, fs[k].ts));
      }
    }
    forall i, j | 0 <= i < |bs| && 0 <= j < |cs| && bs[i].due == cs[j].due ensures SameCells(bs[i].line, cs[j].line) {
      SameBucketCells(s, w, shape, es, fs, bs[i].due, bs[i].line, cs[j].line);
    }
    forall j | 0 <= j < |cs| && !HasLabel(bs, cs[j].due) ensures cs[j].line.Empty() {
      EmptyBucket(s, w, shape, es, fs, cs[j].due, bs, cs[j].line);
    }
  }

  // The aggregated series of a metering point, of any width: the filled stream gives every
  // reading of the bare one, and beside those only readings of zero.
  lemma {:induction false} GapFillInvisibleInAggregate(ctx: EngineContext, w: int, es: seq<Entry>, bs: seq<Bucket>,
                                                       cs: seq<Bucket>, cp: CounterPoint)
    requires 0 < w && IsShape(ctx.meta, ctx.shape) && cp in ctx.meta
    requires IsGrouping(ctx.start, w, ctx.shape, es, bs) && IsGrouping(ctx.start, w, ctx.shape, Fill(es, ctx.shape), cs)
    ensures var bare, filled := Series(cp, BucketEntries(bs)), Series(cp, BucketEntries(cs));
            && (forall i :: 0 <= i < |bare| ==> bare[i] in filled)
            && (forall j :: 0 <= j < |filled| && !HasReading(bare, filled[j].ts) ==> IsZero(filled[j]))
  {
    hide IsGrouping, Fill, SameCells, Reading, IsZero, Extends;
    var bare, filled := Series(cp, BucketEntries(bs)), Series(cp, BucketEntries(cs));
    var c :| 0 <= c < |ctx.meta| && ctx.meta[c] == cp;
    GroupingSized(ctx.start, w, ctx.shape, es, bs);
    GroupingSized(ctx.start, w, ctx.shape, Fill(es, ctx.shape), cs);
    FillIsPadding(es, ctx.shape);
    FilledBuckets(ctx.start, w, ctx.shape, es, Fill(es, ctx.shape), bs, cs);
    ExtendedSeries(ctx.shape, bs, cs, cp);
  }

  lemma {:induction false} ExtendedSeries(shape: Shape, bs: seq<Bucket>, cs: seq<Bucket>, cp: CounterPoint)
    requires Extends(bs, cs) && cp.sourceIdx < Blocks(shape, cp.direction)
    requires AllSized(BucketEntries(bs), shape) && AllSized(BucketEntries(cs), shape)
    ensures var bare, filled := Series(cp, BucketEntries(bs)), Series(cp, BucketEntries(cs));
            && (forall i :: 0 <= i < |bare| ==> bare[i] in filled)
            && (forall j :: 0 <= j < |filled| && !HasReading(bare, filled[j].ts) ==> IsZero(filled[j]))
  {
    hide SameCells, Reading, IsZero;
    var bare, filled := Series(cp, BucketEntries(bs)), Series(cp, BucketEntries(cs));
    forall i | 0 <= i < |bare| ensures bare[i] in filled {
      assert HasLabel(cs, bs[i].due);
      var j :| 0 <= j < |cs| && cs[j].due == bs[i].due;
      assert BucketEntries(bs)[i].line.Sized(shape) && BucketEntries(cs)[j].line.Sized(shape);
      SameReading(cp, shape, bs[i].due, bs[i].line, cs[j].line);
      assert filled[j] == bare[i];
    }
    forall j | 0 <= j < |filled| && !HasReading(bare, filled[j].ts) ensures IsZero(filled[j]) {
      forall i | 0 <= i < |bs| ensures bs[i].due != cs[j].due {
        assert bare[i].ts == bs[i].due;
      }
      assert BucketEntries(cs)[j].line.Sized(shape);
      SameReading(cp, shape, cs[j].due, cs[j].line, cs[j].line);
    }
  }

  // The plain series: every reading of the bare stream, and beside those only readings of zero at
  // moments between two lines.
  lemma {:induction false} GapFillInvisibleInSeries(ctx: EngineContext, es: seq<Entry>, cp: CounterPoint)
    requires IsShape(ctx.meta, ctx.shape) && cp in ctx.meta
    requires StrictlyAscending(es) && AllSized(es, ctx.shape)
    ensures var bare, filled := Series(cp, es), Series(cp, Fill(es, ctx.shape));
            && (forall i :: 0 <= i < |bare| ==> bare[i] in filled)
            && (forall j :: 0 <= j < |filled| ==>
                  filled[j] in bare || (IsZero(filled[j]) && !HasReading(bare, filled[j].ts)))
  {
    hide Reading, IsZero, Fill;
    var fs := Fill(es, ctx.shape);
    var bare, filled := Series(cp, es), Series(cp, fs);
    var c :| 0 <= c < |ctx.meta| && ctx.meta[c] == cp;
    FillIsPadding(es, ctx.shape);
    forall j | 0 <= j < |filled| ensures filled[j] in bare || (IsZero(filled[j]) && !HasReading(bare, filled[j].ts)) {
      FillLines(es, ctx.shape, j);
      if fs[j] in es {
        var i :| 0 <= i < |es| && es[i] == fs[j];
        assert bare[i] == filled[j];
      } else {
        SameReading(cp, ctx.shape, fs[j].ts, fs[j].line, fs[j].line);
        forall i | 0 <= i < |bare| ensures bare[i].ts != filled[j].ts {
          assert es[i].ts == bare[i].ts;
        }
      }
    }
    forall i | 0 <= i < |bare| ensures bare[i] in filled {
      PaddingKeeps(es, fs, ctx.shape, i);
      var j :| 0 <= j < |fs| && fs[j].ts == es[i].ts;
      assert filled[j].ts == bare[i].ts && HasReading(bare, filled[j].ts);
      assert filled[j] == bare[i];
    }
  }
}
