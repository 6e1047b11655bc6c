/**
 The raw query: per metering point, the series of its cells at every delivered moment, or
 aggregated over buckets of a given width.
 */
module RawQuery {
  import opened Outcomes
  import opened Calendar
  import opened RowId
  import opened CounterPoints
  import opened RawLine
  import opened Loader
  import opened Buckets
  import opened QueryEngine

  datatype RawData = RawData(ts: int, value: seq<real>, qov: seq<int>)

  datatype RawDataResult = RawDataResult(data: seq<RawData>, direction: Direction)

  // Keeps the first occurrence of each target, in order.
  function Dedup(targets: seq<string>): (r: seq<string>)
    ensures forall t :: t in r <==> t in targets
    ensures forall i, j :: 0 <= i < j < |r| ==> r[i] != r[j]
  {
    if targets == [] then [] else
    var n := |targets| - 1;
    assert forall t :: t in targets <==> t in targets[..n] || t == targets[n];
    if targets[n] in targets[..n] then Dedup(targets[..n]) else Dedup(targets[..n]) + [targets[n]]
  }

  // The first occurrences come in the order they had.
  lemma {:induction false} DedupKeepsOrder(targets: seq<string>, i: nat, j: nat)
    requires i < j < |Dedup(targets)|
    ensures exists a, b :: 0 <= a < b < |targets| && targets[a] == Dedup(targets)[i] && targets[b] == Dedup(targets)[j]
              && Dedup(targets)[i] !in targets[..a] && Dedup(targets)[j] !in targets[..b]
  {
    var n := |targets| - 1;
    if j < |Dedup(targets[..n])| {
      DedupKeepsOrder(targets[..n], i, j);
      var a, b :| 0 <= a < b < n && targets[..n][a] == Dedup(targets)[i] && targets[..n][b] == Dedup(targets)[j]
                  && Dedup(targets)[i] !in targets[..n][..a] && Dedup(targets)[j] !in targets[..n][..b];
      assert targets[..n][..a] == targets[..a] && targets[..n][..b] == targets[..b];
    } else {
      var a := FirstOf(targets[..n], Dedup(targets)[i]);
      assert targets[..n][..a] == targets[..a];
      assert targets[a] == Dedup(targets)[i];
    }
  }

  lemma {:induction false} FirstOf(s: seq<string>, t: string) returns (a: nat)
    requires t in s
    ensures a < |s| && s[a] == t && t !in s[..a]
  {
    if t in s[..|s| - 1] {
      a := FirstOf(s[..|s| - 1], t);
      assert s[..|s| - 1][..a] == s[..a];
    } else {
      a := |s| - 1;
    }
  }

  method DedupTargets(targets: seq<string>) returns (out: seq<string>)
    ensures out == Dedup(targets)
  {
    var seen := {};
    out := [];
    for n := 0 to |targets|
      invariant out == Dedup(targets[..n])
      invariant forall t :: t in seen <==> t in targets[..n]
    {
      assert targets[..n + 1][..n] == targets[..n];
      if targets[n] !in seen {
        seen := seen + {targets[n]};
        out := out + [targets[n]];
      }
    }
    assert targets[..|targets|] == targets;
  }

  // A metering point's block of the line, or zeros when the line is too short for it.
  function Reading(cp: CounterPoint, ts: int, line: RawSourceLine): (r: RawData)
    ensures r.ts == ts && |r.value| == |r.qov| == Stride(cp.direction)
  {
    if cp.direction == Consumer then
      var start := cp.sourceIdx * 3;
      if start + 3 <= |line.consumers| && start + 3 <= |line.qovConsumers| then
        RawData(ts, line.consumers[start..start + 3], line.qovConsumers[start..start + 3])
      else RawData(ts, [0.0, 0.0, 0.0], [0, 0, 0])
    else
      var start := cp.sourceIdx * 2;
      if start + 2 <= |line.producers| && start + 2 <= |line.qovProducers| then
        RawData(ts, line.producers[start..start + 2], line.qovProducers[start..start + 2])
      else RawData(ts, [0.0, 0.0], [0, 0])
  }

  lemma {:induction false} ReadingCells(cp: CounterPoint, ts: int, line: RawSourceLine, shape: Shape, slot: nat)
    requires line.Sized(shape) && cp.sourceIdx < Blocks(shape, cp.direction) && slot < Stride(cp.direction)
    ensures Reading(cp, ts, line).value[slot] == line.Cell(cp.direction, CellIdx(cp, slot))
    ensures Reading(cp, ts, line).qov[slot] == line.Qov(cp.direction, CellIdx(cp, slot))
  {
  }

  function Series(cp: CounterPoint, fs: seq<Entry>): (r: seq<RawData>)
    ensures |r| == |fs| && forall i :: 0 <= i < |fs| ==> r[i] == Reading(cp, fs[i].ts, fs[i].line)
  {
    seq(|fs|, i requires 0 <= i < |fs| => Reading(cp, fs[i].ts, fs[i].line))
  }

  // The result holds exactly the known targets, each with its series.
  ghost predicate HoldsSeries(cps: seq<CounterPoint>, targets: seq<string>, fs: seq<Entry>,
                              result: map<string, RawDataResult>) {
    && (forall m :: m in result <==> m in targets && FindMeter(cps, m).Some? && fs != [])
    && (forall m :: m in result ==>
          result[m] == RawDataResult(Series(FindMeter(cps, m).value, fs), FindMeter(cps, m).value.direction))
  }

  // ParentFunction: the per-meter result map. Every occurrence of a target appends a reading, so
  // the target list must not repeat a metering point.
  class ParentFunction {
    const targets: seq<string>
    var result: map<string, RawDataResult>

    constructor (targets: seq<string>)
      ensures this.targets == targets && result == map[]
    {
      this.targets := targets;
      result := map[];
    }

    method AddToResult(ctx: EngineContext, ts: int, line: RawSourceLine, ghost fs: seq<Entry>)
      requires NoRepeats(targets)
      requires HoldsSeries(ctx.meta, targets, fs, result)
      modifies this
      ensures HoldsSeries(ctx.meta, targets, fs + [Entry(ts, line)], result)
    {
      ghost var e := Entry(ts, line);
      FirstTarget(ctx.meta, targets, fs, fs + [e], result);
      hide FindMeter, Reading, Series, HoldsUpTo, HoldsSeries, NoRepeats;
      for n := 0 to |targets|
        invariant HoldsUpTo(ctx.meta, targets, n, fs, fs + [e], result)
      {
        ghost var before := result;
        var m := FindMeter(ctx.meta, targets[n]);
        if m.Some? {
          var data := if targets[n] in result then result[targets[n]].data else [];
          result := result[targets[n] := RawDataResult(data + [Reading(m.value, ts, line)], m.value.direction)];
        }
        AddNext(ctx.meta, targets, n, fs, e, before, result);
      }
      LastTarget(ctx.meta, targets, fs, fs + [e], result);
    }
  }

  ghost predicate NoRepeats(targets: seq<string>) {
    forall i, j :: 0 <= i < j < |targets| ==> targets[i] != targets[j]
  }

  // The first n targets hold the longer series gs, the others still fs.
  ghost predicate HoldsUpTo(cps: seq<CounterPoint>, targets: seq<string>, n: nat, fs: seq<Entry>, gs: seq<Entry>,
                            result: map<string, RawDataResult>)
    requires n <= |targets|
  {
    forall m: string :: HoldsFor(cps, targets, n, m, fs, gs, result)
  }

  ghost predicate HoldsFor(cps: seq<CounterPoint>, targets: seq<string>, n: nat, m: string, fs: seq<Entry>,
                           gs: seq<Entry>,
                           result: map<string, RawDataResult>)
    requires n <= |targets|
  {
    var done := m in targets[..n];
    && (m in result <==> m in targets && FindMeter(cps, m).Some? && (fs != [] || done))
    && (m in result ==> result[m] == RawDataResult(Series(FindMeter(cps, m).value, if done then gs else fs),
                                                   FindMeter(cps, m).value.direction))
  }

  lemma {:induction false} FirstTarget(cps: seq<CounterPoint>, targets: seq<string>, fs: seq<Entry>, gs: seq<Entry>,
                                       result: map<string, RawDataResult>)
    requires HoldsSeries(cps, targets, fs, result)
    ensures HoldsUpTo(cps, targets, 0, fs, gs, result)
  {
    hide FindMeter, Series;
    assert targets[..0] == [];
  }

  lemma {:induction false} LastTarget(cps: seq<CounterPoint>, targets: seq<string>, fs: seq<Entry>, gs: seq<Entry>,
                                      result: map<string, RawDataResult>)
    requires HoldsUpTo(cps, targets, |targets|, fs, gs, result) && gs != []
    ensures HoldsSeries(cps, targets, gs, result)
  {
    hide FindMeter, Series;
    assert targets[..|targets|] == targets;
    assert forall m: string {:trigger m in result} :: HoldsFor(cps, targets, |targets|, m, fs, gs, result);
  }

  lemma {:induction false} SeriesSnoc(cp: CounterPoint, fs: seq<Entry>, e: Entry)
    ensures Series(cp, fs + [e]) == Series(cp, fs) + [Reading(cp, e.ts, e.line)]
    ensures Series(cp, []) == []
  {
  }

  lemma {:induction false} AddNext(cps: seq<CounterPoint>, targets: seq<string>, n: nat, fs: seq<Entry>, e: Entry,
                before: map<string, RawDataResult>, after: map<string, RawDataResult>)
    requires n < |targets| && NoRepeats(targets)
    requires HoldsUpTo(cps, targets, n, fs, fs + [e], before)
    requires var t, m := targets[n], FindMeter(cps, targets[n]);
             if m.None? then after == before
             else after == before[t := RawDataResult((if t in before then before[t].data else [])
                                                     + [Reading(m.value, e.ts, e.line)],
                                                     m.value.direction)]
    ensures HoldsUpTo(cps, targets, n + 1, fs, fs + [e], after)
  {
    hide FindMeter, Reading, Series, HoldsFor, NoRepeats;
    var k := n + 1;
    forall m: string ensures HoldsFor(cps, targets, k, m, fs, fs + [e], after) {
      assert HoldsFor(cps, targets, n, m, fs, fs + [e], before);
      if m == targets[n] {
        NextTarget(cps, targets, n, fs, e, before, after);
      } else {
        OtherTarget(cps, targets, n, m, fs, fs + [e], before, after);
      }
    }
  }

  lemma {:induction false} NextTarget(cps: seq<CounterPoint>, targets: seq<string>, n: nat, fs: seq<Entry>, e: Entry,
                   before: map<string, RawDataResult>, after: map<string, RawDataResult>)
    requires n < |targets| && NoRepeats(targets)
    requires HoldsFor(cps, targets, n, targets[n], fs, fs + [e], before)
    requires var t, m := targets[n], FindMeter(cps, targets[n]);
             if m.None? then after == before
             else after == before[t := RawDataResult((if t in before then before[t].data else [])
                                                     + [Reading(m.value, e.ts, e.line)],
                                                     m.value.direction)]
    ensures HoldsFor(cps, targets, n + 1, targets[n], fs, fs + [e], after)
  {
    hide FindMeter, Reading, Series;
    assert targets[..n + 1][n] == targets[n];
    if FindMeter(cps, targets[n]).Some? {
      SeriesSnoc(FindMeter(cps, targets[n]).value, fs, e);
    }
  }

  lemma {:induction false} OtherTarget(cps: seq<CounterPoint>, targets: seq<string>, n: nat, m: string, fs: seq<Entry>,
                                       gs: seq<Entry>,
                    before: map<string, RawDataResult>, after: map<string, RawDataResult>)
    requires n < |targets| && m != targets[n] && HoldsFor(cps, targets, n, m, fs, gs, before)
    requires after == before || (targets[n] in after && after == before[targets[n] := after[targets[n]]])
    ensures HoldsFor(cps, targets, n + 1, m, fs, gs, after)
  {
    hide FindMeter, Series;
    assert targets[..n + 1] == targets[..n] + [targets[n]];
  }

  // A series is the table, read moment by moment: strictly increasing moments that include every
  // moment with a row, and in each slot the last row that feeds it, or nothing.
  ghost predicate IsLookupSeries(rows: seq<SlotRow>, cp: CounterPoint, data: seq<RawData>) {
    && (forall i, j :: 0 <= i < j < |data| ==> data[i].ts < data[j].ts)
    && (forall i :: 0 <= i < |rows| ==> HasReading(data, rows[i].ts))
    && (forall i :: 0 <= i < |data| ==> IsLookup(rows, cp, data[i]))
  }

  ghost predicate HasReading(data: seq<RawData>, ts: int) {
    exists j :: 0 <= j < |data| && data[j].ts == ts
  }

  ghost predicate IsLookup(rows: seq<SlotRow>, cp: CounterPoint, d: RawData) {
    && |d.value| == |d.qov| == Stride(cp.direction)
    && forall slot: nat :: slot < Stride(cp.direction) ==>
         && d.value[slot] == ValueOr0(Lookup(rows, d.ts, cp, slot))
         && d.qov[slot] == QovOr1(Lookup(rows, d.ts, cp, slot))
  }

  lemma {:induction false} ReadingIsLookup(cps: seq<CounterPoint>, shape: Shape, rows: seq<SlotRow>, cp: CounterPoint,
                                           f: Entry)
    requires IsShape(cps, shape) && cp in cps
    requires Shows(cps, shape, rows, f.ts, f.line)
    ensures IsLookup(rows, cp, Reading(cp, f.ts, f.line))
  {
    hide Lookup;
    var c :| 0 <= c < |cps| && cps[c] == cp;
    forall slot: nat | slot < Stride(cp.direction)
      ensures Reading(cp, f.ts, f.line).value[slot] == ValueOr0(Lookup(rows, f.ts, cp, slot))
      ensures Reading(cp, f.ts, f.line).qov[slot] == QovOr1(Lookup(rows, f.ts, cp, slot))
    {
      ReadingCells(cp, f.ts, f.line, shape, slot);
      assert Holds(f.line, cps[c], slot, Lookup(rows, f.ts, cps[c], slot));
    }
  }

  // The streaming raw query is the table lookup.
  lemma {:induction false} SeriesIsLookup(cps: seq<CounterPoint>, shape: Shape, rows: seq<SlotRow>, fs: seq<Entry>,
                                          cp: CounterPoint)
    requires IsShape(cps, shape) && cp in cps
    requires Delivered(cps, shape, rows, fs) && AllSized(fs, shape)
    ensures IsLookupSeries(rows, cp, Series(cp, fs))
  {
    hide Shows, ParseRowIdTs, IsLookup, Reading;
    var data := Series(cp, fs);
    assert forall i :: 0 <= i < |data| ==> data[i].ts == fs[i].ts;
    forall i | 0 <= i < |rows| ensures HasReading(data, rows[i].ts) {
      assert HasMoment(fs, rows[i].ts);
      var j :| 0 <= j < |fs| && fs[j].ts == rows[i].ts;
      assert data[j].ts == rows[i].ts;
    }
    forall i | 0 <= i < |data| ensures IsLookup(rows, cp, data[i]) {
      ReadingIsLookup(cps, shape, rows, cp, fs[i]);
    }
  }

  // The default function: every delivered line as it is.
  method RunDefault(ctx: EngineContext, fs: seq<Entry>, targets: seq<string>)
    returns (result: map<string, RawDataResult>)
    requires IsStream(ctx, fs)
    requires forall i, j :: 0 <= i < j < |targets| ==> targets[i] != targets[j]
    ensures HoldsSeries(ctx.meta, targets, fs, result)
  {
    hide ParseRowIdTs, FindMeter, Reading;
    var fn := new ParentFunction(targets);
    for n := 0 to |fs|
      invariant HoldsSeries(ctx.meta, targets, fs[..n], fn.result)
    {
      var ts := ParseRowIdTs(fs[n].line.id);
      assert fs[..n + 1] == fs[..n] + [Entry(ts.value, fs[n].line)];
      fn.AddToResult(ctx, ts.value, fs[n].line, fs[..n]);
    }
    assert fs[..|fs|] == fs;
    result := fn.result;
  }

  function BucketEntries(bs: seq<Bucket>): (es: seq<Entry>)
    ensures |es| == |bs| && forall i :: 0 <= i < |bs| ==> es[i] == Entry(bs[i].due, bs[i].line)
  {
    seq(|bs|, i requires 0 <= i < |bs| => Entry(bs[i].due, bs[i].line))
  }

  lemma {:induction false} GroupingSized(s: int, w: int, shape: Shape, es: seq<Entry>, bs: seq<Bucket>)
    requires 0 < w && IsGrouping(s, w, shape, es, bs)
    ensures AllSized(BucketEntries(bs), shape)
  {
  }

  // The aggregate function: one reading per bucket.
  method RunAggregate(ctx: EngineContext, fs: seq<Entry>, targets: seq<string>, width: int)
    returns (result: map<string, RawDataResult>, ghost bs: seq<Bucket>)
    requires IsStream(ctx, fs) && 0 < width
    requires forall i, j :: 0 <= i < j < |targets| ==> targets[i] != targets[j]
    ensures IsGrouping(ctx.start, width, ctx.shape, fs, bs) && AllSized(BucketEntries(bs), ctx.shape)
    ensures HoldsSeries(ctx.meta, targets, BucketEntries(bs), result)
    ensures forall m :: m in result <==> m in targets && FindMeter(ctx.meta, m).Some?
  {
    hide ParseRowIdTs, FindMeter, Reading, IsGrouping, Label;
    var fn := new ParentFunction(targets);
    var cache := new Cache(width);
    cache.Init(ctx);
    for n := 0 to |fs|
      invariant cache.Valid() && cache.start == ctx.start && cache.shape == ctx.shape && cache.seen == fs[..n]
      invariant AllSized(BucketEntries(cache.flushed), ctx.shape)
      invariant HoldsSeries(ctx.meta, targets, BucketEntries(cache.flushed), fn.result)
    {
      var ts := ParseRowIdTs(fs[n].line.id);
      ghost var before := cache.flushed;
      var flush := cache.CacheLine(ctx, ts.value, fs[n].line);
      if flush.Some? {
        fn.AddToResult(ctx, flush.value.due, flush.value.line, BucketEntries(before));
        assert BucketEntries(cache.flushed) == BucketEntries(before) + [Entry(flush.value.due, flush.value.line)];
      }
    }
    assert fs[..|fs|] == fs;
    cache.OpenIsSized();
    fn.AddToResult(ctx, cache.cacheTime, cache.cache, BucketEntries(cache.flushed));
    bs := cache.Buckets();
    assert BucketEntries(bs) == BucketEntries(cache.flushed) + [Entry(cache.cacheTime, cache.cache)];
    result := fn.result;
  }

  // An aggregated reading: in each slot the sum of the bucket's lines and their joined quality.
  lemma {:induction false} AggregateIsSum(s: int, w: int, cps: seq<CounterPoint>, shape: Shape, fs: seq<Entry>,
                                          bs: seq<Bucket>,
                       cp: CounterPoint, i: nat, slot: nat)
    requires 0 < w && IsShape(cps, shape) && cp in cps && slot < Stride(cp.direction)
    requires IsGrouping(s, w, shape, fs, bs) && i < |bs|
    ensures var r := Series(cp, BucketEntries(bs))[i];
            && r.ts == bs[i].due
            && r.value[slot] == ColumnSum(InBucket(s, w, fs, bs[i].due), cp.direction, CellIdx(cp, slot))
            && r.qov[slot] == ColumnQov(InBucket(s, w, fs, bs[i].due), cp.direction, CellIdx(cp, slot))
  {
    hide Label, InBucket, Reading;
    GroupingSized(s, w, shape, fs, bs);
    var c :| 0 <= c < |cps| && cps[c] == cp;
    CellInBounds(cps, shape, c, slot);
    ReadingCells(cp, bs[i].due, bs[i].line, shape, slot);
    assert IsTotal(bs[i].line, shape, InBucket(s, w, fs, bs[i].due));
  }

  // What the raw query promises for the default function.
  ghost predicate IsRawAnswer(cps: seq<CounterPoint>, rows: seq<SlotRow>, targets: seq<string>,
                              result: map<string, RawDataResult>) {
    && (forall m :: m in result <==> m in targets && FindMeter(cps, m).Some?)
    && (forall m :: m in result ==>
          && result[m].direction == FindMeter(cps, m).value.direction
          && IsLookupSeries(rows, FindMeter(cps, m).value, result[m].data))
  }

  // QueryRawData without a function: each known target once, however often it is listed, with
  // its looked-up series.
  method QueryRawData(loader: DataLoader, rows: seq<SlotRow>, end: int, cps: seq<string>)
    returns (r: Result<map<string, RawDataResult>>, ghost es: seq<Entry>)
    requires loader.Valid() && DistinctBlocks(loader.cps)
    requires SortedByTime(rows)
    ensures IsTable(loader.cps, loader.ShapeOf(), rows, es)
    ensures r.Ok? <==> rows != [] && AllPrintable(es)
    ensures r.Ok? ==> IsRawAnswer(loader.cps, rows, cps, r.value)
  {
    ghost var shape := loader.ShapeOf();
    assert loader.Valid() && IsShape(loader.cps, shape);
    hide IsTable, Printable, IsStream, HoldsSeries, IsRawAnswer, Dedup, FindMeter, Fill, Delivered, IsShape;
    var targets := DedupTargets(cps);
    var d;
    d, es := Query(loader, rows, end);
    if d.Err? {
      return Err(d.message), es;
    }
    AnswerIsStream(loader.cps, shape, rows, end, es, d);
    var result := RunDefault(d.value.ctx, d.value.entries, targets);
    RawAnswer(loader.cps, shape, rows, end, es, d, cps, result);
    return Ok(result), es;
  }

  lemma {:induction false} RawAnswer(cps: seq<CounterPoint>, shape: Shape, rows: seq<SlotRow>, end: int, es: seq<Entry>,
                                     d: Result<Delivery>,
                  targets: seq<string>, result: map<string, RawDataResult>)
    requires IsShape(cps, shape) && IsAnswer(cps, shape, rows, end, es, d) && d.Ok?
    requires IsStream(d.value.ctx, d.value.entries)
    requires d.value.ctx.meta == cps && d.value.ctx.shape == shape
    requires HoldsSeries(cps, Dedup(targets), d.value.entries, result)
    ensures IsRawAnswer(cps, rows, targets, result)
  {
    hide Shows, Printable, Fill, ParseRowIdTs, FindMeter, IsLookupSeries, BuildEngineCtx;
    forall m | m in result ensures IsLookupSeries(rows, FindMeter(cps, m).value, result[m].data) {
      SeriesIsLookup(cps, shape, rows, d.value.entries, FindMeter(cps, m).value);
    }
  }
}
