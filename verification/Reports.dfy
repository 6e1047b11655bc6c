/**
 The report functions: hour-of-day, per-day, per-week and per-month charts and the summary,
 each folding the delivered lines one at a time.
 */
module Reports {
  import opened Outcomes
  import opened Calendar
  import opened RowId
  import opened CounterPoints
  import opened RawLine
  import opened Buckets
  import opened Rounding
  import opened Tally
  import opened QueryEngine

  datatype ReportData = ReportData(consumed: real, allotted: real, distributed: real, produced: real, unused: real,
                                   qovConsumer: int, qovProducer: int, cntConsumer: nat, cntProducer: nat)
  {
    function Of(q: Quantity): real {
      match q
      case Consumed => consumed
      case Allocated => allotted
      case Distributed => distributed
      case Produced => produced
    }

    function QovOf(s: Side): int { if s == Consumer then qovConsumer else qovProducer }

    function CountOf(s: Side): nat { if s == Consumer then cntConsumer else cntProducer }
  }

  const NOTHING := ReportData(0.0, 0.0, 0.0, 0.0, 0.0, 0, 0, 0, 0)

  // The entry of a key: what its lines add up to, with the surplus clipped at zero.
  ghost predicate IsEntry<K>(rd: ReportData, ps: seq<Piece<K>>, key: K) {
    && (forall q: Quantity :: rd.Of(q) == AmountFor(ps, key, q))
    && (forall s: Side :: rd.QovOf(s) == CalcQov(0, QovFor(ps, key, s)))
    && (forall s: Side :: rd.CountOf(s) == CountFor(ps, key, s))
    && rd.unused == Max0(rd.produced - rd.distributed)
  }

  // Consumed, allocated and distributed energy grow by slots 0, 1 and 2 of the consumers, produced
  // energy by slot 0 of the producers.
  ghost predicate AddsSlots(rd: ReportData, line: RawSourceLine, out: ReportData) {
    && out.consumed == rd.consumed + SlotSum(line, Consumer, 0, |line.consumers| / 3)
    && out.allotted == rd.allotted + SlotSum(line, Consumer, 1, |line.consumers| / 3)
    && out.distributed == rd.distributed + SlotSum(line, Consumer, 2, |line.consumers| / 3)
    && out.produced == rd.produced + SlotSum(line, Producer, 0, |line.producers| / 2)
  }

  // accumulateReportData: one line into an entry.
  method Accumulate(rd: ReportData, line: RawSourceLine) returns (out: ReportData)
    requires |line.qovConsumers| == |line.consumers| && |line.qovProducers| == |line.producers|
    ensures forall q: Quantity :: out.Of(q) == rd.Of(q) + Amount(line, q)
    ensures forall s: Side :: out.QovOf(s) == CalcQov(rd.QovOf(s), LineQov(line, s))
    ensures forall s: Side :: out.CountOf(s) == Max(rd.CountOf(s), ActiveCount(line, s))
    ensures out.unused == Max0(out.produced - out.distributed)
    ensures AddsSlots(rd, line, out)
  {
    out := AccumulateConsumers(rd, line);
    out := AccumulateProducers(out, line);
    out := out.(unused := out.produced - out.distributed);
    if out.unused < 0.0 {
      out := out.(unused := 0.0);
    }
  }

  method AccumulateConsumers(rd: ReportData, line: RawSourceLine) returns (out: ReportData)
    requires |line.qovConsumers| == |line.consumers|
    ensures out.consumed == rd.consumed + Amount(line, Consumed)
    ensures out.allotted == rd.allotted + Amount(line, Allocated)
    ensures out.distributed == rd.distributed + Amount(line, Distributed)
    ensures out.qovConsumer == CalcQov(rd.qovConsumer, LineQov(line, Consumer))
    ensures out.cntConsumer == Max(rd.cntConsumer, ActiveCount(line, Consumer))
    ensures out.produced == rd.produced && out.qovProducer == rd.qovProducer && out.cntProducer == rd.cntProducer
    ensures out.unused == rd.unused
  {
    out := rd;
    var active := 0;
    var cLen := |line.consumers| - |line.consumers| % 3;
    var i := 0;
    while i < cLen
      invariant 0 <= i <= cLen && i % 3 == 0
      invariant out.consumed == rd.consumed + SlotSum(line, Consumer, 0, i / 3)
      invariant out.allotted == rd.allotted + SlotSum(line, Consumer, 1, i / 3)
      invariant out.distributed == rd.distributed + SlotSum(line, Consumer, 2, i / 3)
      invariant out.qovConsumer == CalcQov(rd.qovConsumer, SlotQov(line, Consumer, i / 3))
      invariant active == ActiveBlocks(line, Consumer, i / 3)
      invariant out.produced == rd.produced && out.qovProducer == rd.qovProducer && out.cntProducer == rd.cntProducer
      invariant out.cntConsumer == rd.cntConsumer && out.unused == rd.unused
    {
      assert (i + 3) / 3 == i / 3 + 1 && i / 3 * 3 == i;
      if line.consumers[i] != 0.0 || line.consumers[i + 1] != 0.0 || line.consumers[i + 2] != 0.0 {
        active := active + 1;
      }
      QovLaws(rd.qovConsumer, SlotQov(line, Consumer, i / 3), line.Qov(Consumer, i));
      out := out.(consumed := out.consumed + line.consumers[i],
                  allotted := out.allotted + line.consumers[i + 1],
                  distributed := out.distributed + line.consumers[i + 2],
                  qovConsumer := CalcQov(out.qovConsumer, line.qovConsumers[i]));
      i := i + 3;
    }
    assert i / 3 == BlockCount(line, Consumer);
    if out.cntConsumer < active {
      out := out.(cntConsumer := active);
    }
  }

  method AccumulateProducers(rd: ReportData, line: RawSourceLine) returns (out: ReportData)
    requires |line.qovProducers| == |line.producers|
    ensures out.produced == rd.produced + Amount(line, Produced)
    ensures out.qovProducer == CalcQov(rd.qovProducer, LineQov(line, Producer))
    ensures out.cntProducer == Max(rd.cntProducer, ActiveCount(line, Producer))
    ensures out.consumed == rd.consumed && out.allotted == rd.allotted && out.distributed == rd.distributed
    ensures out.qovConsumer == rd.qovConsumer && out.cntConsumer == rd.cntConsumer && out.unused == rd.unused
  {
    out := rd;
    var active := 0;
    var pLen := |line.producers| - |line.producers| % 2;
    var i := 0;
    while i < pLen
      invariant 0 <= i <= pLen && i % 2 == 0
      invariant out.produced == rd.produced + SlotSum(line, Producer, 0, i / 2)
      invariant out.qovProducer == CalcQov(rd.qovProducer, SlotQov(line, Producer, i / 2))
      invariant active == ActiveBlocks(line, Producer, i / 2)
      invariant out.consumed == rd.consumed && out.allotted == rd.allotted && out.distributed == rd.distributed
      invariant out.qovConsumer == rd.qovConsumer && out.cntConsumer == rd.cntConsumer
      invariant out.cntProducer == rd.cntProducer && out.unused == rd.unused
    {
      assert (i + 2) / 2 == i / 2 + 1 && i / 2 * 2 == i;
      if line.producers[i] != 0.0 || line.producers[i + 1] != 0.0 {
        active := active + 1;
      }
      QovLaws(rd.qovProducer, SlotQov(line, Producer, i / 2), line.Qov(Producer, i));
      out := out.(produced := out.produced + line.producers[i],
                  qovProducer := CalcQov(out.qovProducer, line.qovProducers[i]));
      i := i + 2;
    }
    assert i / 2 == BlockCount(line, Producer);
    if out.cntProducer < active {
      out := out.(cntProducer := active);
    }
  }

  // The entries so far: one for each key that has a piece.
  ghost predicate IsBucketMap<K(!new)>(ps: seq<Piece<K>>, m: map<K, ReportData>) {
    && (forall k :: k in m <==> HasKey(ps, k))
    && (forall k :: k in m ==> IsEntry(m[k], ps, k))
  }

  lemma {:induction false} NothingEntry<K>(ps: seq<Piece<K>>, key: K)
    requires !HasKey(ps, key)
    ensures IsEntry(NOTHING, ps, key)
  {
    ForAbsent(ps, key);
  }

  lemma {:induction false} EntrySnoc<K>(rd: ReportData, out: ReportData, ps: seq<Piece<K>>, p: Piece<K>)
    requires IsEntry(rd, ps, p.key)
    requires forall q: Quantity :: out.Of(q) == rd.Of(q) + Amount(p.line, q)
    requires forall s: Side :: out.QovOf(s) == CalcQov(rd.QovOf(s), LineQov(p.line, s))
    requires forall s: Side :: out.CountOf(s) == Max(rd.CountOf(s), ActiveCount(p.line, s))
    requires out.unused == Max0(out.produced - out.distributed)
    ensures IsEntry(out, ps + [p], p.key)
  {
    ForSnoc(ps, p, p.key);
    forall s: Side ensures out.QovOf(s) == CalcQov(0, QovFor(ps + [p], p.key, s)) {
      QovLaws(0, QovFor(ps, p.key, s), LineQov(p.line, s));
    }
  }

  lemma {:induction false} OtherKeyEntry<K>(rd: ReportData, ps: seq<Piece<K>>, p: Piece<K>, key: K)
    requires IsEntry(rd, ps, key) && p.key != key
    ensures IsEntry(rd, ps + [p], key)
  {
    ForSnoc(ps, p, key);
    forall s: Side ensures QovFor(ps + [p], key, s) == QovFor(ps, key, s) {
      QovLaws(QovFor(ps, key, s), 0, 0);
    }
  }

  lemma {:induction false} HasKeySnoc<K>(ps: seq<Piece<K>>, p: Piece<K>, key: K)
    ensures HasKey(ps + [p], key) <==> HasKey(ps, key) || p.key == key
  {
    if HasKey(ps, key) {
      var i :| 0 <= i < |ps| && ps[i].key == key;
      assert (ps + [p])[i].key == key;
    }
    assert (ps + [p])[|ps|] == p;
  }

  // Adds a line to the entry of its key, opening the entry when the key is new.
  method AddPiece<K(==, !new)>(m: map<K, ReportData>, key: K, line: RawSourceLine, ghost ps: seq<Piece<K>>)
    returns (out: map<K, ReportData>)
    requires IsBucketMap(ps, m)
    requires |line.qovConsumers| == |line.consumers| && |line.qovProducers| == |line.producers|
    ensures IsBucketMap(ps + [Piece(key, line)], out)
    ensures out.Keys == m.Keys + {key}
  {
    var rd := if key in m then m[key] else NOTHING;
    if key !in m {
      NothingEntry(ps, key);
    }
    var added := Accumulate(rd, line);
    out := m[key := added];
    ghost var p := Piece(key, line);
    EntrySnoc(rd, added, ps, p);
    forall k ensures k in out <==> HasKey(ps + [p], k) {
      HasKeySnoc(ps, p, k);
    }
    forall k | k in out ensures IsEntry(out[k], ps + [p], k) {
      if k != key {
        OtherKeyEntry(m[k], ps, p, k);
      }
    }
  }

  // A finished chart: distinct keys that cover all pieces, each with its entry.
  ghost predicate IsChart<K>(ps: seq<Piece<K>>, keys: seq<K>, out: seq<ReportData>) {
    && Distinct(keys) && Covers(keys, ps)
    && |out| == |keys| && forall i :: 0 <= i < |out| ==> IsEntry(out[i], ps, keys[i])
  }

  // The bucket map and order list that the ordered charts keep.
  class Chart<K(==, !new)> {
    var bucket: map<K, ReportData>
    var order: seq<K>
    ghost var pieces: seq<Piece<K>>

    constructor ()
      ensures Valid() && pieces == []
    {
      bucket, order, pieces := map[], [], [];
    }

    ghost predicate Valid()
      reads this
    {
      && IsBucketMap(pieces, bucket)
      && Distinct(order)
      && (forall k :: k in order <==> k in bucket)
    }

    method Add(key: K, line: RawSourceLine)
      requires Valid()
      requires |line.qovConsumers| == |line.consumers| && |line.qovProducers| == |line.producers|
      modifies this
      ensures Valid() && pieces == old(pieces) + [Piece(key, line)]
      ensures order == if key in old(order) then old(order) else old(order) + [key]
    {
      if key !in bucket {
        order := order + [key];
      }
      bucket := AddPiece(bucket, key, line, pieces);
      pieces := pieces + [Piece(key, line)];
    }

    method GetResult() returns (out: seq<ReportData>)
      requires Valid()
      ensures IsChart(pieces, order, out)
      ensures forall i :: 0 <= i < |order| ==> HasKey(pieces, order[i])
    {
      out := [];
      for i := 0 to |order|
        invariant |out| == i && forall j :: 0 <= j < i ==> order[j] in bucket && out[j] == bucket[order[j]]
      {
        assert order[i] in order;
        out := out + [bucket[order[i]]];
      }
      forall i | 0 <= i < |pieces| ensures pieces[i].key in order {
        assert HasKey(pieces, pieces[i].key);
      }
    }
  }

  function BucketPieces(bs: seq<Bucket>): (ps: seq<Piece<int>>)
    ensures |ps| == |bs|
    ensures forall i :: 0 <= i < |bs| ==> ps[i] == Piece(bs[i].due, bs[i].line)
  {
    seq(|bs|, i requires 0 <= i < |bs| => Piece(bs[i].due, bs[i].line))
  }

  function EntryPieces(es: seq<Entry>): (ps: seq<Piece<int>>)
    ensures |ps| == |es|
    ensures forall i :: 0 <= i < |es| ==> ps[i] == Piece(es[i].ts, es[i].line)
  {
    seq(|es|, i requires 0 <= i < |es| => Piece(es[i].ts, es[i].line))
  }

  lemma {:induction false} PiecesSnoc<K>(bs: seq<Bucket>, b: Bucket, es: seq<Entry>, e: Entry, f: int -> K)
    ensures Rekey(BucketPieces(bs + [b]), f) == Rekey(BucketPieces(bs), f) + [Piece(f(b.due), b.line)]
    ensures Rekey(EntryPieces(es + [e]), f) == Rekey(EntryPieces(es), f) + [Piece(f(e.ts), e.line)]
  {
  }

  // The hour of day, in UTC, of the hour that ends at `due`; the zone is a whole number of hours.
  function HourOf(zone: int): int -> int {
    due => (due - 60 - zone * 60) / 60 % 24
  }

  class IntraDay {
    const zone: int
    const cache: Cache
    var result: map<int, ReportData>
    ghost var pieces: seq<Piece<int>>

    constructor (zone: int)
      ensures Fresh() && this.zone == zone && fresh(cache)
    {
      this.zone := zone;
      cache := new Cache(60);
      result, pieces := map[], [];
    }

    ghost predicate Fresh()
      reads this, cache
    {
      cache.cacheTs == 60 && result == map[] && pieces == []
    }

    ghost predicate Valid()
      reads this, cache
    {
      && cache.Valid() && cache.cacheTs == 60
      && IsBucketMap(pieces, result)
      && pieces == Rekey(BucketPieces(cache.flushed), HourOf(zone))
    }

    method HandleStart(ctx: EngineContext)
      requires Fresh()
      modifies cache
      ensures Valid() && cache.start == ctx.start && cache.shape == ctx.shape && cache.seen == []
    {
      cache.Init(ctx);
      assert Rekey(BucketPieces([]), HourOf(zone)) == [];
    }

    // A line whose id does not scan is an error and changes nothing.
    method HandleLine(ctx: EngineContext, line: RawSourceLine) returns (ok: bool)
      requires Valid() && ctx.start == cache.start && ctx.shape == cache.shape && line.Sized(cache.shape)
      requires ParseRowIdTs(line.id).Ok? ==> cache.Now() <= ParseRowIdTs(line.id).value
      modifies this, cache
      ensures Valid() && ok == ParseRowIdTs(line.id).Ok?
      ensures cache.start == old(cache.start) && cache.shape == old(cache.shape)
      ensures cache.seen == old(cache.seen) + if ok then [Entry(ParseRowIdTs(line.id).value, line)] else []
    {
      hide ParseRowIdTs, IsGrouping, IsBucketMap, Label, HourOf;
      var ts := ParseRowIdTs(line.id);
      if ts.Err? {
        return false;
      }
      ghost var before := cache.flushed;
      var flush := cache.CacheLine(ctx, ts.value, line);
      if flush.Some? {
        AddToResult(flush.value);
        PiecesSnoc(before, flush.value, [], Entry(ts.value, line), HourOf(zone));
      }
      return true;
    }

    method AddToResult(b: Bucket)
      requires IsBucketMap(pieces, result)
      requires |b.line.qovConsumers| == |b.line.consumers| && |b.line.qovProducers| == |b.line.producers|
      modifies `result, `pieces
      ensures IsBucketMap(pieces, result)
      ensures pieces == old(pieces) + [Piece(HourOf(zone)(b.due), b.line)]
    {
      var hour := (b.due - 60 - zone * 60) / 60 % 24;
      result := AddPiece(result, hour, b.line, pieces);
      pieces := pieces + [Piece(hour, b.line)];
    }

    method HandleEnd()
      requires Valid()
      modifies this
      ensures pieces == Rekey(BucketPieces(cache.Buckets()), HourOf(zone)) && IsBucketMap(pieces, result)
    {
      hide IsGrouping, IsBucketMap, Label, HourOf;
      cache.OpenIsSized();
      AddToResult(Bucket(cache.cacheTime, cache.cache));
      PiecesSnoc(cache.flushed, Bucket(cache.cacheTime, cache.cache), [], Entry(0, cache.cache), HourOf(zone));
    }

    // The 24 hours, zero where no bucket fell.
    method GetResult() returns (out: seq<ReportData>)
      requires IsBucketMap(pieces, result)
      requires forall i :: 0 <= i < |pieces| ==> 0 <= pieces[i].key < 24
      ensures IsChart(pieces, HOURS, out)
    {
      out := [];
      for i := 0 to 24
        invariant |out| == i && forall j :: 0 <= j < i ==> IsEntry(out[j], pieces, j)
      {
        if i !in result {
          NothingEntry(pieces, i);
        }
        out := out + [if i in result then result[i] else NOTHING];
      }
      forall i | 0 <= i < |pieces| ensures pieces[i].key in HOURS {
        assert HOURS[pieces[i].key] == pieces[i].key;
      }
    }
  }

  const HOURS: seq<int> := seq(24, i => i)

  // The calendar day that ends at `due`.
  function DayEnding(due: int): Date {
    DateOfDay(DayOf(due - DAY))
  }

  class LoadCurve {
    const cache: Cache
    const chart: Chart<Date>

    constructor ()
      ensures Fresh() && fresh(cache) && fresh(chart)
    {
      cache := new Cache(DAY);
      chart := new Chart<Date>();
    }

    ghost predicate Fresh()
      reads this, cache, chart
    {
      cache.cacheTs == DAY && chart.Valid() && chart.pieces == []
    }

    ghost predicate Valid()
      reads this, cache, chart
    {
      && cache.Valid() && cache.cacheTs == DAY && chart.Valid()
      && chart.pieces == Rekey(BucketPieces(cache.flushed), DayEnding)
    }

    method HandleStart(ctx: EngineContext)
      requires Fresh()
      modifies cache
      ensures Valid() && cache.start == ctx.start && cache.shape == ctx.shape && cache.seen == []
    {
      cache.Init(ctx);
      assert Rekey(BucketPieces([]), DayEnding) == [];
    }

    method HandleLine(ctx: EngineContext, line: RawSourceLine) returns (ok: bool)
      requires Valid() && ctx.start == cache.start && ctx.shape == cache.shape && line.Sized(cache.shape)
      requires ParseRowIdTs(line.id).Ok? ==> cache.Now() <= ParseRowIdTs(line.id).value
      modifies cache, chart
      ensures Valid() && ok == ParseRowIdTs(line.id).Ok?
      ensures cache.start == old(cache.start) && cache.shape == old(cache.shape)
      ensures cache.seen == old(cache.seen) + if ok then [Entry(ParseRowIdTs(line.id).value, line)] else []
    {
      hide ParseRowIdTs, IsGrouping, IsBucketMap, Label, DayEnding;
      var ts := ParseRowIdTs(line.id);
      if ts.Err? {
        return false;
      }
      ghost var before := cache.flushed;
      var flush := cache.CacheLine(ctx, ts.value, line);
      if flush.Some? {
        chart.Add(DayEnding(flush.value.due), flush.value.line);
        PiecesSnoc(before, flush.value, [], Entry(ts.value, line), DayEnding);
      }
      return true;
    }

    method HandleEnd()
      requires Valid()
      modifies chart
      ensures chart.Valid() && chart.pieces == Rekey(BucketPieces(cache.Buckets()), DayEnding)
    {
      hide IsGrouping, IsBucketMap, Label, DayEnding;
      cache.OpenIsSized();
      chart.Add(DayEnding(cache.cacheTime), cache.cache);
      PiecesSnoc(cache.flushed, Bucket(cache.cacheTime, cache.cache), [], Entry(0, cache.cache), DayEnding);
    }
  }

  // The calendar month of a moment.
  function MonthAt(ts: int): (int, int) {
    (YearOf(ts), MonthOf(ts))
  }

  function LineKey(weekly: bool): int -> (int, int) {
    if weekly then IsoWeek else MonthAt
  }

  // A chart whose key is read off each line: ISO weeks, or calendar months.
  class LineCurve {
    const weekly: bool
    const chart: Chart<(int, int)>
    ghost var seen: seq<Entry>

    constructor (weekly: bool)
      ensures Valid() && this.weekly == weekly && seen == [] && fresh(chart)
    {
      this.weekly := weekly;
      chart := new Chart<(int, int)>();
      seen := [];
      new;
      assert Rekey(EntryPieces([]), LineKey(weekly)) == [];
    }

    ghost predicate Valid()
      reads this, chart
    {
      chart.Valid() && chart.pieces == Rekey(EntryPieces(seen), LineKey(weekly))
    }

    method HandleLine(line: RawSourceLine) returns (ok: bool)
      requires Valid() && |line.qovConsumers| == |line.consumers| && |line.qovProducers| == |line.producers|
      modifies this, chart
      ensures Valid() && ok == ParseRowIdTs(line.id).Ok?
      ensures seen == old(seen) + if ok then [Entry(ParseRowIdTs(line.id).value, line)] else []
    {
      hide ParseRowIdTs, IsBucketMap, LineKey;
      var ts := ParseRowIdTs(line.id);
      if ts.Err? {
        return false;
      }
      chart.Add(LineKey(weekly)(ts.value), line);
      PiecesSnoc([], Bucket(0, line), seen, Entry(ts.value, line), LineKey(weekly));
      seen := seen + [Entry(ts.value, line)];
      return true;
    }
  }

  // The totals of all lines, and the joined quality of all lines.
  ghost predicate SumsUp(rd: ReportData, es: seq<Entry>) {
    && (forall q: Quantity :: rd.Of(q) == AmountOfAll(EntryPieces(es), q))
    && (forall s: Side :: rd.QovOf(s) == CalcQov(0, QovFor(Rekey(EntryPieces(es), Whole), 0, s)))
  }

  lemma {:induction false} SumsUpSnoc(rd: ReportData, out: ReportData, es: seq<Entry>, e: Entry)
    requires SumsUp(rd, es)
    requires forall q: Quantity :: out.Of(q) == rd.Of(q) + Amount(e.line, q)
    requires forall s: Side :: out.QovOf(s) == CalcQov(rd.QovOf(s), LineQov(e.line, s))
    ensures SumsUp(out, es + [e])
  {
    hide Amount, LineQov;
    PiecesSnoc([], Bucket(0, e.line), es, e, Whole);
    assert EntryPieces(es + [e]) == EntryPieces(es) + [Piece(e.ts, e.line)];
    ForSnoc(EntryPieces(es), Piece(e.ts, e.line), e.ts);
    ForSnoc(Rekey(EntryPieces(es), Whole), Piece(0, e.line), 0);
    forall s: Side ensures out.QovOf(s) == CalcQov(0, QovFor(Rekey(EntryPieces(es + [e]), Whole), 0, s)) {
      QovLaws(0, QovFor(Rekey(EntryPieces(es), Whole), 0, s), LineQov(e.line, s));
    }
  }

  // The summary entry keeps no surplus and no counts.
  class Summary {
    var result: ReportData
    ghost var seen: seq<Entry>

    constructor ()
      ensures Valid() && seen == []
    {
      result, seen := NOTHING, [];
    }

    ghost predicate Valid()
      reads this
    {
      SumsUp(result, seen) && result.unused == 0.0 && result.cntConsumer == 0 && result.cntProducer == 0
    }

    method HandleLine(line: RawSourceLine, ghost ts: int)
      requires Valid() && |line.qovConsumers| == |line.consumers| && |line.qovProducers| == |line.producers|
      modifies this
      ensures Valid() && seen == old(seen) + [Entry(ts, line)]
    {
      hide SumsUp;
      ghost var before := result;
      var added := AccumulateConsumers(result, line);
      added := AccumulateProducers(added, line);
      result := added.(cntConsumer := 0, cntProducer := 0);
      SumsUpSnoc(before, result, seen, Entry(ts, line));
      seen := seen + [Entry(ts, line)];
    }
  }

  // One slot summed over all lines.
  function SlotTotal(es: seq<Entry>, s: Side, slot: nat): real {
    if es == [] then 0.0
    else SlotTotal(es[..|es| - 1], s, slot) + SlotSum(es[|es| - 1].line, s, slot, BlockCount(es[|es| - 1].line, s))
  }

  lemma {:induction false} AllBySlot(es: seq<Entry>)
    ensures AmountOfAll(EntryPieces(es), Consumed) == SlotTotal(es, Consumer, 0)
    ensures AmountOfAll(EntryPieces(es), Allocated) == SlotTotal(es, Consumer, 1)
    ensures AmountOfAll(EntryPieces(es), Distributed) == SlotTotal(es, Consumer, 2)
    ensures AmountOfAll(EntryPieces(es), Produced) == SlotTotal(es, Producer, 0)
  {
    if es != [] {
      hide SlotSum, BlockCount;
      AllBySlot(es[..|es| - 1]);
      assert EntryPieces(es)[..|es| - 1] == EntryPieces(es[..|es| - 1]);
    }
  }

  // One key for everything.
  function Whole(x: int): int { 0 }

  // Every entry shows the surplus of its own produced and distributed energy.
  ghost predicate ShowsSurplus(out: seq<ReportData>) {
    forall i :: 0 <= i < |out| ==> out[i].unused == Max0(out[i].produced - out[i].distributed)
  }

  lemma {:induction false} ChartShowsSurplus<K>(ps: seq<Piece<K>>, keys: seq<K>, out: seq<ReportData>)
    requires IsChart(ps, keys, out)
    ensures |out| == |keys| && ShowsSurplus(out)
  {
    forall i | 0 <= i < |out| ensures out[i].unused == Max0(out[i].produced - out[i].distributed) {
      assert IsEntry(out[i], ps, keys[i]);
    }
  }

  // The five reports over one delivery.

  method RunIntraDay(ctx: EngineContext, fs: seq<Entry>, zone: int)
    returns (out: seq<ReportData>, ghost bs: seq<Bucket>)
    requires IsStream(ctx, fs)
    ensures IsGrouping(ctx.start, 60, ctx.shape, fs, bs)
    ensures IsChart(Rekey(BucketPieces(bs), HourOf(zone)), HOURS, out)
    ensures |out| == 24 && ShowsSurplus(out)
  {
    hide ParseRowIdTs, IsGrouping, IsBucketMap, Label;
    var report := new IntraDay(zone);
    report.HandleStart(ctx);
    for n := 0 to |fs|
      invariant report.Valid() && report.cache.start == ctx.start && report.cache.shape == ctx.shape
      invariant report.cache.seen == fs[..n]
    {
      var ok := report.HandleLine(ctx, fs[n].line);
    }
    assert fs[..|fs|] == fs;
    report.HandleEnd();
    bs := report.cache.Buckets();
    out := report.GetResult();
    ChartShowsSurplus(report.pieces, HOURS, out);
  }

  method RunLoadCurve(ctx: EngineContext, fs: seq<Entry>)
    returns (out: seq<ReportData>, ghost keys: seq<Date>, ghost bs: seq<Bucket>)
    requires IsStream(ctx, fs)
    ensures IsGrouping(ctx.start, DAY, ctx.shape, fs, bs)
    ensures IsChart(Rekey(BucketPieces(bs), DayEnding), keys, out)
    ensures forall i :: 0 <= i < |keys| ==> HasKey(Rekey(BucketPieces(bs), DayEnding), keys[i])
    ensures ShowsSurplus(out)
  {
    hide ParseRowIdTs, IsGrouping, IsBucketMap, Label, DayEnding;
    var report := new LoadCurve();
    report.HandleStart(ctx);
    for n := 0 to |fs|
      invariant report.Valid() && report.cache.start == ctx.start && report.cache.shape == ctx.shape
      invariant report.cache.seen == fs[..n]
    {
      var ok := report.HandleLine(ctx, fs[n].line);
    }
    assert fs[..|fs|] == fs;
    report.HandleEnd();
    bs, keys := report.cache.Buckets(), report.chart.order;
    out := report.chart.GetResult();
    ChartShowsSurplus(report.chart.pieces, keys, out);
  }

  method RunLineCurve(ctx: EngineContext, fs: seq<Entry>, weekly: bool)
    returns (out: seq<ReportData>, ghost keys: seq<(int, int)>)
    requires IsStream(ctx, fs)
    ensures IsChart(Rekey(EntryPieces(fs), LineKey(weekly)), keys, out)
    ensures forall i :: 0 <= i < |keys| ==> HasKey(Rekey(EntryPieces(fs), LineKey(weekly)), keys[i])
    ensures ShowsSurplus(out)
  {
    hide ParseRowIdTs, IsBucketMap, LineKey, IsChart;
    var report := new LineCurve(weekly);
    for n := 0 to |fs|
      invariant report.Valid() && report.seen == fs[..n]
    {
      var ok := report.HandleLine(fs[n].line);
    }
    assert fs[..|fs|] == fs;
    keys := report.chart.order;
    out := report.chart.GetResult();
    ChartShowsSurplus(report.chart.pieces, keys, out);
  }

  method RunSummary(ctx: EngineContext, fs: seq<Entry>) returns (out: ReportData)
    requires IsStream(ctx, fs)
    ensures SumsUp(out, fs)
    ensures out.consumed == SlotTotal(fs, Consumer, 0) && out.allotted == SlotTotal(fs, Consumer, 1)
    ensures out.distributed == SlotTotal(fs, Consumer, 2) && out.produced == SlotTotal(fs, Producer, 0)
    ensures out.unused == 0.0 && out.cntConsumer == 0 && out.cntProducer == 0
  {
    hide ParseRowIdTs;
    var report := new Summary();
    for n := 0 to |fs|
      invariant report.Valid() && report.seen == fs[..n]
    {
      report.HandleLine(fs[n].line, fs[n].ts);
    }
    assert fs[..|fs|] == fs;
    out := report.result;
    AllBySlot(fs);
    SummaryFields(out, fs);
  }

  lemma {:induction false} SummaryFields(out: ReportData, fs: seq<Entry>)
    requires SumsUp(out, fs)
    ensures out.consumed == AmountOfAll(EntryPieces(fs), Consumed)
            && out.allotted == AmountOfAll(EntryPieces(fs), Allocated)
    ensures out.distributed == AmountOfAll(EntryPieces(fs), Distributed)
    ensures out.produced == AmountOfAll(EntryPieces(fs), Produced)
  {
    hide AmountOfAll;
    assert out.Of(Consumed) == out.consumed && out.Of(Allocated) == out.allotted;
    assert out.Of(Distributed) == out.distributed && out.Of(Produced) == out.produced;
  }
}
