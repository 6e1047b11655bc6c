/**
 The streaming time-bucketer of the report functions, and the group-by it must agree with.
 The flush callback is turned round: a line that crosses a boundary returns the finished
 bucket, and the caller passes it on.
 */
module Buckets {
  import opened Outcomes
  import opened CounterPoints
  import opened RawLine

  // What a report function is told at the start of a query.
  datatype EngineContext = EngineContext(start: int, end: int, meta: seq<CounterPoint>, shape: Shape)

  // A finished bucket. `due` is the moment the bucket ends.
  datatype Bucket = Bucket(due: int, line: RawSourceLine)

  // The end of the bucket of width w, counted from s, that holds ts.
  function Label(s: int, w: int, ts: int): int
    requires 0 < w
  {
    s + ((ts - s) / w + 1) * w
  }

  lemma {:induction false} MulAscends(a: int, b: int, w: int)
    requires a <= b && 0 < w
    ensures a * w <= b * w
  {
    assert (b - a) * w == b * w - a * w;
  }

  lemma {:induction false} QuotientIsDetermined(d: int, w: int, q: int)
    requires 0 < w
    requires q * w <= d < q * w + w
    ensures d / w == q
  {
    var p := d / w;
    assert d == p * w + d % w;
    assert (p + 1) * w == p * w + w && (q + 1) * w == q * w + w;
    if p < q {
      MulAscends(p + 1, q, w);
    } else if q < p {
      MulAscends(q + 1, p, w);
    }
  }

  lemma {:induction false} LabelBounds(s: int, w: int, ts: int)
    requires 0 < w
    ensures Label(s, w, ts) - w <= ts < Label(s, w, ts)
  {
    var q := (ts - s) / w;
    assert ts - s == q * w + (ts - s) % w;
    assert (q + 1) * w == q * w + w;
  }

  // The moments of one bucket are those between its start and its end.
  lemma {:induction false} LabelIsDetermined(s: int, w: int, a: int, ts: int)
    requires 0 < w
    requires Label(s, w, a) - w <= ts < Label(s, w, a)
    ensures Label(s, w, ts) == Label(s, w, a)
  {
    var q := (a - s) / w;
    assert (q + 1) * w == q * w + w;
    QuotientIsDetermined(ts - s, w, q);
  }

  // The catch-up jump: after one width, and enough further whole widths when that does not
  // reach, the next bucket is the one that holds ts.
  lemma {:induction false} CatchUp(s: int, w: int, a: int, ts: int)
    requires 0 < w && Label(s, w, a) <= ts
    ensures var next := Label(s, w, a) + w;
            Label(s, w, ts) == if ts < next then next else next + ((ts - next) / w + 1) * w
  {
    var q, next := (a - s) / w, Label(s, w, a) + w;
    var n := if ts < next then 0 else (ts - next) / w + 1;
    assert next == s + (q + 2) * w by {
      assert (q + 2) * w == (q + 1) * w + w;
    }
    assert next + n * w - w <= ts < next + n * w by {
      if next <= ts {
        LabelBounds(0, w, ts - next);
      }
    }
    assert (q + 1 + n) * w == (q + 2) * w - w + n * w;
    QuotientIsDetermined(ts - s, w, q + 1 + n);
    assert (q + 1 + n + 1) * w == (q + 1 + n) * w + w;
  }

  // The lines whose bucket ends at `due`, in order.
  function InBucket(s: int, w: int, es: seq<Entry>, due: int): seq<Entry>
    requires 0 < w
  {
    if es == [] then [] else
    var last := es[|es| - 1];
    InBucket(s, w, es[..|es| - 1], due) + if Label(s, w, last.ts) == due then [last] else []
  }

  predicate HasLabel(bs: seq<Bucket>, due: int) {
    exists i :: 0 <= i < |bs| && bs[i].due == due
  }

  predicate Touched(s: int, w: int, es: seq<Entry>, due: int)
    requires 0 < w
  {
    exists i :: 0 <= i < |es| && Label(s, w, es[i].ts) == due
  }

  // The group-by of the lines: one bucket for the first interval and one for each interval
  // that holds a line, in order, each holding the cell-wise totals of exactly its lines.
  ghost predicate IsGrouping(s: int, w: int, shape: Shape, es: seq<Entry>, bs: seq<Bucket>)
    requires 0 < w
  {
    && bs != [] && bs[0].due == s + w
    && (forall i, j :: 0 <= i < j < |bs| ==> bs[i].due < bs[j].due)
    && (forall i :: 0 < i < |bs| ==> Touched(s, w, es, bs[i].due))
    && (forall i :: 0 <= i < |es| ==> HasLabel(bs, Label(s, w, es[i].ts)))
    && (forall i :: 0 <= i < |bs| ==> IsTotal(bs[i].line, shape, InBucket(s, w, es, bs[i].due)))
  }

  lemma {:induction false} NoLateLines(s: int, w: int, es: seq<Entry>, due: int)
    requires 0 < w
    requires !Touched(s, w, es, due)
    ensures InBucket(s, w, es, due) == []
  {
    if es != [] {
      var n := |es| - 1;
      assert !Touched(s, w, es[..n], due) by {
        assert forall i :: 0 <= i < n ==> es[..n][i] == es[i];
      }
      NoLateLines(s, w, es[..n], due);
      assert Label(s, w, es[n].ts) != due;
    }
  }

  lemma {:induction false} InBucketSnoc(s: int, w: int, es: seq<Entry>, e: Entry, due: int)
    requires 0 < w
    ensures InBucket(s, w, es + [e], due)
            == InBucket(s, w, es, due) + if Label(s, w, e.ts) == due then [e] else []
  {
    assert (es + [e])[..|es|] == es;
  }

  lemma {:induction false} TotalSnoc(l: RawSourceLine, m: RawSourceLine, shape: Shape, es: seq<Entry>, e: Entry)
    requires IsTotal(l, shape, es) && e.line.Sized(shape) && m.Sized(shape)
    requires forall s: Side, i: nat {:trigger m.Cell(s, i)} :: i < Width(shape, s) ==>
               m.Cell(s, i) == l.Cell(s, i) + e.line.Cell(s, i)
    requires forall s: Side, i: nat {:trigger m.Qov(s, i)} :: i < Width(shape, s) ==>
               m.Qov(s, i) == CalcQov(l.Qov(s, i), e.line.Qov(s, i))
    ensures IsTotal(m, shape, es + [e])
  {
    assert (es + [e])[..|es|] == es;
  }

  // Starting a bucket with a copy of its first line is starting it empty and adding that line.
  lemma {:induction false} TotalOfOne(shape: Shape, e: Entry)
    requires e.line.Sized(shape)
    ensures IsTotal(e.line, shape, [e])
  {
    assert [e][..0] == [];
  }

  lemma {:induction false} TouchedSnoc(s: int, w: int, es: seq<Entry>, e: Entry, due: int)
    requires 0 < w && Touched(s, w, es, due)
    ensures Touched(s, w, es + [e], due)
  {
    var i :| 0 <= i < |es| && Label(s, w, es[i].ts) == due;
    assert (es + [e])[i] == es[i];
  }

  // Every line still finds its bucket when the buckets keep their ends.
  lemma {:induction false} LabelsKept(s: int, w: int, es: seq<Entry>, bs: seq<Bucket>, e: Entry, cs: seq<Bucket>)
    requires 0 < w
    requires forall i :: 0 <= i < |es| ==> HasLabel(bs, Label(s, w, es[i].ts))
    requires |bs| <= |cs| && forall i :: 0 <= i < |bs| ==> cs[i].due == bs[i].due
    requires HasLabel(cs, Label(s, w, e.ts))
    ensures forall i :: 0 <= i < |es + [e]| ==> HasLabel(cs, Label(s, w, (es + [e])[i].ts))
  {
    forall i | 0 <= i < |es| ensures HasLabel(cs, Label(s, w, es[i].ts)) {
      assert HasLabel(bs, Label(s, w, es[i].ts));
      var j :| 0 <= j < |bs| && bs[j].due == Label(s, w, es[i].ts);
      assert cs[j].due == bs[j].due;
    }
  }

  // Adding a line to the last bucket keeps the group-by.
  lemma {:induction false} GroupingAdd(s: int, w: int, shape: Shape, es: seq<Entry>, bs: seq<Bucket>, e: Entry,
                                       m: RawSourceLine)
    requires 0 < w && bs != []
    requires IsGrouping(s, w, shape, es, bs)
    requires Label(s, w, e.ts) == bs[|bs| - 1].due
    requires IsTotal(m, shape, InBucket(s, w, es, bs[|bs| - 1].due) + [e])
    ensures IsGrouping(s, w, shape, es + [e], bs[..|bs| - 1] + [Bucket(bs[|bs| - 1].due, m)])
  {
    var n := |bs| - 1;
    var cs := bs[..n] + [Bucket(bs[n].due, m)];
    assert cs[n].due == Label(s, w, e.ts);
    LabelsKept(s, w, es, bs, e, cs);
    forall i | 0 < i < |cs| ensures Touched(s, w, es + [e], cs[i].due) {
      TouchedSnoc(s, w, es, e, cs[i].due);
    }
    forall i | 0 <= i < |cs| ensures IsTotal(cs[i].line, shape, InBucket(s, w, es + [e], cs[i].due)) {
      InBucketSnoc(s, w, es, e, cs[i].due);
      if i < n {
        assert InBucket(s, w, es + [e], cs[i].due) == InBucket(s, w, es, bs[i].due);
      }
    }
  }

  lemma {:induction false} OpenIsTotal(s: int, w: int, shape: Shape, es: seq<Entry>, flushed: seq<Bucket>, due: int,
                                       l: RawSourceLine)
    requires 0 < w
    requires IsGrouping(s, w, shape, es, flushed + [Bucket(due, l)])
    ensures IsTotal(l, shape, InBucket(s, w, es, due)) && l.Sized(shape)
  {
    assert (flushed + [Bucket(due, l)])[|flushed|] == Bucket(due, l);
  }

  // The same, for the open bucket of the cache: its line l becomes m, cell by cell.
  lemma {:induction false} GroupingGrows(s: int, w: int, shape: Shape, es: seq<Entry>, flushed: seq<Bucket>, due: int,
                      l: RawSourceLine, m: RawSourceLine, e: Entry)
    requires 0 < w
    requires IsGrouping(s, w, shape, es, flushed + [Bucket(due, l)])
    requires Label(s, w, e.ts) == due && e.line.Sized(shape) && m.Sized(shape)
    requires forall s: Side, i: nat {:trigger m.Cell(s, i)} :: i < Width(shape, s) ==>
               m.Cell(s, i) == l.Cell(s, i) + e.line.Cell(s, i)
    requires forall s: Side, i: nat {:trigger m.Qov(s, i)} :: i < Width(shape, s) ==>
               m.Qov(s, i) == CalcQov(l.Qov(s, i), e.line.Qov(s, i))
    ensures IsGrouping(s, w, shape, es + [e], flushed + [Bucket(due, m)])
  {
    var bs := flushed + [Bucket(due, l)];
    OpenIsTotal(s, w, shape, es, flushed, due, l);
    TotalSnoc(l, m, shape, InBucket(s, w, es, due), e);
    GroupingAdd(s, w, shape, es, bs, e, m);
    assert bs[..|bs| - 1] == flushed;
  }

  // Opening a later bucket with its first line keeps the group-by.
  lemma {:induction false} GroupingOpen(s: int, w: int, shape: Shape, es: seq<Entry>, bs: seq<Bucket>, e: Entry,
                                        m: RawSourceLine)
    requires 0 < w
    requires IsGrouping(s, w, shape, es, bs)
    requires bs[|bs| - 1].due < Label(s, w, e.ts)
    requires IsTotal(m, shape, [e])
    ensures IsGrouping(s, w, shape, es + [e], bs + [Bucket(Label(s, w, e.ts), m)])
  {
    hide Label, IsTotal, Touched, HasLabel, InBucket;
    var newest := Label(s, w, e.ts);
    var cs := bs + [Bucket(newest, m)];
    assert cs[|bs|].due == newest;
    LabelsKept(s, w, es, bs, e, cs);
    NewLabel(s, w, shape, es, bs, newest);
    forall i | 0 < i < |cs| ensures Touched(s, w, es + [e], cs[i].due) {
      if i < |bs| {
        assert cs[i] == bs[i];
      }
      TouchedByNext(s, w, es, e, cs[i].due);
    }
    forall i | 0 <= i < |cs| ensures IsTotal(cs[i].line, shape, InBucket(s, w, es + [e], cs[i].due)) {
      InBucketSnoc(s, w, es, e, cs[i].due);
      if i < |bs| {
        assert cs[i].due < newest;
        assert InBucket(s, w, es + [e], cs[i].due) == InBucket(s, w, es, cs[i].due);
      } else {
        assert InBucket(s, w, es + [e], cs[i].due) == [] + [e] == [e];
      }
    }
  }

  // No line before belongs to a label past the last bucket.
  lemma {:induction false} NewLabel(s: int, w: int, shape: Shape, es: seq<Entry>, bs: seq<Bucket>, newest: int)
    requires 0 < w
    requires IsGrouping(s, w, shape, es, bs) && bs[|bs| - 1].due < newest
    ensures InBucket(s, w, es, newest) == []
  {
    hide Label, IsTotal;
    assert !Touched(s, w, es, newest) by {
      forall i | 0 <= i < |es| ensures Label(s, w, es[i].ts) != newest {
        assert HasLabel(bs, Label(s, w, es[i].ts));
      }
    }
    NoLateLines(s, w, es, newest);
  }

  lemma {:induction false} TouchedByNext(s: int, w: int, es: seq<Entry>, e: Entry, due: int)
    requires 0 < w
    requires Touched(s, w, es, due) || Label(s, w, e.ts) == due
    ensures Touched(s, w, es + [e], due)
  {
    hide Label;
    if Touched(s, w, es, due) {
      TouchedSnoc(s, w, es, e, due);
    } else {
      assert (es + [e])[|es|] == e;
    }
  }

  // The group-by of a list of lines is unique in labels and cells.
  lemma {:induction false} GroupingLabels(s: int, w: int, shape: Shape, es: seq<Entry>, bs: seq<Bucket>,
                                          cs: seq<Bucket>,
                                          i: nat)
    requires 0 < w
    requires IsGrouping(s, w, shape, es, bs) && IsGrouping(s, w, shape, es, cs)
    requires i < |bs|
    ensures i < |cs| && bs[i].due == cs[i].due
  {
    if 0 < i {
      GroupingLabels(s, w, shape, es, bs, cs, i - 1);
      SameNext(s, w, shape, es, bs, cs, i);
      if i < |cs| {
        SameNext(s, w, shape, es, cs, bs, i);
      }
    }
  }

  lemma {:induction false} SameNext(s: int, w: int, shape: Shape, es: seq<Entry>, bs: seq<Bucket>, cs: seq<Bucket>,
                                    i: nat)
    requires 0 < w
    requires IsGrouping(s, w, shape, es, bs) && IsGrouping(s, w, shape, es, cs)
    requires 0 < i < |bs| && i <= |cs| && bs[i - 1].due == cs[i - 1].due
    ensures i < |cs| && cs[i].due <= bs[i].due
  {
    assert Touched(s, w, es, bs[i].due);
    assert HasLabel(cs, bs[i].due);
    var j :| 0 <= j < |cs| && cs[j].due == bs[i].due;
    assert bs[i - 1].due < bs[i].due;
    assert j != i - 1 && !(j < i - 1);
  }

  lemma {:induction false} GroupingIsUnique(s: int, w: int, shape: Shape, es: seq<Entry>, bs: seq<Bucket>,
                                            cs: seq<Bucket>)
    requires 0 < w
    requires IsGrouping(s, w, shape, es, bs) && IsGrouping(s, w, shape, es, cs)
    ensures |bs| == |cs|
    ensures forall i :: 0 <= i < |bs| ==> bs[i].due == cs[i].due
    ensures forall i, d: Side, c: nat {:trigger bs[i].line.Cell(d, c)} :: 0 <= i < |bs| && c < Width(shape, d) ==>
              bs[i].line.Cell(d, c) == cs[i].line.Cell(d, c)
    ensures forall i, d: Side, c: nat {:trigger bs[i].line.Qov(d, c)} :: 0 <= i < |bs| && c < Width(shape, d) ==>
              bs[i].line.Qov(d, c) == cs[i].line.Qov(d, c)
  {
    GroupingLabels(s, w, shape, es, bs, cs, |bs| - 1);
    GroupingLabels(s, w, shape, es, cs, bs, |cs| - 1);
    forall i | 0 <= i < |bs| ensures bs[i].due == cs[i].due {
      GroupingLabels(s, w, shape, es, bs, cs, i);
    }
  }

  class Cache {
    const cacheTs: int
    var cacheTime: int
    var cache: RawSourceLine

    // What the cache has been given and what it has handed out since Init.
    ghost var start: int
    ghost var shape: Shape
    ghost var seen: seq<Entry>
    ghost var flushed: seq<Bucket>

    constructor (width: int)
      ensures cacheTs == width
    {
      cacheTs := width;
      cacheTime := 0;
      cache := RawSourceLine("", [], [], [], []);
    }

    // The latest moment seen.
    ghost function Now(): int
      reads this
    {
      if seen == [] then start else seen[|seen| - 1].ts
    }

    // All buckets so far, the open one last.
    ghost function Buckets(): seq<Bucket>
      reads this
    {
      flushed + [Bucket(cacheTime, cache)]
    }

    // Every finished bucket together with the open one is the group-by of the lines so far,
    // and the open bucket is the one that holds the latest moment, or the first one.
    ghost predicate Valid()
      reads this
    {
      && 0 < cacheTs
      && IsGrouping(start, cacheTs, shape, seen, Buckets())
      && cacheTime - cacheTs <= Now() < cacheTime
      && cacheTime == Label(start, cacheTs, Now())
    }

    method Init(ctx: EngineContext)
      requires 0 < cacheTs
      modifies this
      ensures Valid() && start == ctx.start && shape == ctx.shape && seen == [] && flushed == []
      ensures cacheTime == ctx.start + cacheTs
    {
      cacheTime := ctx.start + cacheTs;
      cache := MakeLine("", ctx.shape);
      start, shape, seen, flushed := ctx.start, ctx.shape, [], [];
      assert cacheTime == Label(start, cacheTs, start) by {
        assert (start - start) / cacheTs == 0;
      }
    }

    // Adds a line cell by cell into the open bucket; cells past either end are left alone.
    method AddToCache(line: RawSourceLine)
      requires |cache.qovConsumers| == |cache.consumers| && |cache.qovProducers| == |cache.producers|
      modifies `cache
      ensures cache.id == line.id
      ensures |cache.consumers| == |cache.qovConsumers| == |old(cache).consumers|
      ensures |cache.producers| == |cache.qovProducers| == |old(cache).producers|
      ensures forall s: Side, i: nat {:trigger cache.Cell(s, i)} :: i < |cache.Cells(s)| ==>
                cache.Cell(s, i) == old(cache).Cell(s, i) + line.Cell(s, i)
      ensures forall s: Side, i: nat {:trigger cache.Qov(s, i)} :: i < |cache.Cells(s)| ==>
                cache.Qov(s, i) == if i < |line.Cells(s)|
                                   then CalcQov(old(cache).Qov(s, i), if i < |line.Qovs(s)| then line.Qovs(s)[i] else 0)
                                   else old(cache).Qov(s, i)
    {
      var consumers, qovConsumers := AddCells(cache.consumers, cache.qovConsumers, line.consumers, line.qovConsumers);
      var producers, qovProducers := AddCells(cache.producers, cache.qovProducers, line.producers, line.qovProducers);
      cache := RawSourceLine(line.id, consumers, producers, qovConsumers, qovProducers);
      assert cache.Cells(Consumer) == consumers && cache.Cells(Producer) == producers;
      assert cache.Qovs(Consumer) == qovConsumers && cache.Qovs(Producer) == qovProducers;
    }

    lemma {:induction false} OpenIsSized()
      requires Valid()
      ensures cache.Sized(shape)
    {
      OpenIsTotal(start, cacheTs, shape, seen, flushed, cacheTime, cache);
    }

    // Takes a line at moment ts; returns the finished bucket when the line is past its end.
    method CacheLine(ctx: EngineContext, ts: int, line: RawSourceLine) returns (flush: Option<Bucket>)
      requires Valid() && ctx.start == start && ctx.shape == shape
      requires Now() <= ts && line.Sized(shape)
      modifies this
      ensures Valid() && start == old(start) && shape == old(shape)
      ensures seen == old(seen) + [Entry(ts, line)]
      ensures flushed == old(flushed) + if flush.Some? then [flush.value] else []
      ensures flush.Some? <==> old(cacheTime) <= ts
      ensures flush.Some? ==> flush.value == Bucket(old(cacheTime), old(cache)) && flush.value.line.Sized(shape)
    {
      hide IsGrouping, IsTotal, Label, InBucket, CalcQov;
      ghost var e := Entry(ts, line);
      OpenIsSized();
      if ts < cacheTime {
        LabelIsDetermined(start, cacheTs, Now(), ts);
        ghost var before := cache;
        AddToCache(line);
        GroupingGrows(start, cacheTs, shape, seen, flushed, cacheTime, before, cache, e);
        seen := seen + [e];
        return None;
      }
      flush := Some(Bucket(cacheTime, cache));
      CatchUp(start, cacheTs, Now(), ts);
      cacheTime := cacheTime + cacheTs;
      if cacheTime <= ts {
        var gap := ts - cacheTime;
        var steps := gap / cacheTs + 1;
        cacheTime := cacheTime + steps * cacheTs;
      }
      assert cacheTime == Label(start, cacheTs, ts);
      LabelBounds(start, cacheTs, ts);
      cache := DeepCopy(line, ctx.shape);
      TotalOfOne(shape, e);
      GroupingOpen(start, cacheTs, shape, seen, flushed + [flush.value], e, cache);
      flushed := flushed + [flush.value];
      seen := seen + [e];
    }
  }

  // The loop addToCache runs over one side of the line.
  method AddCells(cells: seq<real>, qovs: seq<int>, more: seq<real>, moreQovs: seq<int>)
    returns (sums: seq<real>, joins: seq<int>)
    requires |qovs| == |cells|
    ensures |sums| == |cells| && |joins| == |qovs|
    ensures forall i :: 0 <= i < |cells| ==> sums[i] == if i < |more| then cells[i] + more[i] else cells[i]
    ensures forall i :: 0 <= i < |cells| ==>
              joins[i] == if i < |more| then CalcQov(qovs[i], if i < |moreQovs| then moreQovs[i] else 0) else qovs[i]
  {
    sums, joins := cells, qovs;
    for k := 0 to |more|
      invariant |sums| == |cells| && |joins| == |qovs|
      invariant forall i :: 0 <= i < |cells| ==> sums[i] == if i < k then cells[i] + more[i] else cells[i]
      invariant forall i :: 0 <= i < |cells| ==>
                  joins[i] == if i < k then CalcQov(qovs[i], if i < |moreQovs| then moreQovs[i] else 0) else qovs[i]
    {
      if |sums| <= k {
        break;
      }
      var qov := if k < |moreQovs| then moreQovs[k] else 0;
      sums := sums[k := sums[k] + more[k]];
      joins := joins[k := CalcQov(joins[k], qov)];
    }
  }
}
