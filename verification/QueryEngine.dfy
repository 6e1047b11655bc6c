/**
 Engine.Query: the lines of the loader with the missing quarter-hours filled in, as the
 report functions receive them. The consumer callback is turned round: the delivered lines
 are returned, and a report function is run over them.
 */
module QueryEngine {
  import opened Outcomes
  import opened Calendar
  import opened RowId
  import opened CounterPoints
  import opened RawLine
  import opened Loader
  import opened Buckets

  function Filler(ts: int, shape: Shape): Entry {
    Entry(ts, MakeLine(RowIdForTs(ts), shape))
  }

  // The first n fillers after moment a.
  function Gap(a: int, n: nat, shape: Shape): (fs: seq<Entry>)
    ensures |fs| == n
  {
    if n == 0 then [] else Gap(a, n - 1, shape) + [Filler(a + Slots(n), shape)]
  }

  lemma {:induction false} GapAt(a: int, n: nat, shape: Shape, i: nat)
    requires i < n
    ensures Gap(a, n, shape)[i] == Filler(a + Slots(i + 1), shape)
    ensures Gap(a, n, shape)[i].ts == a + Slots(i + 1)
  {
    hide RowIdForTs, MakeLine;
    if i < n - 1 {
      GapAt(a, n - 1, shape, i);
    }
  }

  // How many quarter-hours are missing between two lines.
  function Missing(a: int, b: int): (n: nat)
    ensures a < b ==> a + Slots(n) < b < a + Slots(n + 2)
  {
    if b - a < Slots(2) then 0 else (b - a) / Slots(1) - 1
  }

  function Fill(es: seq<Entry>, shape: Shape): seq<Entry> {
    if |es| <= 1 then es else
    var n := |es| - 1;
    Fill(es[..n], shape) + Gap(es[n - 1].ts, Missing(es[n - 1].ts, es[n].ts), shape) + [es[n]]
  }

  // fs is es with lines that hold nothing put in between.
  ghost predicate Padding(es: seq<Entry>, fs: seq<Entry>, shape: Shape) {
    if fs == [] then es == [] else
    var last, before := fs[|fs| - 1], fs[..|fs| - 1];
    || (es != [] && es[|es| - 1] == last && Padding(es[..|es| - 1], before, shape))
    || (last.line.Empty() && last.line.Sized(shape) && Padding(es, before, shape))
  }

  // How a padded list ends: with the last line of the bare list, or with an empty line.
  lemma {:induction false} PaddingEnd(es: seq<Entry>, fs: seq<Entry>, shape: Shape) returns (kept: bool)
    requires Padding(es, fs, shape) && fs != []
    ensures var before, last := fs[..|fs| - 1], fs[|fs| - 1];
            fs == before + [last]
            && if kept then es != [] && es == es[..|es| - 1] + [last] && Padding(es[..|es| - 1], before, shape)
               else last.line.Empty() && Padding(es, before, shape)
  {
    kept := es != [] && es[|es| - 1] == fs[|fs| - 1] && Padding(es[..|es| - 1], fs[..|fs| - 1], shape);
  }

  lemma {:induction false} PaddingAppend(es: seq<Entry>, fs: seq<Entry>, gap: seq<Entry>, shape: Shape)
    requires Padding(es, fs, shape)
    requires forall i :: 0 <= i < |gap| ==> gap[i].line.Empty() && gap[i].line.Sized(shape)
    ensures Padding(es, fs + gap, shape)
  {
    if gap == [] {
      assert fs + gap == fs;
    } else {
      var n := |gap| - 1;
      PaddingAppend(es, fs, gap[..n], shape);
      assert (fs + gap)[..|fs + gap| - 1] == fs + gap[..n];
    }
  }

  // The real lines come through unchanged and in order, and nothing else carries energy.
  lemma {:induction false} FillIsPadding(es: seq<Entry>, shape: Shape)
    ensures Padding(es, Fill(es, shape), shape)
  {
    if |es| == 1 {
      assert es[..0] == [];
      assert Padding([], [], shape);
    } else if |es| > 1 {
      var n := |es| - 1;
      var gap := Gap(es[n - 1].ts, Missing(es[n - 1].ts, es[n].ts), shape);
      FillIsPadding(es[..n], shape);
      forall i | 0 <= i < |gap| ensures gap[i].line.Empty() && gap[i].line.Sized(shape) {
        GapAt(es[n - 1].ts, |gap|, shape, i);
      }
      PaddingAppend(es[..n], Fill(es[..n], shape), gap, shape);
      assert Fill(es, shape)[..|Fill(es, shape)| - 1] == Fill(es[..n], shape) + gap;
    }
  }

  // Where the i-th filled line comes from: an earlier part, the last gap, or the last line.
  lemma {:induction false} FillSplit(es: seq<Entry>, shape: Shape, i: nat)
    requires |es| > 1 && (i < |Fill(es, shape)| || i == 0)
    ensures Fill(es, shape) != []
    ensures var n := |es| - 1;
            var a, m, f := Fill(es[..n], shape), Missing(es[n - 1].ts, es[n].ts), Fill(es, shape)[i];
            && |Fill(es, shape)| == |a| + m + 1
            && (i < |a| ==> f == a[i])
            && (|a| <= i < |a| + m ==> f == Filler(f.ts, shape) && f.ts == es[n - 1].ts + Slots(i - |a| + 1))
            && (i == |a| + m ==> f == es[n])
  {
    hide Filler, Missing, Gap;
    var n := |es| - 1;
    var a, m := Fill(es[..n], shape), Missing(es[n - 1].ts, es[n].ts);
    var gap := Gap(es[n - 1].ts, m, shape);
    assert Fill(es, shape) == a + gap + [es[n]];
    if |a| <= i < |a| + m {
      GapAt(es[n - 1].ts, m, shape, i - |a|);
    }
  }

  // What the filled stream looks like in time: it keeps the first and last moments, and each
  // step is forward and under half an hour.
  lemma {:induction false} FillSteps(es: seq<Entry>, shape: Shape)
    requires StrictlyAscending(es) && es != []
    ensures var fs := Fill(es, shape);
            && |es| <= |fs| && fs[0] == es[0] && fs[|fs| - 1] == es[|es| - 1]
            && forall i :: 0 < i < |fs| ==> fs[i - 1].ts < fs[i].ts < fs[i - 1].ts + 30
  {
    hide Filler, Fill, Missing;
    if |es| == 1 {
      FillShort(es, shape);
    } else {
      var n := |es| - 1;
      FillSteps(es[..n], shape);
      var fs := Fill(es, shape);
      FillSplit(es, shape, 0);
      FillSplit(es, shape, |fs| - 1);
      forall i | 0 < i < |fs| ensures fs[i - 1].ts < fs[i].ts < fs[i - 1].ts + Slots(2) {
        FillStep(es, shape, i);
      }
    }
  }

  // One step of the filled stream, given those of its earlier part.
  lemma {:induction false} FillStep(es: seq<Entry>, shape: Shape, i: nat)
    requires StrictlyAscending(es) && |es| > 1 && 0 < i < |Fill(es, shape)|
    requires var a := Fill(es[..|es| - 1], shape);
             a != [] && a[|a| - 1] == es[|es| - 2]
             && forall k :: 0 < k < |a| ==> a[k - 1].ts < a[k].ts < a[k - 1].ts + Slots(2)
    ensures Fill(es, shape)[i - 1].ts < Fill(es, shape)[i].ts < Fill(es, shape)[i - 1].ts + Slots(2)
  {
    hide Filler, Fill, Missing;
    var n := |es| - 1;
    var a := Fill(es[..n], shape);
    assert es[n - 1].ts < es[n].ts;
    FillSplit(es, shape, i - 1);
    FillSplit(es, shape, i);
  }

  lemma {:induction false} StepsAscend(fs: seq<Entry>, i: nat, j: nat)
    requires forall k :: 0 < k < |fs| ==> fs[k - 1].ts < fs[k].ts
    requires i < j < |fs|
    ensures fs[i].ts < fs[j].ts
    decreases j
  {
    if i + 1 < j {
      StepsAscend(fs, i, j - 1);
    }
  }

  lemma {:induction false} FillAscends(es: seq<Entry>, shape: Shape)
    requires StrictlyAscending(es)
    ensures StrictlyAscending(Fill(es, shape))
  {
    if es != [] {
      FillSteps(es, shape);
      var fs := Fill(es, shape);
      forall i, j | 0 <= i < j < |fs| ensures fs[i].ts < fs[j].ts {
        StepsAscend(fs, i, j);
      }
    }
  }

  // A whole number of quarter-hours apart.
  predicate SameGrid(a: int, b: int) {
    (b - a) % Slots(1) == 0
  }

  lemma {:induction false} GridShift(a: int, b: int, k: int)
    requires SameGrid(a, b)
    ensures SameGrid(a, b + Slots(k))
  {
  }

  lemma {:induction false} GridStep(a: int, b: int, c: int)
    requires SameGrid(a, b) && SameGrid(a, c) && b < c < b + Slots(2)
    ensures c == b + Slots(1)
  {
  }

  ghost predicate OnQuarterGrid(es: seq<Entry>) {
    forall i :: 0 <= i < |es| ==> SameGrid(es[0].ts, es[i].ts)
  }

  // Fillers stay on the grid of the lines they follow.
  lemma {:induction false} FillOnGrid(es: seq<Entry>, shape: Shape, i: nat)
    requires OnQuarterGrid(es) && i < |Fill(es, shape)|
    ensures SameGrid(es[0].ts, Fill(es, shape)[i].ts)
  {
    hide SameGrid, Fill, Filler, Missing;
    if |es| > 1 {
      var n := |es| - 1;
      var a := Fill(es[..n], shape);
      FillSplit(es, shape, i);
      if i < |a| {
        FillOnGrid(es[..n], shape, i);
      } else {
        GridShift(es[0].ts, es[n - 1].ts, i - |a| + 1);
      }
    } else {
      FillShort(es, shape);
    }
  }

  lemma {:induction false} FillShort(es: seq<Entry>, shape: Shape)
    requires |es| <= 1
    ensures Fill(es, shape) == es
  {
  }

  lemma {:induction false} GridPosition(fs: seq<Entry>, i: nat)
    requires i < |fs| && OnQuarterGrid(fs)
    requires forall k :: 0 < k < |fs| ==> fs[k - 1].ts < fs[k].ts < fs[k - 1].ts + Slots(2)
    ensures fs[i].ts == fs[0].ts + Slots(i)
  {
    if 0 < i {
      GridPosition(fs, i - 1);
      GridStep(fs[0].ts, fs[i - 1].ts, fs[i].ts);
    }
  }

  // On a quarter-hour grid every slot from the first line to the last occurs exactly once.
  lemma {:induction false} FillCompletesGrid(es: seq<Entry>, shape: Shape)
    requires StrictlyAscending(es) && OnQuarterGrid(es) && es != []
    ensures var fs := Fill(es, shape);
            && fs != [] && es[|es| - 1].ts == es[0].ts + 15 * (|fs| - 1)
            && forall i :: 0 <= i < |fs| ==> fs[i].ts == es[0].ts + 15 * i
  {
    hide Fill, SameGrid;
    var fs := Fill(es, shape);
    FillSteps(es, shape);
    forall i | 0 <= i < |fs| ensures SameGrid(fs[0].ts, fs[i].ts) {
      FillOnGrid(es, shape, i);
    }
    forall i | 0 <= i < |fs| ensures fs[i].ts == es[0].ts + Slots(i) {
      GridPosition(fs, i);
    }
  }

  // Each delivered line is one of the loaded lines or a filler at a moment without one.
  lemma {:induction false} FillLines(es: seq<Entry>, shape: Shape, i: nat)
    requires StrictlyAscending(es) && i < |Fill(es, shape)|
    ensures var f := Fill(es, shape)[i];
            f in es || (f == Filler(f.ts, shape) && !HasMoment(es, f.ts) && es[0].ts < f.ts < es[|es| - 1].ts)
  {
    hide Filler, Fill;
    var f := Fill(es, shape)[i];
    if |es| > 1 {
      var n := |es| - 1;
      FillSplit(es, shape, i);
      if i < |Fill(es[..n], shape)| {
        FillLines(es[..n], shape, i);
        assert f in es || !HasMoment(es, f.ts) by {
          if f !in es[..n] {
            forall j | 0 <= j < |es| ensures es[j].ts != f.ts {
              if j < n {
                assert es[..n][j].ts == es[j].ts;
              }
            }
          }
        }
      }
    } else {
      FillShort(es, shape);
    }
  }

  // The delivered lines: in time order, covering every row's moment, each showing the table at
  // the moment its id reads back as.
  ghost predicate Delivered(cps: seq<CounterPoint>, shape: Shape, rows: seq<SlotRow>, fs: seq<Entry>) {
    && StrictlyAscending(fs)
    && (forall i :: 0 <= i < |rows| ==> HasMoment(fs, rows[i].ts))
    && (forall i :: 0 <= i < |fs| ==> Shows(cps, shape, rows, fs[i].ts, fs[i].line))
    && (forall i :: 0 <= i < |fs| ==> ParseRowIdTs(fs[i].line.id) == Ok(fs[i].ts))
  }

  lemma {:induction false} PrintableBetween(a: int, b: int, c: int)
    requires a <= b <= c && Printable(a) && Printable(c)
    ensures Printable(b)
  {
    YearsInOrder(a, b);
    YearsInOrder(b, c);
  }

  lemma {:induction false} FilledLineShows(cps: seq<CounterPoint>, shape: Shape, rows: seq<SlotRow>, es: seq<Entry>,
                                           f: Entry)
    requires IsTable(cps, shape, rows, es)
    requires AllPrintable(es)
    requires f in es || (f == Filler(f.ts, shape) && !HasMoment(es, f.ts) && es != []
                         && es[0].ts < f.ts < es[|es| - 1].ts)
    ensures Shows(cps, shape, rows, f.ts, f.line)
    ensures ParseRowIdTs(f.line.id) == Ok(f.ts)
  {
    hide Printable, RowIdForTs, ParseRowIdTs;
    if f !in es {
      forall j | 0 <= j < |rows| ensures rows[j].ts != f.ts {
        assert HasMoment(es, rows[j].ts);
      }
      EmptyShows(cps, shape, rows, f.ts, f.line);
      PrintableBetween(es[0].ts, f.ts, es[|es| - 1].ts);
    }
    RowIdRoundTrip(f.ts);
  }

  lemma {:induction false} FillDelivers(cps: seq<CounterPoint>, shape: Shape, rows: seq<SlotRow>, es: seq<Entry>)
    requires IsTable(cps, shape, rows, es)
    requires AllPrintable(es)
    ensures Delivered(cps, shape, rows, Fill(es, shape))
  {
    hide Printable, RowIdForTs, ParseRowIdTs, Shows;
    var fs := Fill(es, shape);
    FillAscends(es, shape);
    forall i | 0 <= i < |fs| ensures Shows(cps, shape, rows, fs[i].ts, fs[i].line)
       && ParseRowIdTs(fs[i].line.id) == Ok(fs[i].ts) {
      FillLines(es, shape, i);
      FilledLineShows(cps, shape, rows, es, fs[i]);
    }
    FillIsPadding(es, shape);
    forall i | 0 <= i < |rows| ensures HasMoment(fs, rows[i].ts) {
      assert HasMoment(es, rows[i].ts);
      var j :| 0 <= j < |es| && es[j].ts == rows[i].ts;
      PaddingKeeps(es, fs, shape, j);
    }
  }

  lemma {:induction false} PaddingKeeps(es: seq<Entry>, fs: seq<Entry>, shape: Shape, j: nat)
    requires Padding(es, fs, shape) && j < |es|
    ensures HasMoment(fs, es[j].ts)
  {
    var n := |fs| - 1;
    var kept := PaddingEnd(es, fs, shape);
    if kept && j == |es| - 1 {
      assert fs[n].ts == es[j].ts;
    } else {
      var bare := if kept then es[..|es| - 1] else es;
      PaddingKeeps(bare, fs[..n], shape, j);
      assert bare[j] == es[j];
      MomentStays(fs, n, es[j].ts);
    }
  }

  lemma {:induction false} MomentStays(fs: seq<Entry>, n: nat, ts: int)
    requires n <= |fs| && HasMoment(fs[..n], ts)
    ensures HasMoment(fs, ts)
  {
    var i :| 0 <= i < n && fs[..n][i].ts == ts;
    assert fs[i].ts == ts;
  }

  lemma {:induction false} NoRowsNoLines(cps: seq<CounterPoint>, shape: Shape, rows: seq<SlotRow>, es: seq<Entry>)
    requires IsTable(cps, shape, rows, es)
    ensures rows == [] <==> es == []
  {
    if es != [] {
      assert HasRowAt(rows, es[0].ts);
    }
    if rows != [] {
      assert HasMoment(es, rows[0].ts);
    }
  }

  lemma {:induction false} NothingToFill(shape: Shape)
    ensures Fill([], shape) == []
  {
  }

  lemma {:induction false} FillNext(es: seq<Entry>, n: nat, shape: Shape)
    requires n < |es|
    ensures Fill(es[..n + 1], shape)
            == Fill(es[..n], shape)
               + ((if n == 0 then [] else Gap(es[n - 1].ts, Missing(es[n - 1].ts, es[n].ts), shape)) + [es[n]])
  {
    assert es[..n + 1][..n] == es[..n];
  }

  // The window is widened to whole days, and starts with the first line rather than the request.
  function BuildEngineCtx(cps: seq<CounterPoint>, shape: Shape, first: int, end: int): EngineContext {
    EngineContext(Midnight(first), Midnight(end) + DAY - Slots(1), cps, shape)
  }

  // From the first midnight before the first line to the last quarter-hour of the requested end's day.
  lemma {:induction false} ContextIsWholeDays(cps: seq<CounterPoint>, shape: Shape, first: int, end: int)
    ensures var c := BuildEngineCtx(cps, shape, first, end);
            && c.start % 1440 == 0 && c.start <= first < c.start + 1440
            && c.end % 1440 == 23 * 60 + 45 && c.end - (23 * 60 + 45) <= end < c.end + 15
            && c.meta == cps && c.shape == shape
  {
  }

  datatype Delivery = Delivery(ctx: EngineContext, entries: seq<Entry>)

  // The lines put in between two moments.
  method FillGap(loader: DataLoader, a: int, b: int) returns (gap: seq<Entry>)
    requires a <= b
    ensures gap == Gap(a, Missing(a, b), loader.ShapeOf())
  {
    hide RowIdForTs, MakeLine;
    gap := [];
    var diff := (b - a) / Slots(1);
    var i := 1;
    while i < diff
      invariant 1 <= i && (i == 1 || i <= diff)
      invariant gap == Gap(a, i - 1, loader.ShapeOf())
    {
      var ts := a + Slots(i);
      gap := gap + [Entry(ts, loader.LineFor(RowIdForTs(ts)))];
      i := i + 1;
    }
    assert diff < 2 <==> b - a < Slots(2);
  }

  // The id of a line reads back as its moment unless the year is too wide for it.
  predicate ReadsBack(e: Entry) {
    if Printable(e.ts) then ParseRowIdTs(e.line.id) == Ok(e.ts) else ParseRowIdTs(e.line.id).Err?
  }

  ghost predicate AllReadBack(es: seq<Entry>) {
    forall n :: 0 <= n < |es| ==> ReadsBack(es[n])
  }

  predicate AllPrintable(es: seq<Entry>) {
    forall n :: 0 <= n < |es| ==> Printable(es[n].ts)
  }

  // One loaded line: the fillers since the line before it, if there is one, and the line.
  method HandleLine(loader: DataLoader, prev: Option<int>, line: RawSourceLine, ghost e: Entry, ghost shape: Shape)
    returns (r: Result<seq<Entry>>)
    requires ReadsBack(e) && e.line == line && shape == loader.ShapeOf()
    requires prev.Some? ==> prev.value <= e.ts
    ensures r.Ok? <==> Printable(e.ts)
    ensures r.Ok? ==>
              r.value == (if prev.None? then [] else Gap(prev.value, Missing(prev.value, e.ts), shape)) + [e]
  {
    hide ParseRowIdTs, Printable, Gap, Missing;
    var ts := ParseRowIdTs(line.id);
    if ts.Err? {
      return Err(ts.message);
    }
    var gap := [];
    if prev.Some? {
      gap := FillGap(loader, prev.value, ts.value);
    }
    return Ok(gap + [Entry(ts.value, line)]);
  }

  // What a query answers: the lines of the table with the gaps filled, or an error when there
  // are no rows or a row id does not scan.
  ghost predicate IsAnswer(cps: seq<CounterPoint>, shape: Shape, rows: seq<SlotRow>, end: int, es: seq<Entry>,
                           r: Result<Delivery>) {
    && (r.Ok? <==> rows != [] && AllPrintable(es))
    && (r.Ok? ==>
          && r.value.entries == Fill(es, shape)
          && Delivered(cps, shape, rows, r.value.entries)
          && es != [] && r.value.ctx == BuildEngineCtx(cps, shape, es[0].ts, end))
  }

  lemma {:induction false} NextLine(es: seq<Entry>, n: nat)
    requires StrictlyAscending(es) && AllReadBack(es) && n < |es|
    ensures ReadsBack(es[n]) && (0 < n ==> es[n - 1].ts < es[n].ts)
    ensures AllPrintable(es[..n + 1]) <==> AllPrintable(es[..n]) && Printable(es[n].ts)
    ensures AllPrintable(es) ==> Printable(es[n].ts)
    ensures AllPrintable(es[..0])
  {
    hide ReadsBack, Printable;
    if AllPrintable(es[..n + 1]) {
      forall i | 0 <= i < n ensures Printable(es[..n][i].ts) {
        assert es[..n + 1][i] == es[..n][i];
      }
      assert es[..n + 1][n] == es[n];
    }
  }

  // The delivered entries for the loaded lines, or the first scanning error.
  method Collect(loader: DataLoader, lines: seq<Entry>) returns (r: Result<seq<Entry>>)
    requires AllReadBack(lines) && StrictlyAscending(lines)
    ensures r.Ok? <==> AllPrintable(lines)
    ensures r.Ok? ==> r.value == Fill(lines, loader.ShapeOf())
  {
    ghost var shape := loader.ShapeOf();
    hide *;
    NothingToFill(shape);
    var out := [];
    var prev := None;
    for n := 0 to |lines|
      invariant AllPrintable(lines[..n])
      invariant out == Fill(lines[..n], shape)
      invariant prev == if n == 0 then None else Some(lines[n - 1].ts)
    {
      NextLine(lines, n);
      var next := HandleLine(loader, prev, lines[n].line, lines[n], shape);
      if next.Err? {
        return Err(next.message);
      }
      FillNext(lines, n, shape);
      out := out + next.value;
      prev := Some(lines[n].ts);
    }
    assert lines[..|lines|] == lines;
    return Ok(out);
  }

  method Query(loader: DataLoader, rows: seq<SlotRow>, end: int) returns (r: Result<Delivery>, ghost es: seq<Entry>)
    requires loader.Valid() && DistinctBlocks(loader.cps)
    requires SortedByTime(rows)
    ensures IsTable(loader.cps, loader.ShapeOf(), rows, es)
    ensures IsAnswer(loader.cps, loader.ShapeOf(), rows, end, es, r)
    ensures r.Ok? ==> rows != [] && Delivered(loader.cps, loader.ShapeOf(), rows, r.value.entries)
  {
    assert loader.Valid();
    hide *;
    var lines := loader.Emit(rows);
    es := lines;
    LinesReadBack(loader.cps, loader.ShapeOf(), rows, es);
    var out := Collect(loader, lines);
    if out.Err? {
      r := Err(out.message);
    } else if |lines| == 0 {
      r := Err("no rows found in range");
    } else {
      r := Ok(Delivery(BuildEngineCtx(loader.cps, loader.ShapeOf(), lines[0].ts, end), out.value));
    }
    AnswerFromLines(loader.cps, loader.ShapeOf(), rows, end, es, r);
    AnswerDelivers(loader.cps, loader.ShapeOf(), rows, end, es, r);
  }

  lemma {:induction false} AnswerDelivers(cps: seq<CounterPoint>, shape: Shape, rows: seq<SlotRow>, end: int,
                                          es: seq<Entry>,
                                          r: Result<Delivery>)
    requires IsAnswer(cps, shape, rows, end, es, r)
    ensures r.Ok? ==> rows != [] && Delivered(cps, shape, rows, r.value.entries)
  {
    hide Delivered, Fill, AllPrintable;
  }

  lemma {:induction false} LinesReadBack(cps: seq<CounterPoint>, shape: Shape, rows: seq<SlotRow>, es: seq<Entry>)
    requires IsTable(cps, shape, rows, es)
    ensures StrictlyAscending(es)
    ensures AllReadBack(es)
  {
    hide Printable, ParseRowIdTs, RowIdForTs, Shows;
    forall n | 0 <= n < |es| ensures ReadsBack(es[n]) {
      RowIdRoundTrip(es[n].ts);
    }
  }

  lemma {:induction false} AnswerFromLines(cps: seq<CounterPoint>, shape: Shape, rows: seq<SlotRow>, end: int,
                                           es: seq<Entry>, r: Result<Delivery>)
    requires IsTable(cps, shape, rows, es)
    requires if es == [] || !AllPrintable(es) then r.Err?
             else r == Ok(Delivery(BuildEngineCtx(cps, shape, es[0].ts, end), Fill(es, shape)))
    ensures IsAnswer(cps, shape, rows, end, es, r)
  {
    hide Printable, Shows, Fill, BuildEngineCtx;
    NoRowsNoLines(cps, shape, rows, es);
    if r.Ok? {
      FillDelivers(cps, shape, rows, es);
    }
  }

  // What a report function may rely on in the lines it is given.
  ghost predicate IsStream(ctx: EngineContext, fs: seq<Entry>) {
    && fs != [] && StrictlyAscending(fs) && AllSized(fs, ctx.shape)
    && ctx.start == Midnight(fs[0].ts)
    && forall i :: 0 <= i < |fs| ==> ParseRowIdTs(fs[i].line.id) == Ok(fs[i].ts)
  }

  lemma {:induction false} AnswerIsStream(cps: seq<CounterPoint>, shape: Shape, rows: seq<SlotRow>, end: int,
                                          es: seq<Entry>, r: Result<Delivery>)
    requires IsTable(cps, shape, rows, es) && IsAnswer(cps, shape, rows, end, es, r) && r.Ok?
    ensures IsStream(r.value.ctx, r.value.entries)
  {
    hide ParseRowIdTs, RowIdForTs, Printable, Fill;
    FillSteps(es, shape);
  }
}
