/**
 Assembling the sorted long-schema rows of a query into one wide line per timestamp.
 The rows are what the SQL query returns: sorted by timestamp, then metering point, then
 meter code, so the last row of a cell is the one with the greatest meter code.
 */
module Loader {
  import opened Outcomes
  import opened Calendar
  import opened RowId
  import opened CounterPoints
  import opened RawLine
  import opened Codes

  datatype SlotRow = SlotRow(ts: int, meter: string, code: string, value: real, qov: int)

  ghost predicate SortedByTime(rows: seq<SlotRow>) {
    forall i, j :: 0 <= i < j < |rows| ==> rows[i].ts <= rows[j].ts
  }

  // The position of a metering point's slot in its half of the line.
  function CellIdx(cp: CounterPoint, slot: nat): nat {
    BlockCell(cp.direction, cp.sourceIdx, slot)
  }

  // The counts that cover every source index of a direction, and no more.
  ghost predicate IsShape(cps: seq<CounterPoint>, shape: Shape) {
    && (forall i :: 0 <= i < |cps| ==> cps[i].sourceIdx < Blocks(shape, cps[i].direction))
    && (forall d: Direction :: Blocks(shape, d) == 0 ||
          exists i :: 0 <= i < |cps| && cps[i].direction == d && cps[i].sourceIdx == Blocks(shape, d) - 1)
  }

  lemma {:induction false} NoMetersNoBlocks(shape: Shape)
    ensures IsShape([], shape) <==> shape == Shape(0, 0)
  {
    assert IsShape([], shape) ==> Blocks(shape, Consumer) == 0 && Blocks(shape, Producer) == 0;
  }

  predicate Feeds(r: SlotRow, cp: CounterPoint, slot: nat) {
    r.meter == cp.meter && SlotForCode(cp.direction, r.code) == Some(slot)
  }

  // The table lookup: the last row of a metering point at a moment that feeds a slot.
  function Lookup(rows: seq<SlotRow>, ts: int, cp: CounterPoint, slot: nat): Option<SlotRow> {
    if rows == [] then None else
    var last := rows[|rows| - 1];
    if last.ts == ts && Feeds(last, cp, slot) then Some(last)
    else Lookup(rows[..|rows| - 1], ts, cp, slot)
  }

  // ---- The order of the rows. ----

  // Before in the order of the characters.
  predicate TextLess(a: string, b: string) {
    b != "" && (a == "" || a[0] < b[0] || (a[0] == b[0] && TextLess(a[1..], b[1..])))
  }

  lemma {:induction false} TextsOrdered(a: string, b: string)
    ensures !(TextLess(a, b) && TextLess(b, a))
  {
    if a != "" && b != "" {
      TextsOrdered(a[1..], b[1..]);
    }
  }

  predicate RowBefore(a: SlotRow, b: SlotRow) {
    a.ts < b.ts || (a.ts == b.ts && (TextLess(a.meter, b.meter) || (a.meter == b.meter && TextLess(a.code, b.code))))
  }

  // The rows of a query, by moment, metering point and code; no cell has two rows.
  ghost predicate SortedRows(rows: seq<SlotRow>) {
    forall i, j :: 0 <= i < j < |rows| ==> RowBefore(rows[i], rows[j])
  }

  lemma {:induction false} SortedRowsAscend(rows: seq<SlotRow>)
    requires SortedRows(rows)
    ensures SortedByTime(rows)
  {
    hide TextLess;
  }

  // The row feeds the slot at the moment.
  predicate FeedsAt(r: SlotRow, ts: int, cp: CounterPoint, slot: nat) {
    r.ts == ts && Feeds(r, cp, slot)
  }

  // In sorted rows the looked-up row is the feeding one with the greatest code.
  lemma {:induction false} LookupIsGreatest(rows: seq<SlotRow>, ts: int, cp: CounterPoint, slot: nat)
    requires SortedRows(rows)
    ensures var found := Lookup(rows, ts, cp, slot);
            && (found.Some? ==> found.value in rows && FeedsAt(found.value, ts, cp, slot))
            && (forall r :: r in rows && FeedsAt(r, ts, cp, slot) ==>
                  found.Some? && (r == found.value || TextLess(r.code, found.value.code)))
  {
    if rows != [] {
      hide TextLess, Feeds;
      var n := |rows| - 1;
      LookupIsGreatest(rows[..n], ts, cp, slot);
      forall r | r in rows && FeedsAt(r, ts, cp, slot) ensures r == rows[n] || r in rows[..n] {
      }
      if FeedsAt(rows[n], ts, cp, slot) {
        forall r | r in rows[..n] && FeedsAt(r, ts, cp, slot) ensures TextLess(r.code, rows[n].code) {
          SameMeters(r, rows[n], cp, slot);
          TextsOrdered(r.meter, r.meter);
          var i :| 0 <= i < n && rows[..n][i] == r;
          assert RowBefore(rows[i], rows[n]);
        }
      }
    }
  }

  lemma {:induction false} SameMeters(r: SlotRow, x: SlotRow, cp: CounterPoint, slot: nat)
    requires Feeds(r, cp, slot) && Feeds(x, cp, slot)
    ensures r.meter == x.meter
  {
  }

  function ValueOr0(r: Option<SlotRow>): real {
    if r.Some? then r.value.value else 0.0
  }

  function QovOr1(r: Option<SlotRow>): int {
    if r.Some? then r.value.qov else 1
  }

  predicate Owned(cps: seq<CounterPoint>, d: Direction, k: nat) {
    exists c, slot: nat :: 0 <= c < |cps| && cps[c].direction == d && slot < Stride(d) && CellIdx(cps[c], slot) == k
  }

  // The slot's cell holds the found row, or nothing.
  predicate Holds(l: RawSourceLine, cp: CounterPoint, slot: nat, found: Option<SlotRow>) {
    && l.Cell(cp.direction, CellIdx(cp, slot)) == ValueOr0(found)
    && l.Qov(cp.direction, CellIdx(cp, slot)) == QovOr1(found)
  }

  // The line shows the table at a moment: each slot of each metering point holds its looked-up
  // row, and cells without an owner hold nothing.
  ghost predicate Shows(cps: seq<CounterPoint>, shape: Shape, rows: seq<SlotRow>, ts: int, l: RawSourceLine) {
    && l.Sized(shape)
    && (forall c, slot: nat :: 0 <= c < |cps| && slot < Stride(cps[c].direction) ==>
          Holds(l, cps[c], slot, Lookup(rows, ts, cps[c], slot)))
    && (forall d: Direction, k: nat {:trigger Owned(cps, d, k)} :: !Owned(cps, d, k) ==>
          l.Cell(d, k) == 0.0 && l.Qov(d, k) == 1)
  }

  predicate HasMoment(es: seq<Entry>, ts: int) {
    exists i :: 0 <= i < |es| && es[i].ts == ts
  }

  predicate HasRowAt(rows: seq<SlotRow>, ts: int) {
    exists i :: 0 <= i < |rows| && rows[i].ts == ts
  }

  ghost predicate StrictlyAscending(es: seq<Entry>) {
    forall i, j :: 0 <= i < j < |es| ==> es[i].ts < es[j].ts
  }

  // One line for each moment that has a row, in order, each showing the table at its moment.
  ghost predicate IsTable(cps: seq<CounterPoint>, shape: Shape, rows: seq<SlotRow>, es: seq<Entry>) {
    && StrictlyAscending(es)
    && (forall i :: 0 <= i < |rows| ==> HasMoment(es, rows[i].ts))
    && (forall i :: 0 <= i < |es| ==> HasRowAt(rows, es[i].ts))
    && (forall i :: 0 <= i < |es| ==> Shows(cps, shape, rows, es[i].ts, es[i].line))
    && (forall i :: 0 <= i < |es| ==> es[i].line.id == RowIdForTs(es[i].ts))
  }

  function SetCell(l: RawSourceLine, d: Direction, k: nat, v: real, q: int): (r: RawSourceLine)
    requires k < |l.Cells(d)| && k < |l.Qovs(d)|
    ensures r.id == l.id
    ensures forall e: Direction :: |r.Cells(e)| == |l.Cells(e)| && |r.Qovs(e)| == |l.Qovs(e)|
    ensures forall e: Direction, j: nat {:trigger r.Cell(e, j)} :: r.Cell(e, j) == if e == d && j == k then v
            else l.Cell(e, j)
    ensures forall e: Direction, j: nat {:trigger r.Qov(e, j)} :: r.Qov(e, j) == if e == d && j == k then q
            else l.Qov(e, j)
  {
    if d == Consumer then l.(consumers := l.consumers[k := v], qovConsumers := l.qovConsumers[k := q])
    else l.(producers := l.producers[k := v], qovProducers := l.qovProducers[k := q])
  }

  // The position of the counterpoint a row belongs to, or a negative number for a stray row.
  ghost predicate IsOwner(cps: seq<CounterPoint>, r: SlotRow, o: int) {
    if 0 <= o then o < |cps| && cps[o].meter == r.meter else forall c :: 0 <= c < |cps| ==> cps[c].meter != r.meter
  }

  // m is the line l with the row written into the cell of its owner's slot, if it has one.
  ghost predicate IsPlaced(cps: seq<CounterPoint>, shape: Shape, r: SlotRow, o: int, l: RawSourceLine, m: RawSourceLine)
    requires l.Sized(shape) && IsOwner(cps, r, o)
  {
    if o < 0 || SlotForCode(cps[o].direction, r.code).None? then m == l else
    var d, k := cps[o].direction, CellIdx(cps[o], SlotForCode(cps[o].direction, r.code).value);
    k < Width(shape, d) && m == SetCell(l, d, k, r.value, r.qov)
  }

  // Blocks of distinct owners do not overlap.
  lemma {:induction false} CellsAreDisjoint(cps: seq<CounterPoint>, a: int, sa: nat, b: int, sb: nat)
    requires DistinctBlocks(cps)
    requires 0 <= a < |cps| && 0 <= b < |cps| && cps[a].direction == cps[b].direction
    requires sa < Stride(cps[a].direction) && sb < Stride(cps[b].direction)
    requires CellIdx(cps[a], sa) == CellIdx(cps[b], sb)
    ensures a == b && sa == sb
  {
    assert cps[a].sourceIdx == cps[b].sourceIdx;
  }

  lemma {:induction false} CellInBounds(cps: seq<CounterPoint>, shape: Shape, c: int, slot: nat)
    requires IsShape(cps, shape) && 0 <= c < |cps| && slot < Stride(cps[c].direction)
    ensures CellIdx(cps[c], slot) < Width(shape, cps[c].direction)
  {
  }

  // In every history of the counterpoint table without a clashing upsert, the map from (metering
  // point, slot) to cells that the loader uses is in bounds and injective.
  lemma {:induction false} CellsOfHistory(states: seq<Table>, steps: seq<Step>, i: nat, tenant: string, ec: string,
                                          cps: seq<CounterPoint>, shape: Shape, a: int, sa: nat, b: int, sb: nat)
    requires IsHistory(states, steps) && i < |states|
    requires forall n :: 0 <= n < i ==> !Clash(states[n], steps[n])
    requires IsListing(states[i], tenant, ec, cps) && IsShape(cps, shape)
    requires 0 <= a < |cps| && 0 <= b < |cps| && cps[a].direction == cps[b].direction
    requires sa < Stride(cps[a].direction) && sb < Stride(cps[b].direction)
    ensures CellIdx(cps[a], sa) < Width(shape, cps[a].direction)
    ensures CellIdx(cps[a], sa) == CellIdx(cps[b], sb) <==> a == b && sa == sb
  {
    UniqueUntilClash(states, steps, i);
    ListingIsDistinct(states[i], tenant, ec, cps);
    CellInBounds(cps, shape, a, sa);
    if CellIdx(cps[a], sa) == CellIdx(cps[b], sb) {
      CellsAreDisjoint(cps, a, sa, b, sb);
    }
  }

  class DataLoader {
    const cps: seq<CounterPoint>
    var consumerByMp: map<string, nat>
    var producerByMp: map<string, nat>
    var mpDirection: map<string, Direction>
    var consumerCount: nat
    var producerCount: nat

    function ShapeOf(): Shape
      reads this
    {
      Shape(consumerCount, producerCount)
    }

    // The index maps are those of the first n counterpoints.
    ghost predicate Indexed(n: nat)
      requires n <= |cps|
      reads this
    {
      && (forall m :: m in mpDirection ==> exists c :: 0 <= c < n && cps[c].meter == m)
      && (forall c :: 0 <= c < n ==> Registered(cps[c]))
    }

    ghost predicate Registered(cp: CounterPoint)
      reads this
    {
      && cp.meter in mpDirection && mpDirection[cp.meter] == cp.direction
      && (cp.direction == Consumer ==> cp.meter in consumerByMp && consumerByMp[cp.meter] == cp.sourceIdx)
      && (cp.direction == Producer ==> cp.meter in producerByMp && producerByMp[cp.meter] == cp.sourceIdx)
    }

    ghost predicate Valid()
      reads this
    {
      DistinctMeters(cps) && Indexed(|cps|) && IsShape(cps, ShapeOf())
    }

    lemma {:induction false} Covers()
      requires Valid()
      ensures IsShape(cps, ShapeOf())
    {
    }

    constructor (listed: seq<CounterPoint>)
      requires DistinctMeters(listed)
      ensures Valid() && cps == listed
    {
      hide IsShape, DataLoader.Registered;
      cps := listed;
      consumerByMp, producerByMp, mpDirection := map[], map[], map[];
      consumerCount, producerCount := 0, 0;
      new;
      NoMetersNoBlocks(ShapeOf());
      assert cps[..0] == [];
      for n := 0 to |listed|
        invariant Indexed(n) && IsShape(cps[..n], ShapeOf())
      {
        Register(n);
      }
      assert cps[..|cps|] == cps;
    }

    // Takes up the n-th counterpoint.
    method Register(n: nat)
      requires n < |cps| && DistinctMeters(cps)
      requires Indexed(n) && IsShape(cps[..n], ShapeOf())
      modifies this
      ensures Indexed(n + 1) && IsShape(cps[..n + 1], ShapeOf())
    {
      var cp := cps[n];
      ghost var before := ShapeOf();
      mpDirection := mpDirection[cp.meter := cp.direction];
      match cp.direction {
        case Consumer =>
          consumerByMp := consumerByMp[cp.meter := cp.sourceIdx];
          if consumerCount < cp.sourceIdx + 1 {
            consumerCount := cp.sourceIdx + 1;
          }
        case Producer =>
          producerByMp := producerByMp[cp.meter := cp.sourceIdx];
          if producerCount < cp.sourceIdx + 1 {
            producerCount := cp.sourceIdx + 1;
          }
      }
      forall c | 0 <= c < n + 1 ensures Registered(cps[c]) {
        if c < n {
          assert cps[c].meter != cps[n].meter;
          assert old(Registered(cps[c]));
        }
      }
      ShapeGrows(cps, n, before, ShapeOf());
    }

    function LineFor(id: string): (l: RawSourceLine)
      reads this
      ensures l.Sized(ShapeOf()) && l.Empty() && l.id == id
    {
      MakeLine(id, ShapeOf())
    }

    // Writes one row into its cell; a row of an unknown meter or code changes nothing.
    method PlaceCell(line: RawSourceLine, row: SlotRow) returns (out: RawSourceLine, ghost owner: int)
      requires Valid() && line.Sized(ShapeOf())
      ensures IsOwner(cps, row, owner) && IsPlaced(cps, ShapeOf(), row, owner, line, out)
      ensures out.Sized(ShapeOf()) && out.id == line.id
    {
      hide SlotForCode, IsShape, DistinctMeters;
      out, owner := line, -1;
      if row.meter !in mpDirection {
        return;
      }
      owner :| 0 <= owner < |cps| && cps[owner].meter == row.meter;
      match mpDirection[row.meter] {
        case Consumer =>
          var slot := SlotForCode(Consumer, row.code);
          if slot.Some? {
            CellInBounds(cps, ShapeOf(), owner, slot.value);
            var idx := consumerByMp[row.meter] * 3 + slot.value;
            if idx < |line.consumers| {
              out := line.(consumers := line.consumers[idx := row.value],
                           qovConsumers := line.qovConsumers[idx := row.qov]);
            }
          }
        case Producer =>
          var slot := SlotForCode(Producer, row.code);
          if slot.Some? {
            CellInBounds(cps, ShapeOf(), owner, slot.value);
            var idx := producerByMp[row.meter] * 2 + slot.value;
            if idx < |line.producers| {
              out := line.(producers := line.producers[idx := row.value],
                           qovProducers := line.qovProducers[idx := row.qov]);
            }
          }
      }
    }

    // Streams the rows into lines: a row at a new moment finishes the line before it. The
    // line being filled is the last of `es`.
    method Emit(rows: seq<SlotRow>) returns (es: seq<Entry>)
      requires Valid() && DistinctBlocks(cps)
      requires SortedByTime(rows)
      ensures IsTable(cps, ShapeOf(), rows, es)
    {
      ghost var shape := ShapeOf();
      assert DistinctMeters(cps) && IsShape(cps, shape);
      hide *;
      es := [];
      EmptyTable(cps, shape);
      assert rows[..0] == [];
      for n := 0 to |rows|
        invariant IsTable(cps, shape, rows[..n], es)
      {
        var row := rows[n];
        var finished, current := es, LineFor(RowIdForTs(row.ts));
        if es != [] && es[|es| - 1].ts == row.ts {
          finished, current := es[..|es| - 1], es[|es| - 1].line;
        }
        LineToFill(cps, shape, rows, n, es, current);
        ghost var owner;
        var placed;
        placed, owner := PlaceCell(current, row);
        TableSnoc(cps, shape, rows, n, es, owner, current, placed);
        es := finished + [Entry(row.ts, placed)];
      }
      assert rows[..|rows|] == rows;
    }
  }

  lemma {:induction false} ShapeGrows(cps: seq<CounterPoint>, n: nat, a: Shape, b: Shape)
    requires n < |cps| && IsShape(cps[..n], a)
    requires forall d: Direction :: Blocks(b, d)
               == if d == cps[n].direction && Blocks(a, d) <= cps[n].sourceIdx then cps[n].sourceIdx + 1
                 else Blocks(a, d)
    ensures IsShape(cps[..n + 1], b)
  {
    var ds := cps[..n + 1];
    assert forall i :: 0 <= i < n ==> ds[i] == cps[..n][i];
    forall d: Direction | Blocks(b, d) != 0
      ensures exists i :: 0 <= i < |ds| && ds[i].direction == d && ds[i].sourceIdx == Blocks(b, d) - 1
    {
      if Blocks(b, d) == Blocks(a, d) {
        var i :| 0 <= i < n && cps[..n][i].direction == d && cps[..n][i].sourceIdx == Blocks(a, d) - 1;
        assert ds[i].direction == d;
      } else {
        assert ds[n].direction == d;
      }
    }
  }

  lemma {:induction false} LookupNothing(rows: seq<SlotRow>, ts: int, cp: CounterPoint, slot: nat)
    requires !HasRowAt(rows, ts)
    ensures Lookup(rows, ts, cp, slot) == None
  {
    if rows != [] {
      var n := |rows| - 1;
      assert rows[n].ts != ts;
      assert !HasRowAt(rows[..n], ts) by {
        assert forall i :: 0 <= i < n ==> rows[..n][i] == rows[i];
      }
      LookupNothing(rows[..n], ts, cp, slot);
    }
  }

  // At a moment without rows, an empty line shows the table.
  lemma {:induction false} EmptyShows(cps: seq<CounterPoint>, shape: Shape, rows: seq<SlotRow>, ts: int,
                                      l: RawSourceLine)
    requires !HasRowAt(rows, ts) && l.Sized(shape) && l.Empty()
    ensures Shows(cps, shape, rows, ts, l)
  {
    forall c, slot: nat | 0 <= c < |cps| && slot < Stride(cps[c].direction)
      ensures Lookup(rows, ts, cps[c], slot) == None
    {
      LookupNothing(rows, ts, cps[c], slot);
    }
  }

  lemma {:induction false} EmptyTable(cps: seq<CounterPoint>, shape: Shape)
    ensures IsTable(cps, shape, [], [])
  {
  }

  // The line the next row goes into: the last line when the row is at its moment, otherwise a
  // fresh one. It shows the rows before at the row's moment.
  lemma {:induction false} LineToFill(cps: seq<CounterPoint>, shape: Shape, rows: seq<SlotRow>, n: nat, es: seq<Entry>,
                                      l: RawSourceLine)
    requires n < |rows| && SortedByTime(rows)
    requires IsTable(cps, shape, rows[..n], es)
    requires if es != [] && es[|es| - 1].ts == rows[n].ts then l == es[|es| - 1].line
             else l.Sized(shape) && l.Empty()
    ensures Shows(cps, shape, rows[..n], rows[n].ts, l) && l.Sized(shape)
  {
    hide RowIdForTs;
    if es == [] || es[|es| - 1].ts != rows[n].ts {
      forall i | 0 <= i < n ensures rows[i].ts != rows[n].ts {
        assert rows[..n][i] == rows[i];
        assert HasMoment(es, rows[i].ts);
        assert HasRowAt(rows[..n], es[|es| - 1].ts);
      }
      EmptyShows(cps, shape, rows[..n], rows[n].ts, l);
    }
  }

  lemma {:induction false} LookupSnoc(rows: seq<SlotRow>, r: SlotRow, ts: int, cp: CounterPoint, slot: nat)
    ensures Lookup(rows + [r], ts, cp, slot)
            == if r.ts == ts && Feeds(r, cp, slot) then Some(r)
               else Lookup(rows, ts, cp, slot)
  {
    assert (rows + [r])[..|rows|] == rows;
  }

  // A row that feeds no slot leaves what a line shows unchanged.
  lemma {:induction false} IdleRowShows(cps: seq<CounterPoint>, shape: Shape, rows: seq<SlotRow>, r: SlotRow,
                                        l: RawSourceLine)
    requires Shows(cps, shape, rows, r.ts, l)
    requires forall c, slot: nat :: 0 <= c < |cps| ==> !Feeds(r, cps[c], slot)
    ensures Shows(cps, shape, rows + [r], r.ts, l)
  {
    hide Feeds;
    forall c, slot: nat | 0 <= c < |cps| && slot < Stride(cps[c].direction)
      ensures Holds(l, cps[c], slot, Lookup(rows + [r], r.ts, cps[c], slot))
    {
      LookupSnoc(rows, r, r.ts, cps[c], slot);
      assert !Feeds(r, cps[c], slot);
    }
  }

  // Writing a row into the cell it feeds makes the line show that row too.
  lemma {:induction false} WrittenRowShows(cps: seq<CounterPoint>, shape: Shape, rows: seq<SlotRow>, r: SlotRow, o: int,
                                           hit: nat, l: RawSourceLine)
    requires DistinctMeters(cps) && DistinctBlocks(cps)
    requires Shows(cps, shape, rows, r.ts, l)
    requires 0 <= o < |cps| && hit < Stride(cps[o].direction) && CellIdx(cps[o], hit) < Width(shape, cps[o].direction)
    requires Feeds(r, cps[o], hit)
    ensures Shows(cps, shape, rows + [r], r.ts, SetCell(l, cps[o].direction, CellIdx(cps[o], hit), r.value, r.qov))
  {
    var m := SetCell(l, cps[o].direction, CellIdx(cps[o], hit), r.value, r.qov);
    assert Owned(cps, cps[o].direction, CellIdx(cps[o], hit));
    hide SetCell, SlotForCode;
    forall c, slot: nat | 0 <= c < |cps| && slot < Stride(cps[c].direction)
      ensures Holds(m, cps[c], slot, Lookup(rows + [r], r.ts, cps[c], slot))
    {
      LookupSnoc(rows, r, r.ts, cps[c], slot);
      assert Holds(l, cps[c], slot, Lookup(rows, r.ts, cps[c], slot));
      if cps[o].direction == cps[c].direction && CellIdx(cps[o], hit) == CellIdx(cps[c], slot) {
        CellsAreDisjoint(cps, o, hit, c, slot);
      } else {
        assert c == o || cps[c].meter != cps[o].meter;
      }
    }
  }

  // Placing a row into a line that shows the rows before it makes it show that row too.
  lemma {:induction false} PlacedShows(cps: seq<CounterPoint>, shape: Shape, rows: seq<SlotRow>, r: SlotRow, o: int,
                                       l: RawSourceLine, m: RawSourceLine)
    requires DistinctMeters(cps) && DistinctBlocks(cps) && IsShape(cps, shape)
    requires Shows(cps, shape, rows, r.ts, l)
    requires IsOwner(cps, r, o) && IsPlaced(cps, shape, r, o, l, m)
    ensures Shows(cps, shape, rows + [r], r.ts, m)
    ensures m.id == l.id
  {
    hide Shows, SlotForCode;
    if 0 <= o && SlotForCode(cps[o].direction, r.code).Some? {
      WrittenRowShows(cps, shape, rows, r, o, SlotForCode(cps[o].direction, r.code).value, l);
    } else {
      forall c, slot: nat | 0 <= c < |cps| ensures !Feeds(r, cps[c], slot) {
        assert c == o || 0 > o || cps[c].meter != cps[o].meter;
      }
      IdleRowShows(cps, shape, rows, r, l);
    }
  }

  // Extending the table by the next row.
  lemma {:induction false} TableSnoc(cps: seq<CounterPoint>, shape: Shape, rows: seq<SlotRow>, n: nat, es: seq<Entry>,
                                     o: int,
                  l: RawSourceLine, m: RawSourceLine)
    requires DistinctMeters(cps) && DistinctBlocks(cps) && IsShape(cps, shape)
    requires n < |rows| && SortedByTime(rows)
    requires IsTable(cps, shape, rows[..n], es)
    requires Shows(cps, shape, rows[..n], rows[n].ts, l) && l.Sized(shape)
    requires if es != [] && es[|es| - 1].ts == rows[n].ts then l == es[|es| - 1].line
             else l.id == RowIdForTs(rows[n].ts)
    requires IsOwner(cps, rows[n], o) && IsPlaced(cps, shape, rows[n], o, l, m)
    ensures var earlier := if es != [] && es[|es| - 1].ts == rows[n].ts then es[..|es| - 1] else es;
            IsTable(cps, shape, rows[..n + 1], earlier + [Entry(rows[n].ts, m)])
  {
    hide *;
    var r, before := rows[n], rows[..n];
    PlacedShows(cps, shape, before, r, o, l, m);
    assert rows[..n + 1] == before + [r];
    if es != [] {
      LastMoment(cps, shape, rows, n, es);
    }
    TableGrows(cps, shape, before, r, es, m);
  }

  lemma {:induction false} LastMoment(cps: seq<CounterPoint>, shape: Shape, rows: seq<SlotRow>, n: nat, es: seq<Entry>)
    requires n < |rows| && SortedByTime(rows) && IsTable(cps, shape, rows[..n], es) && es != []
    ensures es[|es| - 1].ts <= rows[n].ts
  {
    hide RowIdForTs, Shows;
    assert HasRowAt(rows[..n], es[|es| - 1].ts);
  }

  lemma {:induction false} TableGrows(cps: seq<CounterPoint>, shape: Shape, rows: seq<SlotRow>, r: SlotRow,
                                      es: seq<Entry>, m: RawSourceLine)
    requires IsTable(cps, shape, rows, es)
    requires es == [] || es[|es| - 1].ts <= r.ts
    requires Shows(cps, shape, rows + [r], r.ts, m)
    requires m.id == if es != [] && es[|es| - 1].ts == r.ts then es[|es| - 1].line.id else RowIdForTs(r.ts)
    ensures var earlier := if es != [] && es[|es| - 1].ts == r.ts then es[..|es| - 1] else es;
            IsTable(cps, shape, rows + [r], earlier + [Entry(r.ts, m)])
  {
    hide RowIdForTs, Shows, HasMoment, HasRowAt;
    var earlier := if es != [] && es[|es| - 1].ts == r.ts then es[..|es| - 1] else es;
    RowsCovered(rows, r, es, earlier + [Entry(r.ts, m)]);
    forall i | 0 <= i < |earlier| ensures Shows(cps, shape, rows + [r], earlier[i].ts, earlier[i].line) {
      OtherMomentShows(cps, shape, rows, r, earlier[i].ts, earlier[i].line);
    }
  }

  lemma {:induction false} RowsCovered(rows: seq<SlotRow>, r: SlotRow, es: seq<Entry>, fs: seq<Entry>)
    requires forall i :: 0 <= i < |rows| ==> HasMoment(es, rows[i].ts)
    requires forall i :: 0 <= i < |es| ==> HasRowAt(rows, es[i].ts)
    requires fs != [] && fs[|fs| - 1].ts == r.ts
    requires forall i :: 0 <= i < |fs| - 1 ==> i < |es| && fs[i] == es[i]
    requires |fs| == |es| + 1 || (|fs| == |es| && es[|es| - 1].ts == r.ts)
    ensures forall i :: 0 <= i < |rows + [r]| ==> HasMoment(fs, (rows + [r])[i].ts)
    ensures forall i :: 0 <= i < |fs| ==> HasRowAt(rows + [r], fs[i].ts)
  {
    var qs := rows + [r];
    forall i | 0 <= i < |rows| ensures HasMoment(fs, rows[i].ts) {
      assert HasMoment(es, rows[i].ts);
      var j :| 0 <= j < |es| && es[j].ts == rows[i].ts;
      assert fs[j].ts == rows[i].ts;
    }
    forall i | 0 <= i < |fs| ensures HasRowAt(qs, fs[i].ts) {
      if i < |fs| - 1 {
        assert HasRowAt(rows, es[i].ts);
        var j :| 0 <= j < |rows| && rows[j].ts == es[i].ts;
        assert qs[j].ts == fs[i].ts;
      } else {
        assert qs[|rows|].ts == fs[i].ts;
      }
    }
  }

  // A row leaves what lines at other moments show unchanged.
  lemma {:induction false} OtherMomentShows(cps: seq<CounterPoint>, shape: Shape, rows: seq<SlotRow>, r: SlotRow,
                                            ts: int, l: RawSourceLine)
    requires ts != r.ts && Shows(cps, shape, rows, ts, l)
    ensures Shows(cps, shape, rows + [r], ts, l)
  {
    forall c, slot: nat | 0 <= c < |cps| && slot < Stride(cps[c].direction)
      ensures Holds(l, cps[c], slot, Lookup(rows + [r], ts, cps[c], slot))
    {
      LookupSnoc(rows, r, ts, cps[c], slot);
      assert Holds(l, cps[c], slot, Lookup(rows, ts, cps[c], slot));
    }
  }

  // ---- The table is determined by the rows. ----

  lemma {:induction false} SameLine(cps: seq<CounterPoint>, shape: Shape, rows: seq<SlotRow>, ts: int,
                                    l: RawSourceLine, m: RawSourceLine)
    requires Shows(cps, shape, rows, ts, l) && Shows(cps, shape, rows, ts, m) && l.id == m.id
    ensures l == m
  {
    hide Lookup;
    forall d: Direction, k: nat ensures l.Cell(d, k) == m.Cell(d, k) && l.Qov(d, k) == m.Qov(d, k) {
      if Owned(cps, d, k) {
        var c, slot: nat :| 0 <= c < |cps| && cps[c].direction == d && slot < Stride(cps[c].direction)
           && CellIdx(cps[c], slot) == k;
        assert Holds(l, cps[c], slot, Lookup(rows, ts, cps[c], slot))
          && Holds(m, cps[c], slot, Lookup(rows, ts, cps[c], slot));
      }
    }
    SameCellsSameLine(shape, l, m);
  }

  lemma {:induction false} SameCellsSameLine(shape: Shape, l: RawSourceLine, m: RawSourceLine)
    requires l.Sized(shape) && m.Sized(shape) && l.id == m.id
    requires forall d: Direction, k: nat :: l.Cell(d, k) == m.Cell(d, k) && l.Qov(d, k) == m.Qov(d, k)
    ensures l == m
  {
    assert l.consumers == m.consumers by {
      forall k | 0 <= k < |l.consumers| ensures l.consumers[k] == m.consumers[k] {
        assert l.Cell(Consumer, k) == m.Cell(Consumer, k);
      }
    }
    assert l.producers == m.producers by {
      forall k | 0 <= k < |l.producers| ensures l.producers[k] == m.producers[k] {
        assert l.Cell(Producer, k) == m.Cell(Producer, k);
      }
    }
    assert l.qovConsumers == m.qovConsumers by {
      forall k | 0 <= k < |l.qovConsumers| ensures l.qovConsumers[k] == m.qovConsumers[k] {
        assert l.Qov(Consumer, k) == m.Qov(Consumer, k);
      }
    }
    assert l.qovProducers == m.qovProducers by {
      forall k | 0 <= k < |l.qovProducers| ensures l.qovProducers[k] == m.qovProducers[k] {
        assert l.Qov(Producer, k) == m.Qov(Producer, k);
      }
    }
  }

  // Two ascending lists of the same moments stand at the same moments.
  lemma {:induction false} SameMoments(es: seq<Entry>, fs: seq<Entry>)
    requires StrictlyAscending(es) && StrictlyAscending(fs)
    requires forall ts :: HasMoment(es, ts) <==> HasMoment(fs, ts)
    ensures |es| == |fs| && forall i :: 0 <= i < |es| ==> es[i].ts == fs[i].ts
  {
    if fs != [] {
      assert HasMoment(fs, fs[0].ts);
    }
    if es != [] {
      var m, n := |es| - 1, |fs| - 1;
      assert HasMoment(es, es[m].ts) && HasMoment(fs, es[m].ts);
      assert HasMoment(fs, fs[n].ts) && HasMoment(es, fs[n].ts);
      assert es[m].ts == fs[n].ts;
      forall ts ensures HasMoment(es[..m], ts) <==> HasMoment(fs[..n], ts) {
        FewerMoments(es, ts);
        FewerMoments(fs, ts);
      }
      SameMoments(es[..m], fs[..n]);
    }
  }

  lemma {:induction false} FewerMoments(es: seq<Entry>, ts: int)
    requires StrictlyAscending(es) && es != []
    ensures HasMoment(es[..|es| - 1], ts) <==> HasMoment(es, ts) && ts != es[|es| - 1].ts
  {
    var n := |es| - 1;
    if HasMoment(es, ts) && ts != es[n].ts {
      var i :| 0 <= i < |es| && es[i].ts == ts;
      assert es[..n][i].ts == ts;
    }
    if HasMoment(es[..n], ts) {
      var i :| 0 <= i < n && es[..n][i].ts == ts;
      assert es[i].ts == ts;
    }
  }

  // The rows leave no choice: the wide lines of a table are unique.
  lemma {:induction false} TableIsUnique(cps: seq<CounterPoint>, shape: Shape, rows: seq<SlotRow>, es: seq<Entry>,
                                         fs: seq<Entry>)
    requires IsTable(cps, shape, rows, es) && IsTable(cps, shape, rows, fs)
    ensures es == fs
  {
    hide Shows, RowIdForTs;
    forall ts ensures HasMoment(es, ts) <==> HasMoment(fs, ts) {
      MomentHasRow(cps, shape, rows, es, ts);
      MomentHasRow(cps, shape, rows, fs, ts);
    }
    SameMoments(es, fs);
    forall i | 0 <= i < |es| ensures es[i] == fs[i] {
      SameLine(cps, shape, rows, es[i].ts, es[i].line, fs[i].line);
    }
  }

  lemma {:induction false} MomentHasRow(cps: seq<CounterPoint>, shape: Shape, rows: seq<SlotRow>, es: seq<Entry>,
                                        ts: int)
    requires IsTable(cps, shape, rows, es)
    ensures HasMoment(es, ts) <==> HasRowAt(rows, ts)
  {
    hide Shows, RowIdForTs;
  }
}
