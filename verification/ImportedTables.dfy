/**
 What an import leaves in the two tables: for which tables the loader finds every imported value,
 and for which tables the source indices stay unique.
 */
module ImportedTables {
  import opened Outcomes
  import opened Calendar
  import opened Codes
  import opened CounterPoints
  import opened DateCells
  import opened Loader
  import opened RawLine
  import opened SheetExport
  import opened SheetImport
  import opened SheetTheorems
  import opened Store

  // ---- The slots. ----

  function KeyOf(tenant: string, ec: string, s: SheetSlot): SlotKey {
    SlotKey(tenant, ec, s.meter, s.code, s.seconds / 60)
  }

  // The slots as the store takes them.
  function StoreSlots(tenant: string, ec: string, slots: seq<SheetSlot>): (r: seq<Slot>)
    ensures |r| == |slots|
    ensures forall i :: 0 <= i < |slots| ==>
              r[i] == Slot(KeyOf(tenant, ec, slots[i]), Reading(slots[i].value, slots[i].qov))
  {
    seq(|slots|, i requires 0 <= i < |slots| => Slot(KeyOf(tenant, ec, slots[i]),
                                                     Reading(slots[i].value, slots[i].qov)))
  }

  // The cells of a table that hold a row of the query.
  predicate InRangeOf(k: SlotKey, tenant: string, ec: string, from: int, until: int) {
    k.tenant == tenant && k.ec == ec && from <= k.ts <= until
  }

  function RowAt(t: EnergyData, k: SlotKey): SlotRow
    requires k in t
  {
    SlotRow(k.ts, k.meter, k.code, t[k].value, t[k].qov)
  }

  // The rows a query of a community and a range reads, sorted.
  ghost predicate IsQuery(t: EnergyData, tenant: string, ec: string, from: int, until: int, rows: seq<SlotRow>) {
    && SortedRows(rows)
    && (forall k :: k in t && InRangeOf(k, tenant, ec, from, until) ==> RowAt(t, k) in rows)
    && (forall r :: r in rows ==>
          var k := SlotKey(tenant, ec, r.meter, r.code, r.ts);
          k in t && InRangeOf(k, tenant, ec, from, until) && r == RowAt(t, k))
  }

  lemma {:induction false} LastOfEqual(slots: seq<Slot>, k: SlotKey, v: Reading)
    requires forall i :: 0 <= i < |slots| && slots[i].key == k ==> slots[i].reading == v
    ensures LastFor(slots, k) == if exists i :: 0 <= i < |slots| && slots[i].key == k then Some(v) else None
  {
    if slots != [] {
      LastOfEqual(slots[..|slots| - 1], k, v);
    }
  }

  // A slot of the sheet that no other slot shares the cell with is in the table afterwards; cells
  // that no slot names are as they were.
  lemma {:induction false} ImportedCell(t: EnergyData, tenant: string, ec: string, slots: seq<SheetSlot>, s: SheetSlot)
    requires s in slots && forall x :: x in slots && KeyOf(tenant, ec, x) == KeyOf(tenant, ec, s) ==> x == s
    ensures var u := ApplyAll(t, StoreSlots(tenant, ec, slots));
            KeyOf(tenant, ec, s) in u && u[KeyOf(tenant, ec, s)] == Reading(s.value, s.qov)
  {
    var k, stored := KeyOf(tenant, ec, s), StoreSlots(tenant, ec, slots);
    var i :| 0 <= i < |slots| && slots[i] == s;
    assert stored[i].key == k;
    LastOfEqual(stored, k, Reading(s.value, s.qov));
    LastWriteWins(t, stored, k);
  }

  lemma {:induction false} OtherCell(t: EnergyData, tenant: string, ec: string, slots: seq<SheetSlot>, k: SlotKey)
    requires forall x :: x in slots ==> KeyOf(tenant, ec, x) != k
    ensures var u := ApplyAll(t, StoreSlots(tenant, ec, slots)); (k in u <==> k in t) && (k in t ==> u[k] == t[k])
  {
    var stored := StoreSlots(tenant, ec, slots);
    LastOfEqual(stored, k, Reading(0.0, 0));
    LastWriteWins(t, stored, k);
  }

  // A cell that feeds the slot at the moment, with a code later than the plain one.
  predicate IsLater(k: SlotKey, tenant: string, ec: string, ts: int, m: CounterPoint, j: nat)
    requires j < Stride(m.direction)
  {
    && k.tenant == tenant && k.ec == ec && k.meter == m.meter && k.ts == ts
    && SlotForCode(m.direction, k.code) == Some(j) && TextLess(CodeForSlot(m.direction, j), k.code)
  }

  // The slots of one cell are one slot.
  lemma {:induction false} OneSlotPerCell(ctx: RunnerContext, es: seq<Entry>, tenant: string, ec: string, n: nat,
                                          i: nat,
                                          j: nat, x: SheetSlot)
    requires ctx.Valid() && DistinctMeters(ctx.meta) && StrictlyAscending(es)
    requires n < |es| && i < |ctx.meta| && j < Stride(ctx.meta[i].direction) && x in AllSlots(ctx, es)
    ensures KeyOf(tenant, ec, x) == KeyOf(tenant, ec, ExpectedSlot(ctx, es[n], i, j))
            ==> x == ExpectedSlot(ctx, es[n], i, j)
    ensures x.seconds / 60 == es[n].ts && x.meter == ctx.meta[i].meter ==>
              exists k: nat {:trigger CodeForSlot(ctx.meta[i].direction, k)} ::
                k < Stride(ctx.meta[i].direction) && x.code == CodeForSlot(ctx.meta[i].direction, k)
  {
    hide AllSlots, ShownCell, CodeForSlot, SlotForCode;
    var a, b, c := SlotKnown(ctx, es, x);
    CodeRoundTrip(ctx.meta[b].direction, c);
    CodeRoundTrip(ctx.meta[i].direction, j);
    assert Seconds(es[a].ts) / 60 == es[a].ts && Seconds(es[n].ts) / 60 == es[n].ts;
    if x.seconds / 60 == es[n].ts && x.meter == ctx.meta[i].meter {
      assert a == n && b == i;
    }
  }

  // No imported slot has a later code.
  lemma {:induction false} NoneIsLater(ctx: RunnerContext, es: seq<Entry>, tenant: string, ec: string, n: nat, i: nat,
                                       j: nat, k: SlotKey)
    requires ctx.Valid() && DistinctMeters(ctx.meta) && StrictlyAscending(es)
    requires n < |es| && i < |ctx.meta| && j < Stride(ctx.meta[i].direction)
    requires IsLater(k, tenant, ec, es[n].ts, ctx.meta[i], j)
    ensures forall x :: x in AllSlots(ctx, es) ==> KeyOf(tenant, ec, x) != k
  {
    hide AllSlots, CodeForSlot, SlotForCode, TextLess, ExpectedSlot;
    var d := ctx.meta[i].direction;
    forall x | x in AllSlots(ctx, es) ensures KeyOf(tenant, ec, x) != k {
      OneSlotPerCell(ctx, es, tenant, ec, n, i, j, x);
      if KeyOf(tenant, ec, x) == k {
        var c: nat :| c < Stride(d) && x.code == CodeForSlot(d, c);
        CodeRoundTrip(d, c);
        TextsOrdered(k.code, k.code);
      }
    }
  }

  // Importing an export into any table: the loader finds an imported value exactly when the table
  // held no later code that feeds the same slot at that moment.
  lemma {:induction false} ImportedLookup(fmt: Formats, ctx: RunnerContext, es: seq<Entry>, t: EnergyData,
                                          tenant: string,
                                          ec: string, from: int, until: int, rows: seq<SlotRow>, n: nat, i: nat, j: nat)
    requires ctx.Valid() && DistinctMeters(ctx.meta) && StrictlyAscending(es)
    requires IsQuery(ApplyAll(t, StoreSlots(tenant, ec, AllSlots(ctx, es))), tenant, ec, from, until, rows)
    requires n < |es| && DatePrintable(es[n].ts) && from <= es[n].ts <= until
    requires i < |ctx.meta| && j < Stride(ctx.meta[i].direction)
    ensures Lookup(rows, es[n].ts, ImportedPoint(fmt, ctx, i), j) == Some(RowOf(ExpectedSlot(ctx, es[n], i, j)))
            <==> !exists k :: k in t && IsLater(k, tenant, ec, es[n].ts, ctx.meta[i], j)
  {
    hide AllSlots, ApplyAll, CodeForSlot, SlotForCode, TextLess, ExpectedSlot, DatePrintable, Lookup, IsQuery,
         SortedRows,
         ImportedPoint, IsLater, Feeds;
    var u := ApplyAll(t, StoreSlots(tenant, ec, AllSlots(ctx, es)));
    var ts, m, cp, s := es[n].ts, ctx.meta[i], ImportedPoint(fmt, ctx, i), ExpectedSlot(ctx, es[n], i, j);
    SlotListed(ctx, es, n, i, j);
    forall x | x in AllSlots(ctx, es) && KeyOf(tenant, ec, x) == KeyOf(tenant, ec, s) ensures x == s {
      OneSlotPerCell(ctx, es, tenant, ec, n, i, j, x);
    }
    ImportedCell(t, tenant, ec, AllSlots(ctx, es), s);
    forall k | IsLater(k, tenant, ec, ts, m, j) ensures k in u <==> k in t {
      NoneIsLater(ctx, es, tenant, ec, n, i, j, k);
      OtherCell(t, tenant, ec, AllSlots(ctx, es), k);
    }
    ExpectedFeeds(fmt, ctx, es[n], es[n], i, j, i, j);
    ImportedPointIs(fmt, ctx, i);
    ExpectedKey(ctx, es[n], i, j, tenant, ec);
    LookupUnlessLater(u, tenant, ec, from, until, rows, ts, m, cp, j, RowOf(s));
  }

  lemma {:induction false} ImportedPointIs(fmt: Formats, ctx: RunnerContext, i: nat)
    requires ctx.Valid() && i < |ctx.meta|
    ensures var cp := ImportedPoint(fmt, ctx, i);
            cp.meter == ctx.meta[i].meter && cp.direction == ctx.meta[i].direction
  {
  }

  lemma {:induction false} ExpectedKey(ctx: RunnerContext, e: Entry, i: nat, j: nat, tenant: string, ec: string)
    requires ctx.Valid() && i < |ctx.meta| && j < Stride(ctx.meta[i].direction)
    ensures var m, s := ctx.meta[i], ExpectedSlot(ctx, e, i, j);
            KeyOf(tenant, ec, s) == SlotKey(tenant, ec, m.meter, CodeForSlot(m.direction, j), e.ts)
  {
    assert Seconds(e.ts) / 60 == e.ts;
  }

  // In the rows of a query, the row of the plain code is looked up exactly when no later code
  // feeds the slot.
  lemma {:induction false} LookupUnlessLater(u: EnergyData, tenant: string, ec: string, from: int, until: int,
                                             rows: seq<SlotRow>, ts: int, m: CounterPoint, cp: CounterPoint, j: nat,
                                               r: SlotRow)
    requires IsQuery(u, tenant, ec, from, until, rows) && from <= ts <= until
    requires cp.meter == m.meter && cp.direction == m.direction && j < Stride(m.direction)
    requires var k := SlotKey(tenant, ec, m.meter, CodeForSlot(m.direction, j), ts); k in u && r == RowAt(u, k)
    ensures Lookup(rows, ts, cp, j) == Some(r) <==> !exists k :: k in u && IsLater(k, tenant, ec, ts, m, j)
  {
    hide CodeForSlot, SlotForCode, TextLess, Lookup, SortedRows;
    CodeRoundTrip(m.direction, j);
    LookupIsGreatest(rows, ts, cp, j);
    var plain := CodeForSlot(m.direction, j);
    assert InRangeOf(SlotKey(tenant, ec, m.meter, plain, ts), tenant, ec, from, until);
    assert r in rows && FeedsAt(r, ts, cp, j);
    var found := Lookup(rows, ts, cp, j).value;
    if found != r {
      var k := SlotKey(tenant, ec, found.meter, found.code, found.ts);
      assert k in u && IsLater(k, tenant, ec, ts, m, j);
    }
    if k :| k in u && IsLater(k, tenant, ec, ts, m, j) {
      assert InRangeOf(k, tenant, ec, from, until);
      var x := RowAt(u, k);
      assert x in rows && FeedsAt(x, ts, cp, j);
      TextsOrdered(plain, k.code);
    }
  }

  // The codes beside the plain one that the loader reads into the same slot.
  function SecondCode(d: Direction, slot: nat): Option<string> {
    match d
    case Consumer => if slot == 0 then Some(CONSUMED_T) else if slot == 2 then Some(COVERAGE_R) else None
    case Producer => if slot == 0 then Some(PRODUCED_T) else if slot == 1 then Some(PROFIT_T) else None
  }

  lemma {:induction false} LongerIsLater(a: string, b: string)
    requires b != ""
    ensures TextLess(a, a + b)
  {
    if a == "" {
      assert a + b == b;
    } else {
      LongerIsLater(a[1..], b);
      assert (a + b)[1..] == a[1..] + b;
    }
  }

  lemma {:induction false} SecondCodesFeed(d: Direction, slot: nat)
    requires slot < Stride(d) && SecondCode(d, slot).Some?
    ensures SlotForCode(d, SecondCode(d, slot).value) == Some(slot)
  {
    hide TrimLeft, TrimRight, Trim;
    var c := SecondCode(d, slot).value;
    assert c[0] == '1' && c[|c| - 1] in "TR";
    assert Trim(c) == c;
    SecondCodesDiffer();
  }

  lemma {:induction false} SecondCodesAreLonger(d: Direction, slot: nat)
    requires slot < Stride(d) && SecondCode(d, slot).Some?
    ensures exists b :: b != "" && SecondCode(d, slot).value == CodeForSlot(d, slot) + b
  {
    assert CONSUMED_T == CONSUMED + "T" && COVERAGE_R == COVERAGE + "R";
    assert PRODUCED_T == PRODUCED + "T" && PROFIT_T == PROFIT + "T";
    var b := if d == Consumer && slot == 2 then "R" else "T";
    assert SecondCode(d, slot).value == CodeForSlot(d, slot) + b;
  }

  // Inputs: a reading under the second code of a slot hides the imported one.
  lemma {:induction false} SecondCodesHide(tenant: string, ec: string, ts: int, m: CounterPoint, j: nat)
    requires j < Stride(m.direction) && SecondCode(m.direction, j).Some?
    ensures IsLater(SlotKey(tenant, ec, m.meter, SecondCode(m.direction, j).value, ts), tenant, ec, ts, m, j)
  {
    hide SecondCode, CodeForSlot, SlotForCode, TextLess;
    SecondCodesFeed(m.direction, j);
    SecondCodesAreLonger(m.direction, j);
    var b :| b != "" && SecondCode(m.direction, j).value == CodeForSlot(m.direction, j) + b;
    LongerIsLater(CodeForSlot(m.direction, j), b);
  }

  // ---- The metering points. ----

  function PointKey(tenant: string, ec: string, r: CpRecord): MeterKey {
    MeterKey(tenant, ec, r.meter)
  }

  function PointRow(r: CpRecord): Row {
    Row(r.direction, r.sourceIdx, r.start, r.end, "")
  }

  // The upserts of the records, one after the other.
  function PutAll(t: Table, tenant: string, ec: string, rs: seq<CpRecord>): Table {
    if rs == [] then t else
    var last := rs[|rs| - 1];
    PutAll(t, tenant, ec, rs[..|rs| - 1])[PointKey(tenant, ec, last) := PointRow(last)]
  }

  // Writes the records of a header, which all have names.
  method PutMeters(repository: Repository, tenant: string, ec: string, rs: seq<CpRecord>) returns (ok: bool)
    requires forall i :: 0 <= i < |rs| ==> rs[i].meter != ""
    modifies repository
    ensures ok <==> (tenant != "" && ec != "") || rs == []
    ensures repository.rows == if ok then PutAll(old(repository.rows), tenant, ec, rs) else old(repository.rows)
  {
    for n := 0 to |rs|
      invariant repository.rows == PutAll(old(repository.rows), tenant, ec, rs[..n])
      invariant 0 < n ==> tenant != "" && ec != ""
    {
      assert rs[..n + 1][..n] == rs[..n];
      var done := repository.Upsert(PointKey(tenant, ec, rs[n]), PointRow(rs[n]));
      if !done {
        return false;
      }
    }
    assert rs[..|rs|] == rs;
    return true;
  }

  ghost predicate NamesPoint(tenant: string, ec: string, rs: seq<CpRecord>, k: MeterKey) {
    exists i :: 0 <= i < |rs| && PointKey(tenant, ec, rs[i]) == k
  }

  ghost predicate DistinctNames(rs: seq<CpRecord>) {
    forall i, j :: 0 <= i < j < |rs| ==> rs[i].meter != rs[j].meter
  }

  // The rows the sheet names come from the sheet, the others stay.
  lemma {:induction false} PutAllAt(t: Table, tenant: string, ec: string, rs: seq<CpRecord>, k: MeterKey)
    requires DistinctNames(rs)
    ensures var u := PutAll(t, tenant, ec, rs);
            && (!NamesPoint(tenant, ec, rs, k) ==> (k in u <==> k in t) && (k in t ==> u[k] == t[k]))
            && forall i :: 0 <= i < |rs| && PointKey(tenant, ec, rs[i]) == k ==> k in u && u[k] == PointRow(rs[i])
  {
    if rs != [] {
      var n := |rs| - 1;
      PutAllAt(t, tenant, ec, rs[..n], k);
      if !NamesPoint(tenant, ec, rs, k) {
        assert PointKey(tenant, ec, rs[n]) != k;
        assert !NamesPoint(tenant, ec, rs[..n], k) by {
          forall i | 0 <= i < n ensures PointKey(tenant, ec, rs[..n][i]) != k {
            assert rs[..n][i] == rs[i];
          }
        }
      }
      forall i | 0 <= i < |rs| && PointKey(tenant, ec, rs[i]) == k
        ensures k in PutAll(t, tenant, ec, rs) && PutAll(t, tenant, ec, rs)[k] == PointRow(rs[i])
      {
        assert i < n ==> rs[..n][i] == rs[i];
      }
    }
  }

  // What an import leaves: the records in their rows, everything else as it was.
  lemma {:induction false} ImportedPoints(t: Table, tenant: string, ec: string, rs: seq<CpRecord>)
    requires DistinctNames(rs)
    ensures var u := PutAll(t, tenant, ec, rs);
            && (forall i :: 0 <= i < |rs| ==>
                  var k := MeterKey(tenant, ec, rs[i].meter);
                  k in u && u[k] == Row(rs[i].direction, rs[i].sourceIdx, rs[i].start, rs[i].end, ""))
            && (forall k :: k in t && !NamesPoint(tenant, ec, rs, k) ==> k in u && u[k] == t[k])
            && (forall k :: k in u && k !in t ==> NamesPoint(tenant, ec, rs, k))
            && (forall k :: NamesPoint(tenant, ec, rs, k) <==>
                  k.tenant == tenant && k.ec == ec && exists i :: 0 <= i < |rs| && rs[i].meter == k.meter)
  {
    forall k ensures var u := PutAll(t, tenant, ec, rs);
        && (!NamesPoint(tenant, ec, rs, k) ==> (k in u <==> k in t) && (k in t ==> u[k] == t[k]))
        && forall i :: 0 <= i < |rs| && PointKey(tenant, ec, rs[i]) == k ==> k in u && u[k] == PointRow(rs[i])
    {
      PutAllAt(t, tenant, ec, rs, k);
    }
  }

  // A row of the community that the sheet does not name, with an index the sheet gives to one of
  // its metering points.
  ghost predicate IsTaken(t: Table, tenant: string, ec: string, rs: seq<CpRecord>, k: MeterKey) {
    && k in t && k.tenant == tenant && k.ec == ec && !NamesPoint(tenant, ec, rs, k)
    && t[k].sourceIdx < InDirection(rs, t[k].direction)
  }

  // What the records of any imported header are numbered by.
  ghost predicate Numbered(rs: seq<CpRecord>) {
    && DistinctNames(rs)
    && forall k :: 0 <= k < |rs| ==> rs[k].sourceIdx == InDirection(rs[..k], rs[k].direction)
  }

  lemma {:induction false} HeaderNumbers(h: Columns)
    ensures Numbered(AllRecords(h))
  {
    hide AllRecords, OwnsColumns, InDirection;
    NumberingIsCanonical(h);
  }

  lemma {:induction false} NumbersBounded(rs: seq<CpRecord>, i: nat)
    requires Numbered(rs) && i < |rs|
    ensures rs[i].sourceIdx < InDirection(rs, rs[i].direction)
  {
    hide InDirection;
    CountsGrow(rs, i, |rs|, rs[i].direction);
    assert rs[..|rs|] == rs;
  }

  lemma {:induction false} NumbersDiffer(rs: seq<CpRecord>, i: nat, j: nat)
    requires Numbered(rs) && i < j < |rs| && rs[i].direction == rs[j].direction
    ensures rs[i].sourceIdx != rs[j].sourceIdx
  {
    hide InDirection;
    CountsGrow(rs, i, j, rs[i].direction);
  }

  // Importing a sheet keeps the indices of a unique table unique exactly when no other metering
  // point of the community holds an index that the sheet gives out.
  lemma {:induction false} ImportKeepsUniqueIff(t: Table, tenant: string, ec: string, rs: seq<CpRecord>)
    requires UniqueIndices(t) && Numbered(rs)
    ensures UniqueIndices(PutAll(t, tenant, ec, rs)) <==> !exists k :: IsTaken(t, tenant, ec, rs, k)
  {
    hide PutAll, InDirection, Numbered, NamesPoint;
    if k :| IsTaken(t, tenant, ec, rs, k) {
      TakenClashes(t, tenant, ec, rs, k);
    } else {
      forall j, k | IsPair(PutAll(t, tenant, ec, rs), j, k)
        ensures PutAll(t, tenant, ec, rs)[j].sourceIdx != PutAll(t, tenant, ec, rs)[k].sourceIdx
      {
        PairDiffers(t, tenant, ec, rs, j, k);
      }
    }
  }

  // Two rows of one scope.
  predicate IsPair(t: Table, j: MeterKey, k: MeterKey) {
    j in t && k in t && j != k && j.tenant == k.tenant && j.ec == k.ec && t[j].direction == t[k].direction
  }

  lemma {:induction false} TakenClashes(t: Table, tenant: string, ec: string, rs: seq<CpRecord>, k: MeterKey)
    requires Numbered(rs) && IsTaken(t, tenant, ec, rs, k)
    ensures !UniqueIndices(PutAll(t, tenant, ec, rs))
  {
    hide PutAll, InDirection;
    var i := NumbersAreGapless(rs, t[k].direction, t[k].sourceIdx);
    var j := PointKey(tenant, ec, rs[i]);
    PutAllAt(t, tenant, ec, rs, k);
    PutAllAt(t, tenant, ec, rs, j);
    assert IsPair(PutAll(t, tenant, ec, rs), j, k);
  }

  lemma {:induction false} PairDiffers(t: Table, tenant: string, ec: string, rs: seq<CpRecord>, j: MeterKey,
                                       k: MeterKey)
    requires UniqueIndices(t) && Numbered(rs) && !exists k :: IsTaken(t, tenant, ec, rs, k)
    requires IsPair(PutAll(t, tenant, ec, rs), j, k)
    ensures PutAll(t, tenant, ec, rs)[j].sourceIdx != PutAll(t, tenant, ec, rs)[k].sourceIdx
  {
    hide PutAll, InDirection, UniqueIndices;
    PutAllAt(t, tenant, ec, rs, j);
    PutAllAt(t, tenant, ec, rs, k);
    if NamesPoint(tenant, ec, rs, j) && NamesPoint(tenant, ec, rs, k) {
      var a :| 0 <= a < |rs| && PointKey(tenant, ec, rs[a]) == j;
      var b :| 0 <= b < |rs| && PointKey(tenant, ec, rs[b]) == k;
      if a < b {
        NumbersDiffer(rs, a, b);
      } else {
        NumbersDiffer(rs, b, a);
      }
    } else if NamesPoint(tenant, ec, rs, j) {
      NamedBelowOther(t, tenant, ec, rs, j, k);
    } else if NamesPoint(tenant, ec, rs, k) {
      NamedBelowOther(t, tenant, ec, rs, k, j);
    } else {
      OldPairDiffers(t, j, k);
    }
  }

  lemma {:induction false} OldPairDiffers(t: Table, j: MeterKey, k: MeterKey)
    requires UniqueIndices(t) && IsPair(t, j, k)
    ensures t[j].sourceIdx != t[k].sourceIdx
  {
  }

  lemma {:induction false} NamedBelowOther(t: Table, tenant: string, ec: string, rs: seq<CpRecord>, j: MeterKey,
                                           k: MeterKey)
    requires Numbered(rs) && !IsTaken(t, tenant, ec, rs, k)
    requires IsPair(PutAll(t, tenant, ec, rs), j, k) && NamesPoint(tenant, ec, rs, j) && !NamesPoint(tenant, ec, rs, k)
    ensures PutAll(t, tenant, ec, rs)[j].sourceIdx < PutAll(t, tenant, ec, rs)[k].sourceIdx
  {
    hide PutAll, InDirection;
    PutAllAt(t, tenant, ec, rs, j);
    PutAllAt(t, tenant, ec, rs, k);
    var a :| 0 <= a < |rs| && PointKey(tenant, ec, rs[a]) == j;
    NumbersBounded(rs, a);
  }

  // An input: the community has AT0002 with index 0, and the sheet brings AT0001, which gets the
  // same index.
  lemma {:induction false} ImportClashes(tenant: string, ec: string, rs: seq<CpRecord>)
    requires rs == [CpRecord("AT0001", Consumer, 0, None, None, 0, -1, -1)]
    ensures var t := map[MeterKey(tenant, ec, "AT0002") := Row(Consumer, 0, None, None, "")];
            && Numbered(rs) && UniqueIndices(t) && !UniqueIndices(PutAll(t, tenant, ec, rs))
  {
    var k := MeterKey(tenant, ec, "AT0002");
    var t := map[k := Row(Consumer, 0, None, None, "")];
    assert rs[..0] == [];
    assert InDirection(rs, Consumer) == InDirection(rs[..0], Consumer) + 1;
    assert "AT0001"[5] == '1' && "AT0002"[5] == '2';
    assert IsTaken(t, tenant, ec, rs, k);
    ImportKeepsUniqueIff(t, tenant, ec, rs);
  }
}
