/**
 Reading an "Energiedaten" sheet back: the header rows become metering points with freshly
 numbered source indices, the data rows become slots. Cells are read as text.
 */
module SheetImport {
  import opened Outcomes
  import opened Codes
  import opened CounterPoints
  import opened DateCells
  import opened RowId

  datatype Kind = TotalCode | ShareCode | CoverageCode | ProfitCode | TotalProdCode | BadCode

  // ---- Labels and names. ----

  predicate OccursAt(s: string, sub: string, i: nat) {
    i + |sub| <= |s| && s[i..i + |sub|] == sub
  }

  predicate Contains(s: string, sub: string) {
    exists i :: 0 <= i <= |s| && OccursAt(s, sub, i)
  }

  // Upper case of the Latin-1 letters.
  function UpperChar(c: char): char {
    if 'a' <= c <= 'z' || ('à' <= c <= 'þ' && c != '÷') then (c as int - 32) as char else c
  }

  function Upper(s: string): (r: string)
    ensures |r| == |s| && forall i :: 0 <= i < |s| ==> r[i] == UpperChar(s[i])
  {
    seq(|s|, i requires 0 <= i < |s| => UpperChar(s[i]))
  }

  function ClassifyMeterCode(c: string): Kind {
    if Contains(c, "GESAMTVERBRAUCH") then TotalCode
    else if Contains(c, "GESAMTE GEMEINSCHAFTLICHE") then TotalProdCode
    else if Contains(c, "ANTEIL") then ShareCode
    else if Contains(c, "EIGENDECKUNG") then CoverageCode
    else if Contains(c, "ÜBERSCHUSSERZEUGUNG") || Contains(c, "UEBERSCHUSSERZEUGUNG") then ProfitCode
    else BadCode
  }

  // Bytes of the UTF-8 encoding.
  function ByteLength(s: string): nat {
    if s == "" then 0
    else
      var n := s[|s| - 1] as int;
      ByteLength(s[..|s| - 1]) + if n < 0x80 then 1 else if n < 0x800 then 2 else if n < 0x1_0000 then 3 else 4
  }

  // Equality up to the case of ASCII letters, which is all that "total" and "mm" can fold to.
  predicate EqualFold(s: string, lower: string) {
    |s| == |lower| && forall i :: 0 <= i < |s| ==>
      s[i] == lower[i] || ('A' <= s[i] <= 'Z' && (s[i] as int + 32) as char == lower[i])
  }

  predicate NameOk(mp: string) {
    4 <= ByteLength(mp) && !EqualFold(mp, "total") && !EqualFold(mp, "mm")
  }

  // ---- The header by columns. ----

  // The header rows read so far; the maps from columns are sequences.
  datatype Header = Header(ids: Option<seq<string>>, dirs: Option<seq<Option<Direction>>>, codes: Option<seq<Kind>>,
                           starts: seq<Option<int>>, ends: seq<Option<int>>)

  datatype Columns = Columns(ids: seq<string>, dirs: seq<Option<Direction>>, codes: seq<Kind>,
                             starts: seq<Option<int>>, ends: seq<Option<int>>)

  function Nth<T>(xs: seq<Option<T>>, i: nat): Option<T> {
    if i < |xs| then xs[i] else None
  }

  function KindAt(h: Columns, i: nat): Kind {
    if i < |h.codes| then h.codes[i] else BadCode
  }

  // The metering point a column counts for, if it counts at all.
  function Owner(h: Columns, i: nat): Option<string> {
    if i < |h.ids| && KindAt(h, i) != BadCode && NameOk(Trim(h.ids[i])) && Nth(h.dirs, i).Some?
      then Some(Trim(h.ids[i]))
    else None
  }

  // Total, share and coverage columns.
  function Role(k: Kind): nat {
    match k
    case TotalCode => 0
    case TotalProdCode => 0
    case ShareCode => 1
    case ProfitCode => 1
    case CoverageCode => 2
    case BadCode => 3
  }

  // The last of the first n columns of a metering point in a role, or -1.
  function LastColumn(h: Columns, mp: string, role: nat, n: nat): (c: int)
    ensures -1 <= c < n
    ensures 0 <= c ==> Owner(h, c) == Some(mp) && Role(KindAt(h, c)) == role
    ensures forall k :: c < k < n && Owner(h, k) == Some(mp) ==> Role(KindAt(h, k)) != role
  {
    if n == 0 then -1
    else if Owner(h, n - 1) == Some(mp) && Role(KindAt(h, n - 1)) == role then n - 1
    else LastColumn(h, mp, role, n - 1)
  }

  // The first of the first n columns of a metering point, or -1.
  function FirstColumn(h: Columns, mp: string, n: nat): (c: int)
    ensures -1 <= c < n
    ensures 0 <= c ==> Owner(h, c) == Some(mp)
    ensures forall k :: 0 <= k < (if c < 0 then n else c) ==> Owner(h, k) != Some(mp)
  {
    if n == 0 then -1
    else
      var before := FirstColumn(h, mp, n - 1);
      if 0 <= before then before else if Owner(h, n - 1) == Some(mp) then n - 1 else -1
  }

  datatype Pair = Pair(total: int, share: int, coverage: int, direction: Direction, start: Option<int>,
                       end: Option<int>)

  // What the first n columns say about a metering point: its first column names direction and
  // period, its last column in a role is the one that is read.
  function PairOf(h: Columns, mp: string, n: nat): Pair
    requires 0 <= FirstColumn(h, mp, n)
  {
    var f := FirstColumn(h, mp, n);
    Pair(LastColumn(h, mp, 0, n), LastColumn(h, mp, 1, n), LastColumn(h, mp, 2, n),
         h.dirs[f].value, Nth(h.starts, f), Nth(h.ends, f))
  }

  ghost predicate ArePairs(h: Columns, n: nat, byMP: map<string, Pair>) {
    && (forall mp :: mp in byMP <==> 0 <= FirstColumn(h, mp, n))
    && (forall mp :: mp in byMP ==> byMP[mp] == PairOf(h, mp, n))
  }

  // The next column of a metering point.
  function WithColumn(h: Columns, i: nat, p: Pair): Pair {
    match Role(KindAt(h, i))
    case 0 => p.(total := i)
    case 1 => p.(share := i)
    case 2 => p.(coverage := i)
    case _ => p
  }

  function FirstPair(h: Columns, i: nat): Pair
    requires Nth(h.dirs, i).Some?
  {
    Pair(-1, -1, -1, h.dirs[i].value, Nth(h.starts, i), Nth(h.ends, i))
  }

  method Insert(h: Columns, i: nat, byMP: map<string, Pair>) returns (r: map<string, Pair>)
    requires i < |h.ids| && KindAt(h, i) != BadCode
    requires ArePairs(h, i, byMP)
    ensures ArePairs(h, i + 1, r)
  {
    hide NameOk, Trim, PairOf, ArePairs;
    var mp := Trim(h.ids[i]);
    var dir := Nth(h.dirs, i);
    if !NameOk(mp) || dir.None? {
      IdleColumn(h, i, byMP);
      return byMP;
    }
    var p;
    if mp in byMP {
      p := byMP[mp];
    } else {
      p := Pair(-1, -1, -1, dir.value, Nth(h.starts, i), Nth(h.ends, i));
    }
    match KindAt(h, i) {
      case TotalCode => p := p.(total := i);
      case TotalProdCode => p := p.(total := i);
      case ShareCode => p := p.(share := i);
      case ProfitCode => p := p.(share := i);
      case CoverageCode => p := p.(coverage := i);
    }
    r := byMP[mp := p];
    NextColumn(h, i, mp, byMP, r);
  }

  lemma {:induction false} IdleColumn(h: Columns, i: nat, byMP: map<string, Pair>)
    requires ArePairs(h, i, byMP) && Owner(h, i).None?
    ensures ArePairs(h, i + 1, byMP)
  {
    hide Owner;
  }

  lemma {:induction false} NextColumn(h: Columns, i: nat, mp: string, byMP: map<string, Pair>, r: map<string, Pair>)
    requires ArePairs(h, i, byMP) && Owner(h, i) == Some(mp)
    requires r == byMP[mp := WithColumn(h, i, if mp in byMP then byMP[mp] else FirstPair(h, i))]
    ensures ArePairs(h, i + 1, r)
  {
    hide NameOk, Trim, PairOf;
    forall other ensures other in r <==> 0 <= FirstColumn(h, other, i + 1) {
    }
    forall other | other in r ensures r[other] == PairOf(h, other, i + 1) {
      if other == mp {
        OwnColumn(h, i, mp);
      } else {
        OtherColumn(h, i, other);
      }
    }
  }

  lemma {:induction false} OtherColumn(h: Columns, i: nat, mp: string)
    requires Owner(h, i) != Some(mp) && 0 <= FirstColumn(h, mp, i)
    ensures PairOf(h, mp, i + 1) == PairOf(h, mp, i)
  {
    hide Owner;
  }

  lemma {:induction false} OwnColumn(h: Columns, i: nat, mp: string)
    requires Owner(h, i) == Some(mp)
    ensures 0 <= FirstColumn(h, mp, i + 1)
    ensures PairOf(h, mp, i + 1) == WithColumn(h, i, if 0 <= FirstColumn(h, mp, i) then PairOf(h, mp, i)
                                               else FirstPair(h, i))
  {
    hide NameOk, Trim;
    NoColumnsYet(h, mp, i);
  }

  lemma {:induction false} NoColumnsYet(h: Columns, mp: string, n: nat)
    ensures FirstColumn(h, mp, n) < 0 ==>
              LastColumn(h, mp, 0, n) == LastColumn(h, mp, 1, n) == LastColumn(h, mp, 2, n) == -1
  {
    hide Owner;
  }

  method BuildPairs(h: Columns) returns (byMP: map<string, Pair>)
    ensures ArePairs(h, |h.ids|, byMP)
  {
    hide NameOk, Trim;
    byMP := map[];
    for i := 0 to |h.ids|
      invariant ArePairs(h, i, byMP)
    {
      if KindAt(h, i) != BadCode {
        byMP := Insert(h, i, byMP);
      }
    }
  }

  // ---- Numbering. ----

  // The column that places a metering point in the order: its last Total column.
  predicate IsTotalColumn(h: Columns, i: nat) {
    Owner(h, i).Some? && LastColumn(h, Owner(h, i).value, 0, |h.ids|) == i
  }

  // All Total columns among the first n, in order.
  ghost predicate AreTotalsUpTo(h: Columns, n: nat, cols: seq<nat>) {
    && (forall k :: 0 <= k < |cols| ==> cols[k] < n && IsTotalColumn(h, cols[k]))
    && (forall i: nat :: i < n && IsTotalColumn(h, i) ==> i in cols)
    && (forall j, k :: 0 <= j < k < |cols| ==> cols[j] < cols[k])
  }

  lemma {:induction false} NoTotalColumns(h: Columns)
    ensures AreTotalsUpTo(h, 0, [])
  {
  }

  lemma {:induction false} NextTotal(h: Columns, n: nat, cols: seq<nat>)
    requires AreTotalsUpTo(h, n, cols)
    ensures AreTotalsUpTo(h, n + 1, if IsTotalColumn(h, n) then cols + [n] else cols)
  {
    hide IsTotalColumn;
  }

  function TotalColumns(h: Columns, n: nat): (cols: seq<nat>)
    ensures AreTotalsUpTo(h, n, cols)
  {
    hide AreTotalsUpTo, IsTotalColumn;
    NoTotalColumns(h);
    if n == 0 then [] else
    var before := TotalColumns(h, n - 1);
    NextTotal(h, n - 1, before);
    if IsTotalColumn(h, n - 1) then before + [n - 1] else before
  }

  datatype CpRecord = CpRecord(meter: string, direction: Direction, sourceIdx: nat, start: Option<int>,
                               end: Option<int>,
                               total: int, share: int, coverage: int)

  function DirectionAt(h: Columns, i: nat): Direction
    requires Owner(h, i).Some?
  {
    h.dirs[FirstColumn(h, Owner(h, i).value, |h.ids|)].value
  }

  // How many of some Total columns are of a direction.
  function CountOf(h: Columns, cols: seq<nat>, d: Direction): nat
    requires forall k :: 0 <= k < |cols| ==> Owner(h, cols[k]).Some?
  {
    if cols == [] then 0 else CountOf(h, cols[..|cols| - 1], d) + if DirectionAt(h, cols[|cols| - 1]) == d then 1 else 0
  }

  function RecordAt(h: Columns, i: nat, idx: nat): CpRecord
    requires Owner(h, i).Some?
  {
    var mp := Owner(h, i).value;
    var p := PairOf(h, mp, |h.ids|);
    CpRecord(mp, p.direction, idx, p.start, p.end, p.total, p.share, p.coverage)
  }

  // One record per Total column, in column order, numbered within each direction.
  function Records(h: Columns, cols: seq<nat>): (rs: seq<CpRecord>)
    requires forall k :: 0 <= k < |cols| ==> Owner(h, cols[k]).Some?
    ensures |rs| == |cols|
  {
    if cols == [] then [] else
    var before := cols[..|cols| - 1];
    var i := cols[|cols| - 1];
    Records(h, before) + [RecordAt(h, i, CountOf(h, before, DirectionAt(h, i)))]
  }

  function AllRecords(h: Columns): seq<CpRecord> {
    Records(h, TotalColumns(h, |h.ids|))
  }

  // The metering points of some Total columns.
  ghost predicate AreOwners(h: Columns, mps: seq<string>, cols: seq<nat>) {
    |mps| == |cols| && forall k :: 0 <= k < |mps| ==> Owner(h, cols[k]) == Some(mps[k])
  }

  ghost predicate AscendingTotals(byMP: map<string, Pair>, mps: seq<string>) {
    && (forall k :: 0 <= k < |mps| ==> mps[k] in byMP)
    && (forall j, k :: 0 <= j < k < |mps| ==> byMP[mps[j]].total < byMP[mps[k]].total)
  }

  // The metering points with a Total column, collected in any order.
  method CollectMeters(byMP: map<string, Pair>) returns (mps: seq<string>)
    ensures forall mp :: mp in mps <==> mp in byMP && 0 <= byMP[mp].total
    ensures forall j, k :: 0 <= j < k < |mps| ==> mps[j] != mps[k]
  {
    mps := [];
    var todo := byMP.Keys;
    while todo != {}
      invariant todo <= byMP.Keys
      invariant forall mp :: mp in mps <==> mp in byMP && mp !in todo && 0 <= byMP[mp].total
      invariant forall j, k :: 0 <= j < k < |mps| ==> mps[j] != mps[k]
      decreases todo
    {
      var mp :| mp in todo;
      todo := todo - {mp};
      if 0 <= byMP[mp].total {
        mps := mps + [mp];
      }
    }
  }

  // Sorting by the Total column.
  method SortByTotal(byMP: map<string, Pair>, mps: seq<string>) returns (sorted: seq<string>)
    requires forall mp :: mp in mps ==> mp in byMP
    requires forall j, k :: 0 <= j < k < |mps| ==> byMP[mps[j]].total != byMP[mps[k]].total
    ensures AscendingTotals(byMP, sorted)
    ensures forall mp :: mp in sorted <==> mp in mps
  {
    sorted := [];
    for n := 0 to |mps|
      invariant AscendingTotals(byMP, sorted)
      invariant forall mp :: mp in sorted <==> mp in mps[..n]
    {
      var p := 0;
      while p < |sorted| && byMP[sorted[p]].total < byMP[mps[n]].total
        invariant 0 <= p <= |sorted|
        invariant forall k :: 0 <= k < p ==> byMP[sorted[k]].total < byMP[mps[n]].total
      {
        p := p + 1;
      }
      if p < |sorted| {
        assert sorted[p] in mps[..n];
      }
      InsertKeepsOrder(byMP, sorted, p, mps[n]);
      InsertKeepsMembers(sorted, p, mps[n]);
      assert mps[..n + 1] == mps[..n] + [mps[n]];
      sorted := sorted[..p] + [mps[n]] + sorted[p..];
    }
    assert mps[..|mps|] == mps;
  }

  lemma {:induction false} InsertKeepsOrder(byMP: map<string, Pair>, sorted: seq<string>, p: nat, mp: string)
    requires AscendingTotals(byMP, sorted) && p <= |sorted| && mp in byMP
    requires forall k :: 0 <= k < p ==> byMP[sorted[k]].total < byMP[mp].total
    requires p < |sorted| ==> byMP[mp].total < byMP[sorted[p]].total
    ensures AscendingTotals(byMP, sorted[..p] + [mp] + sorted[p..])
  {
    var r := sorted[..p] + [mp] + sorted[p..];
    forall k | 0 <= k < |r| ensures r[k] == if k < p then sorted[k] else if k == p then mp else sorted[k - 1] {
    }
  }

  lemma {:induction false} InsertKeepsMembers(sorted: seq<string>, p: nat, mp: string)
    requires p <= |sorted|
    ensures forall x :: x in sorted[..p] + [mp] + sorted[p..] <==> x in sorted || x == mp
  {
    assert sorted == sorted[..p] + sorted[p..];
  }

  // Two ascending sequences of the same numbers are the same.
  lemma {:induction false} AscendingIsUnique(a: seq<nat>, b: seq<nat>)
    requires forall j, k :: 0 <= j < k < |a| ==> a[j] < a[k]
    requires forall j, k :: 0 <= j < k < |b| ==> b[j] < b[k]
    requires forall x :: x in a <==> x in b
    ensures a == b
  {
    if b != [] {
      assert b[0] in a;
    }
    if a != [] {
      var m, n := |a| - 1, |b| - 1;
      assert a[m] in b && b != [];
      assert b[n] in a;
      assert a[m] == b[n];
      forall x ensures x in a[..m] <==> x in b[..n] {
        assert x in a[..m] ==> x in a && x != a[m];
        assert x in b[..n] ==> x in b && x != b[n];
      }
      AscendingIsUnique(a[..m], b[..n]);
    }
  }

  // A Total column belongs to the metering point whose last Total column it is.
  lemma {:induction false} TotalsAreColumns(h: Columns, byMP: map<string, Pair>, mp: string)
    requires ArePairs(h, |h.ids|, byMP) && mp in byMP && 0 <= byMP[mp].total
    ensures var i := byMP[mp].total; i < |h.ids| && IsTotalColumn(h, i) && Owner(h, i) == Some(mp)
  {
    hide Owner;
  }

  lemma {:induction false} ColumnsHaveTotals(h: Columns, byMP: map<string, Pair>, i: nat)
    requires ArePairs(h, |h.ids|, byMP) && i < |h.ids| && IsTotalColumn(h, i)
    ensures var mp := Owner(h, i).value; mp in byMP && byMP[mp].total == i
  {
    hide Owner;
  }

  lemma {:induction false} TotalsDiffer(h: Columns, byMP: map<string, Pair>, mps: seq<string>)
    requires ArePairs(h, |h.ids|, byMP)
    requires forall mp :: mp in mps ==> mp in byMP && 0 <= byMP[mp].total
    requires forall j, k :: 0 <= j < k < |mps| ==> mps[j] != mps[k]
    ensures forall j, k :: 0 <= j < k < |mps| ==> byMP[mps[j]].total != byMP[mps[k]].total
  {
    hide ArePairs, Owner;
    forall j, k | 0 <= j < k < |mps| ensures byMP[mps[j]].total != byMP[mps[k]].total {
      TotalsAreColumns(h, byMP, mps[j]);
      TotalsAreColumns(h, byMP, mps[k]);
    }
  }

  // Whatever order the metering points were collected in, sorting yields the Total columns.
  lemma {:induction false} SortedAreOwners(h: Columns, byMP: map<string, Pair>, sorted: seq<string>)
    requires ArePairs(h, |h.ids|, byMP) && AscendingTotals(byMP, sorted)
    requires forall mp :: mp in sorted <==> mp in byMP && 0 <= byMP[mp].total
    ensures AreOwners(h, sorted, TotalColumns(h, |h.ids|))
  {
    hide ArePairs, Owner, IsTotalColumn;
    forall k | 0 <= k < |sorted| ensures 0 <= byMP[sorted[k]].total
      && Owner(h, byMP[sorted[k]].total) == Some(sorted[k]) {
      assert sorted[k] in sorted;
      TotalsAreColumns(h, byMP, sorted[k]);
    }
    var ts: seq<nat> := seq(|sorted|, k requires 0 <= k < |sorted| => byMP[sorted[k]].total);
    forall x ensures x in ts <==> x in TotalColumns(h, |h.ids|) {
      if x in ts {
        var k :| 0 <= k < |ts| && ts[k] == x;
        TotalsAreColumns(h, byMP, sorted[k]);
      }
      if x in TotalColumns(h, |h.ids|) {
        ColumnsHaveTotals(h, byMP, x);
        var mp := Owner(h, x).value;
        assert mp in sorted;
        var k :| 0 <= k < |sorted| && sorted[k] == mp;
        assert ts[k] == x;
      }
    }
    AscendingIsUnique(ts, TotalColumns(h, |h.ids|));
  }

  function Build(h: Header): Result<seq<CpRecord>> {
    if h.ids.None? || h.dirs.None? || h.codes.None? then Err("header incomplete")
    else Ok(AllRecords(Columns(h.ids.value, h.dirs.value, h.codes.value, h.starts, h.ends)))
  }

  // The records do not depend on the order in which the map of metering points is walked.
  method BuildCpRecords(h: Header) returns (r: Result<seq<CpRecord>>)
    ensures r == Build(h)
  {
    if h.ids.None? || h.dirs.None? || h.codes.None? {
      return Err("header incomplete");
    }
    var cols := Columns(h.ids.value, h.dirs.value, h.codes.value, h.starts, h.ends);
    var byMP := BuildPairs(cols);
    var mps := CollectMeters(byMP);
    TotalsDiffer(cols, byMP, mps);
    var sorted := SortByTotal(byMP, mps);
    SortedAreOwners(cols, byMP, sorted);
    var out := NumberRecords(cols, byMP, sorted);
    r := Ok(out);
  }

  method NumberRecords(h: Columns, byMP: map<string, Pair>, sorted: seq<string>) returns (out: seq<CpRecord>)
    requires ArePairs(h, |h.ids|, byMP) && AscendingTotals(byMP, sorted)
             && AreOwners(h, sorted, TotalColumns(h, |h.ids|))
    ensures out == AllRecords(h)
  {
    hide Owner, PairOf, Records, CountOf, TotalColumns, FirstColumn;
    ghost var all := TotalColumns(h, |h.ids|);
    NoRecords(h);
    assert all[..0] == [];
    var consumerIdx, producerIdx := 0, 0;
    out := [];
    for n := 0 to |sorted|
      invariant out == Records(h, all[..n])
      invariant consumerIdx == CountOf(h, all[..n], Consumer) && producerIdx == CountOf(h, all[..n], Producer)
    {
      var mp := sorted[n];
      var p := byMP[mp];
      NextRecord(h, all, n, mp);
      var idx;
      match p.direction {
        case Consumer =>
          idx := consumerIdx;
          consumerIdx := consumerIdx + 1;
        case Producer =>
          idx := producerIdx;
          producerIdx := producerIdx + 1;
      }
      out := out + [CpRecord(mp, p.direction, idx, p.start, p.end, p.total, p.share, p.coverage)];
    }
    assert all[..|sorted|] == all;
  }

  lemma {:induction false} NoRecords(h: Columns)
    ensures Records(h, []) == [] && CountOf(h, [], Consumer) == CountOf(h, [], Producer) == 0
  {
  }

  lemma {:induction false} NextRecord(h: Columns, cols: seq<nat>, n: nat, mp: string)
    requires n < |cols| && Owner(h, cols[n]) == Some(mp) && cols[n] < |h.ids|
    requires forall k :: 0 <= k < |cols| ==> Owner(h, cols[k]).Some?
    ensures 0 <= FirstColumn(h, mp, |h.ids|)
    ensures var p := PairOf(h, mp, |h.ids|);
            && Records(h, cols[..n + 1]) == Records(h, cols[..n])
               + [CpRecord(mp, p.direction, CountOf(h, cols[..n], p.direction), p.start, p.end, p.total, p.share,
                           p.coverage)]
            && CountOf(h, cols[..n + 1], Consumer)
                 == CountOf(h, cols[..n], Consumer) + (if p.direction == Consumer then 1 else 0)
            && CountOf(h, cols[..n + 1], Producer)
                 == CountOf(h, cols[..n], Producer) + (if p.direction == Producer then 1 else 0)
  {
    hide Owner;
    assert cols[..n + 1][..n] == cols[..n];
    PairDirection(h, cols[n]);
  }

  lemma {:induction false} PairDirection(h: Columns, i: nat)
    requires Owner(h, i).Some?
    ensures 0 <= FirstColumn(h, Owner(h, i).value, |h.ids|)
    ensures PairOf(h, Owner(h, i).value, |h.ids|).direction == DirectionAt(h, i)
  {
  }

  // ---- The rows of the sheet. ----

  datatype SheetSlot = SheetSlot(meter: string, code: string, seconds: int, value: real, qov: int)

  datatype RowKind = IdRow | SkippedRow | DirectionRow | EndRow | StartRow | CodeRow | OtherRow

  const SKIPPED := ["Spaltensumme", "Metering Interval", "Name", "MeteringReason", "Number of Metering Intervals",
                    "Spaltensumme / minimale Qualität", "Data Completeness", "Metering Point active end",
                    "Metering Point active start", "Data Period end", "Data Period start"]

  function RowKindOf(title: string): RowKind {
    if title == "MeteringpointID" then IdRow
    else if title in SKIPPED then SkippedRow
    else if title == "Energy direction" then DirectionRow
    else if title == "Period end" || title == "Report Filter end" then EndRow
    else if title == "Period start" || title == "Report Filter start" then StartRow
    else if title == "Metercode" then CodeRow
    else OtherRow
  }

  function ParseDirections(cells: seq<string>): (r: seq<Option<Direction>>)
    ensures |r| == |cells| && forall i :: 0 <= i < |r| ==> r[i] == ParseDirection(cells[i])
  {
    seq(|cells|, i requires 0 <= i < |cells| => ParseDirection(cells[i]))
  }

  function ParseDates(fmt: Formats, cells: seq<string>): (r: seq<Option<int>>)
    ensures |r| == |cells| && forall i :: 0 <= i < |r| ==> r[i] == ParseDateCell(fmt, cells[i])
  {
    seq(|cells|, i requires 0 <= i < |cells| => ParseDateCell(fmt, cells[i]))
  }

  function ParseKinds(cells: seq<string>): (r: seq<Kind>)
    ensures |r| == |cells| && forall i :: 0 <= i < |r| ==> r[i] == ClassifyMeterCode(Upper(cells[i]))
  {
    seq(|cells|, i requires 0 <= i < |cells| => ClassifyMeterCode(Upper(cells[i])))
  }

  function WithHeaderRow(fmt: Formats, h: Header, row: seq<string>): Header
    requires row != []
  {
    match RowKindOf(row[0])
    case IdRow => h.(ids := Some(row[1..]))
    case DirectionRow => h.(dirs := Some(ParseDirections(row[1..])))
    case EndRow => h.(ends := ParseDates(fmt, row[1..]))
    case StartRow => h.(starts := ParseDates(fmt, row[1..]))
    case CodeRow => h.(codes := Some(ParseKinds(row[1..])))
    case _ => h
  }

  function SafeCol(cols: seq<string>, i: int): string {
    if 0 <= i < |cols| then cols[i] else ""
  }

  // One cell as a measured slot; an absent column yields none.
  function SlotOf(fmt: Formats, meter: string, code: string, seconds: int, cols: seq<string>, i: int): seq<SheetSlot> {
    if i < 0 then [] else [SheetSlot(meter, code, seconds, ReadNumber(fmt, SafeCol(cols, i + 1)), 1)]
  }

  function SlotsForRow(fmt: Formats, cp: CpRecord, seconds: int, cols: seq<string>): seq<SheetSlot> {
    match cp.direction
    case Consumer =>
      SlotOf(fmt, cp.meter, CONSUMED, seconds, cols, cp.total)
      + SlotOf(fmt, cp.meter, SHARE, seconds, cols, cp.share)
      + SlotOf(fmt, cp.meter, COVERAGE, seconds, cols, cp.coverage)
    case Producer =>
      SlotOf(fmt, cp.meter, PRODUCED, seconds, cols, cp.total)
      + SlotOf(fmt, cp.meter, PROFIT, seconds, cols, cp.share)
  }

  function RowSlots(fmt: Formats, cps: seq<CpRecord>, seconds: int, cols: seq<string>): seq<SheetSlot> {
    if cps == [] then []
    else RowSlots(fmt, cps[..|cps| - 1], seconds, cols) + SlotsForRow(fmt, cps[|cps| - 1], seconds, cols)
  }

  // The import after some rows.
  datatype State = State(header: Header, records: Option<seq<CpRecord>>, slots: seq<SheetSlot>, failed: bool)

  const START := State(Header(None, None, None, [], []), None, [], false)

  // The header is complete at the first date row; header rows after it change nothing.
  function AtData(s: State): State {
    if s.records.Some? then s
    else
      match Build(s.header)
      case Ok(rs) => s.(records := Some(rs))
      case Err(_) => s.(failed := true)
  }

  function ReadNextRow(fmt: Formats, s: State, row: seq<string>): State {
    if s.failed || row == [] then s
    else if RowKindOf(row[0]) != OtherRow then s.(header := WithHeaderRow(fmt, s.header, row))
    else if !IsDateCell(row[0]) then s
    else
      var d := AtData(s);
      var ts := ParseDateCell(fmt, row[0]);
      if d.failed || ts.None? then d else d.(slots := d.slots + RowSlots(fmt, d.records.value, ts.value, row))
  }

  function ReadRows(fmt: Formats, rows: seq<seq<string>>): State {
    if rows == [] then START else ReadNextRow(fmt, ReadRows(fmt, rows[..|rows| - 1]), rows[|rows| - 1])
  }

  datatype Imported = Imported(records: seq<CpRecord>, slots: seq<SheetSlot>)

  function OutcomeOf(s: State): Result<Imported> {
    if s.failed then Err("header incomplete")
    else if s.records.None? then Err("no header rows found")
    else Ok(Imported(s.records.value, s.slots))
  }

  lemma {:induction false} FailureStays(fmt: Formats, rows: seq<seq<string>>, n: nat)
    requires n <= |rows| && ReadRows(fmt, rows[..n]).failed
    ensures ReadRows(fmt, rows).failed
    decreases |rows|
  {
    if n == |rows| {
      assert rows[..n] == rows;
    } else {
      assert rows[..|rows| - 1][..n] == rows[..n];
      FailureStays(fmt, rows[..|rows| - 1], n);
    }
  }

  // What importFile hands to the repository and the store.
  method ImportFile(fmt: Formats, rows: seq<seq<string>>) returns (r: Result<Imported>)
    ensures r == OutcomeOf(ReadRows(fmt, rows))
  {
    hide Build, RowKindOf, ParseDateCell, IsDateCell, RowSlots, ClassifyMeterCode;
    var hdr, meta, hdrReady, slots := START.header, [], false, [];
    for n := 0 to |rows|
      invariant ReadRows(fmt, rows[..n]) == State(hdr, if hdrReady then Some(meta) else None, slots, false)
    {
      var cols := rows[n];
      assert rows[..n + 1][..n] == rows[..n];
      if cols == [] {
        continue;
      }
      match RowKindOf(cols[0]) {
        case IdRow => hdr := hdr.(ids := Some(cols[1..]));
        case SkippedRow =>
        case DirectionRow => hdr := hdr.(dirs := Some(ParseDirections(cols[1..])));
        case EndRow => hdr := hdr.(ends := ParseDates(fmt, cols[1..]));
        case StartRow => hdr := hdr.(starts := ParseDates(fmt, cols[1..]));
        case CodeRow => hdr := hdr.(codes := Some(ParseKinds(cols[1..])));
        case OtherRow =>
          if !IsDateCell(cols[0]) {
            continue;
          }
          if !hdrReady {
            var built := BuildCpRecords(hdr);
            if built.Err? {
              FailureStays(fmt, rows, n + 1);
              return Err("header incomplete");
            }
            meta, hdrReady := built.value, true;
          }
          var ts := ParseDateCell(fmt, cols[0]);
          if ts.None? {
            continue;
          }
          var batch := CollectSlots(fmt, meta, ts.value, cols);
          slots := slots + batch;
      }
    }
    assert rows[..|rows|] == rows;
    if !hdrReady {
      return Err("no header rows found");
    }
    r := Ok(Imported(meta, slots));
  }

  method CollectSlots(fmt: Formats, cps: seq<CpRecord>, seconds: int, cols: seq<string>) returns (batch: seq<SheetSlot>)
    ensures batch == RowSlots(fmt, cps, seconds, cols)
  {
    batch := [];
    for i := 0 to |cps|
      invariant batch == RowSlots(fmt, cps[..i], seconds, cols)
    {
      assert cps[..i + 1][..i] == cps[..i];
      batch := batch + SlotsForRow(fmt, cps[i], seconds, cols);
    }
    assert cps[..|cps|] == cps;
  }
}
