/**
 What a report counts: amounts, qualities and active meters, summed per key over a list of
 keyed lines. The report classes are proved against these definitions.
 */
module Tally {
  import opened CounterPoints
  import opened RawLine
  import opened Rounding

  datatype Quantity = Consumed | Allocated | Distributed | Produced

  function SideOf(q: Quantity): Side {
    if q == Produced then Producer else Consumer
  }

  // The slot of each block that a quantity is read from.
  function SlotOf(q: Quantity): nat {
    match q
    case Consumed => 0
    case Allocated => 1
    case Distributed => 2
    case Produced => 0
  }

  function BlockCount(l: RawSourceLine, s: Side): nat {
    if s == Consumer then |l.consumers| / 3 else |l.producers| / 2
  }

  // One slot summed over the first n blocks.
  function SlotSum(l: RawSourceLine, s: Side, slot: nat, n: nat): real {
    if n == 0 then 0.0 else SlotSum(l, s, slot, n - 1) + l.Cell(s, BlockCell(s, n - 1, slot))
  }

  // The quality of the first n blocks: the join over their slot 0.
  function SlotQov(l: RawSourceLine, s: Side, n: nat): int {
    if n == 0 then 1 else CalcQov(SlotQov(l, s, n - 1), l.Qov(s, BlockCell(s, n - 1, 0)))
  }

  predicate ActiveBlock(l: RawSourceLine, s: Side, b: nat) {
    || l.Cell(s, BlockCell(s, b, 0)) != 0.0 || l.Cell(s, BlockCell(s, b, 1)) != 0.0
    || (s == Consumer && l.Cell(s, BlockCell(s, b, 2)) != 0.0)
  }

  function ActiveBlocks(l: RawSourceLine, s: Side, n: nat): nat {
    if n == 0 then 0 else ActiveBlocks(l, s, n - 1) + if ActiveBlock(l, s, n - 1) then 1 else 0
  }

  function Amount(l: RawSourceLine, q: Quantity): real {
    SlotSum(l, SideOf(q), SlotOf(q), BlockCount(l, SideOf(q)))
  }

  function LineQov(l: RawSourceLine, s: Side): int {
    SlotQov(l, s, BlockCount(l, s))
  }

  function ActiveCount(l: RawSourceLine, s: Side): nat {
    ActiveBlocks(l, s, BlockCount(l, s))
  }

  function Max0(x: real): (r: real)
    ensures 0.0 <= r && x <= r && (r == x || r == 0.0)
  {
    if x < 0.0 then 0.0 else x
  }

  lemma {:induction false} MaxZero()
    ensures Max(0, 0) == 0
  {
  }

  // A line together with the report entry it counts towards.
  datatype Piece<K> = Piece(key: K, line: RawSourceLine)

  function AmountFor<K(==)>(ps: seq<Piece<K>>, key: K, q: Quantity): real {
    if ps == [] then 0.0 else
    var p := ps[|ps| - 1];
    AmountFor(ps[..|ps| - 1], key, q) + if p.key == key then Amount(p.line, q) else 0.0
  }

  function QovFor<K(==)>(ps: seq<Piece<K>>, key: K, s: Side): int {
    if ps == [] then 1 else
    var p := ps[|ps| - 1];
    CalcQov(QovFor(ps[..|ps| - 1], key, s), if p.key == key then LineQov(p.line, s) else 1)
  }

  function CountFor<K(==)>(ps: seq<Piece<K>>, key: K, s: Side): nat {
    if ps == [] then 0 else
    var p := ps[|ps| - 1];
    Max(CountFor(ps[..|ps| - 1], key, s), if p.key == key then ActiveCount(p.line, s) else 0)
  }

  function AmountOfAll<K>(ps: seq<Piece<K>>, q: Quantity): real {
    if ps == [] then 0.0 else AmountOfAll(ps[..|ps| - 1], q) + Amount(ps[|ps| - 1].line, q)
  }

  lemma {:induction false} ForSnoc<K>(ps: seq<Piece<K>>, p: Piece<K>, key: K)
    ensures forall q: Quantity :: AmountFor(ps + [p], key, q)
              == AmountFor(ps, key, q) + if p.key == key then Amount(p.line, q) else 0.0
    ensures forall s: Side ::
              QovFor(ps + [p], key, s) == CalcQov(QovFor(ps, key, s), if p.key == key then LineQov(p.line, s) else 1)
    ensures forall s: Side ::
              CountFor(ps + [p], key, s)
              == Max(CountFor(ps, key, s), if p.key == key then ActiveCount(p.line, s) else 0)
    ensures forall q: Quantity :: AmountOfAll(ps + [p], q) == AmountOfAll(ps, q) + Amount(p.line, q)
  {
    assert (ps + [p])[..|ps|] == ps;
  }

  ghost predicate HasKey<K>(ps: seq<Piece<K>>, key: K) {
    exists i :: 0 <= i < |ps| && ps[i].key == key
  }

  lemma {:induction false} ForAbsent<K>(ps: seq<Piece<K>>, key: K)
    requires !HasKey(ps, key)
    ensures forall q: Quantity :: AmountFor(ps, key, q) == 0.0
    ensures forall s: Side :: QovFor(ps, key, s) == 1 && CountFor(ps, key, s) == 0
  {
    if ps != [] {
      var n := |ps| - 1;
      assert ps[n].key != key;
      assert !HasKey(ps[..n], key) by {
        assert forall i :: 0 <= i < n ==> ps[..n][i] == ps[i];
      }
      hide *;
      ForAbsent(ps[..n], key);
      assert ps == ps[..n] + [ps[n]];
      ForSnoc(ps[..n], ps[n], key);
      QovLaws(1, 1, 1);
      MaxZero();
    }
  }

  // Sums over a list of distinct keys that covers every piece.

  ghost predicate Distinct<K>(order: seq<K>) {
    forall i, j :: 0 <= i < j < |order| ==> order[i] != order[j]
  }

  ghost predicate Covers<K>(order: seq<K>, ps: seq<Piece<K>>) {
    forall i :: 0 <= i < |ps| ==> ps[i].key in order
  }

  function SumFor<K(==)>(order: seq<K>, ps: seq<Piece<K>>, q: Quantity): real {
    if order == [] then 0.0 else SumFor(order[..|order| - 1], ps, q) + AmountFor(ps, order[|order| - 1], q)
  }

  lemma {:induction false} SumForSnoc<K>(order: seq<K>, ps: seq<Piece<K>>, p: Piece<K>, q: Quantity)
    requires Distinct(order)
    ensures SumFor(order, ps + [p], q) == SumFor(order, ps, q) + if p.key in order then Amount(p.line, q) else 0.0
  {
    if order != [] {
      var n := |order| - 1;
      SumForSnoc(order[..n], ps, p, q);
      ForSnoc(ps, p, order[n]);
      assert p.key in order <==> p.key in order[..n] || p.key == order[n];
    }
  }

  // Summing the entries of a report gives the amount of all lines, each counted once.
  lemma {:induction false} EntriesSumToAll<K>(order: seq<K>, ps: seq<Piece<K>>, q: Quantity)
    requires Distinct(order) && Covers(order, ps)
    ensures SumFor(order, ps, q) == AmountOfAll(ps, q)
  {
    if ps == [] {
      SumForNothing(order, q);
    } else {
      var n := |ps| - 1;
      assert Covers(order, ps[..n]);
      EntriesSumToAll(order, ps[..n], q);
      SumForSnoc(order, ps[..n], ps[n], q);
      assert ps[..n] + [ps[n]] == ps;
    }
  }

  lemma {:induction false} SumForNothing<K>(order: seq<K>, q: Quantity)
    ensures SumFor(order, [], q) == 0.0
  {
    if order != [] {
      SumForNothing(order[..|order| - 1], q);
    }
  }

  // Regrouping: pieces that already hold the totals of finer keys, counted by a coarser key.

  function Rekey<J, K>(ps: seq<Piece<J>>, f: J -> K): (r: seq<Piece<K>>)
    ensures |r| == |ps|
    ensures forall i :: 0 <= i < |ps| ==> r[i] == Piece(f(ps[i].key), ps[i].line)
  {
    seq(|ps|, i requires 0 <= i < |ps| => Piece(f(ps[i].key), ps[i].line))
  }

  lemma {:induction false} RekeySnoc<J, K>(ps: seq<Piece<J>>, p: Piece<J>, f: J -> K)
    ensures Rekey(ps + [p], f) == Rekey(ps, f) + [Piece(f(p.key), p.line)]
  {
  }

  // Over the finer keys in `order`, the amount of those that map to a coarse key.
  function CoarseSum<J(==), K(==)>(order: seq<J>, ps: seq<Piece<J>>, f: J -> K, key: K, q: Quantity): real {
    if order == [] then 0.0 else
    var last := order[|order| - 1];
    CoarseSum(order[..|order| - 1], ps, f, key, q) + if f(last) == key then AmountFor(ps, last, q) else 0.0
  }

  lemma {:induction false} CoarseSumSnoc<J, K>(order: seq<J>, ps: seq<Piece<J>>, p: Piece<J>, f: J -> K, key: K,
                                               q: Quantity)
    requires Distinct(order)
    ensures CoarseSum(order, ps + [p], f, key, q)
            == CoarseSum(order, ps, f, key, q) + if p.key in order && f(p.key) == key then Amount(p.line, q) else 0.0
  {
    if order != [] {
      var n := |order| - 1;
      CoarseSumSnoc(order[..n], ps, p, f, key, q);
      ForSnoc(ps, p, order[n]);
      assert p.key in order <==> p.key in order[..n] || p.key == order[n];
    }
  }

  lemma {:induction false} CoarseSumNothing<J, K>(order: seq<J>, f: J -> K, key: K, q: Quantity)
    ensures CoarseSum(order, [], f, key, q) == 0.0
  {
    if order != [] {
      CoarseSumNothing(order[..|order| - 1], f, key, q);
    }
  }

  lemma {:induction false} CoarseSumIsAmount<J, K>(order: seq<J>, ps: seq<Piece<J>>, f: J -> K, key: K, q: Quantity)
    requires Distinct(order) && Covers(order, ps)
    ensures CoarseSum(order, ps, f, key, q) == AmountFor(Rekey(ps, f), key, q)
  {
    if ps == [] {
      CoarseSumNothing(order, f, key, q);
    } else {
      var n := |ps| - 1;
      assert Covers(order, ps[..n]);
      CoarseSumIsAmount(order, ps[..n], f, key, q);
      CoarseSumSnoc(order, ps[..n], ps[n], f, key, q);
      assert ps[..n] + [ps[n]] == ps;
      RekeySnoc(ps[..n], ps[n], f);
      ForSnoc(Rekey(ps[..n], f), Piece(f(ps[n].key), ps[n].line), key);
    }
  }

  // One piece per finer key, holding that key's totals.
  ghost predicate Totals<J>(rs: seq<Piece<J>>, ps: seq<Piece<J>>) {
    && (forall i, j :: 0 <= i < j < |rs| ==> rs[i].key != rs[j].key)
    && (forall i :: 0 <= i < |ps| ==> HasKey(rs, ps[i].key))
    && (forall i, q: Quantity {:trigger Amount(rs[i].line, q)} :: 0 <= i < |rs| ==>
          Amount(rs[i].line, q) == AmountFor(ps, rs[i].key, q))
    && (forall i, s: Side {:trigger LineQov(rs[i].line, s)} :: 0 <= i < |rs| ==>
          LineQov(rs[i].line, s) == QovFor(ps, rs[i].key, s))
  }

  function Keys<J>(ps: seq<Piece<J>>): (r: seq<J>)
    ensures |r| == |ps| && forall i :: 0 <= i < |ps| ==> r[i] == ps[i].key
  {
    seq(|ps|, i requires 0 <= i < |ps| => ps[i].key)
  }

  lemma {:induction false} TotalsAsCoarse<J, K>(rs: seq<Piece<J>>, ps: seq<Piece<J>>, f: J -> K, key: K, q: Quantity)
    requires forall i :: 0 <= i < |rs| ==> Amount(rs[i].line, q) == AmountFor(ps, rs[i].key, q)
    ensures AmountFor(Rekey(rs, f), key, q) == CoarseSum(Keys(rs), ps, f, key, q)
  {
    if rs != [] {
      var n := |rs| - 1;
      TotalsAsCoarse(rs[..n], ps, f, key, q);
      assert Keys(rs)[..n] == Keys(rs[..n]);
      assert rs[..n] + [rs[n]] == rs;
      RekeySnoc(rs[..n], rs[n], f);
      ForSnoc(Rekey(rs[..n], f), Piece(f(rs[n].key), rs[n].line), key);
    }
  }

  lemma {:induction false} RegroupAmount<J, K>(rs: seq<Piece<J>>, ps: seq<Piece<J>>, f: J -> K, key: K, q: Quantity)
    requires Totals(rs, ps)
    ensures AmountFor(Rekey(rs, f), key, q) == AmountFor(Rekey(ps, f), key, q)
  {
    TotalsAsCoarse(rs, ps, f, key, q);
    forall i | 0 <= i < |ps| ensures ps[i].key in Keys(rs) {
      assert HasKey(rs, ps[i].key);
      var j :| 0 <= j < |rs| && rs[j].key == ps[i].key;
      assert Keys(rs)[j] == ps[i].key;
    }
    CoarseSumIsAmount(Keys(rs), ps, f, key, q);
  }

  // The quality of a key is the least upper bound of its lines' qualities.
  lemma {:induction false} QovForIsLub<K>(ps: seq<Piece<K>>, key: K, s: Side, c: int)
    ensures QovBelow(QovFor(ps, key, s), c)
            <==> forall i :: 0 <= i < |ps| && ps[i].key == key ==> QovBelow(LineQov(ps[i].line, s), c)
  {
    if ps != [] {
      var n := |ps| - 1;
      QovForIsLub(ps[..n], key, s, c);
      QovIsJoin(QovFor(ps[..n], key, s), if ps[n].key == key then LineQov(ps[n].line, s) else 1, c);
      assert forall i :: 0 <= i < n ==> ps[..n][i] == ps[i];
    }
  }

  lemma {:induction false} RegroupQovBelow<J, K>(rs: seq<Piece<J>>, ps: seq<Piece<J>>, f: J -> K, key: K, s: Side,
                                                 c: int)
    requires Totals(rs, ps)
    ensures QovBelow(QovFor(Rekey(rs, f), key, s), c) <==> QovBelow(QovFor(Rekey(ps, f), key, s), c)
  {
    var fine, coarse := Rekey(ps, f), Rekey(rs, f);
    QovForIsLub(fine, key, s, c);
    QovForIsLub(coarse, key, s, c);
    if QovBelow(QovFor(coarse, key, s), c) {
      forall i | 0 <= i < |fine| && fine[i].key == key ensures QovBelow(LineQov(fine[i].line, s), c) {
        assert HasKey(rs, ps[i].key);
        var j :| 0 <= j < |rs| && rs[j].key == ps[i].key;
        assert coarse[j].key == key;
        assert QovBelow(LineQov(rs[j].line, s), c);
        QovForIsLub(ps, rs[j].key, s, c);
      }
    }
    if QovBelow(QovFor(fine, key, s), c) {
      forall j | 0 <= j < |coarse| && coarse[j].key == key ensures QovBelow(LineQov(coarse[j].line, s), c) {
        forall i | 0 <= i < |ps| && ps[i].key == rs[j].key ensures QovBelow(LineQov(ps[i].line, s), c) {
          assert fine[i].key == key;
        }
        QovForIsLub(ps, rs[j].key, s, c);
        assert LineQov(rs[j].line, s) == QovFor(ps, rs[j].key, s);
      }
    }
  }

  // However lines are bucketed first, the joined quality of a key is the same.
  lemma {:induction false} RegroupQov<J, K>(rs: seq<Piece<J>>, ps: seq<Piece<J>>, f: J -> K, key: K, s: Side)
    requires Totals(rs, ps)
    ensures QovFor(Rekey(rs, f), key, s) == QovFor(Rekey(ps, f), key, s)
  {
    var a, b := QovFor(Rekey(rs, f), key, s), QovFor(Rekey(ps, f), key, s);
    RegroupQovBelow(rs, ps, f, key, s, a);
    RegroupQovBelow(rs, ps, f, key, s, b);
    QovIsJoin(a, b, 0);
    QovIsJoin(a, a, 0);
    QovIsJoin(b, b, 0);
  }

  // Padding: pieces with empty lines put in between change no entry.

  ghost predicate SameCells(l: RawSourceLine, m: RawSourceLine) {
    && |l.consumers| == |m.consumers| && |l.producers| == |m.producers|
    && (forall s: Side, i: nat {:trigger l.Cell(s, i)} {:trigger m.Cell(s, i)} :: l.Cell(s, i) == m.Cell(s, i))
    && (forall s: Side, i: nat {:trigger l.Qov(s, i)} {:trigger m.Qov(s, i)} :: l.Qov(s, i) == m.Qov(s, i))
  }

  ghost predicate PaddedWith<K>(ps: seq<Piece<K>>, fs: seq<Piece<K>>) {
    if fs == [] then ps == [] else
    var last, before := fs[|fs| - 1], fs[..|fs| - 1];
    || (ps != [] && ps[|ps| - 1].key == last.key && SameCells(ps[|ps| - 1].line, last.line)
       && PaddedWith(ps[..|ps| - 1], before))
    || (last.line.Empty() && PaddedWith(ps, before))
  }

  lemma {:induction false} SameSlots(l: RawSourceLine, m: RawSourceLine, s: Side, slot: nat, n: nat)
    requires SameCells(l, m)
    ensures SlotSum(l, s, slot, n) == SlotSum(m, s, slot, n)
    ensures SlotQov(l, s, n) == SlotQov(m, s, n)
    ensures ActiveBlocks(l, s, n) == ActiveBlocks(m, s, n)
  {
    if 0 < n {
      SameSlots(l, m, s, slot, n - 1);
    }
  }

  lemma {:induction false} SameMeasures(l: RawSourceLine, m: RawSourceLine)
    requires SameCells(l, m)
    ensures forall q: Quantity :: Amount(l, q) == Amount(m, q)
    ensures forall s: Side :: LineQov(l, s) == LineQov(m, s) && ActiveCount(l, s) == ActiveCount(m, s)
  {
    forall q: Quantity ensures Amount(l, q) == Amount(m, q) {
      SameSlots(l, m, SideOf(q), SlotOf(q), BlockCount(l, SideOf(q)));
    }
    forall s: Side ensures LineQov(l, s) == LineQov(m, s) && ActiveCount(l, s) == ActiveCount(m, s) {
      SameSlots(l, m, s, 0, BlockCount(l, s));
    }
  }

  lemma {:induction false} EmptySlots(l: RawSourceLine, s: Side, slot: nat, n: nat)
    requires l.Empty()
    ensures SlotSum(l, s, slot, n) == 0.0 && SlotQov(l, s, n) == 1 && ActiveBlocks(l, s, n) == 0
  {
    if 0 < n {
      EmptySlots(l, s, slot, n - 1);
    }
  }

  lemma {:induction false} EmptyMeasures(l: RawSourceLine)
    requires l.Empty()
    ensures forall q: Quantity :: Amount(l, q) == 0.0
    ensures forall s: Side :: LineQov(l, s) == 1 && ActiveCount(l, s) == 0
  {
    forall q: Quantity ensures Amount(l, q) == 0.0 {
      EmptySlots(l, SideOf(q), SlotOf(q), BlockCount(l, SideOf(q)));
    }
    forall s: Side ensures LineQov(l, s) == 1 && ActiveCount(l, s) == 0 {
      EmptySlots(l, s, 0, BlockCount(l, s));
    }
  }

  // How a padded list ends: with the last piece of the bare list, or with a piece of padding.
  lemma {:induction false} PaddedEnd<K>(ps: seq<Piece<K>>, fs: seq<Piece<K>>) returns (kept: bool)
    requires PaddedWith(ps, fs) && fs != []
    ensures var before, last := fs[..|fs| - 1], fs[|fs| - 1];
            fs == before + [last]
            && if kept then ps != [] && ps == ps[..|ps| - 1] + [ps[|ps| - 1]] && ps[|ps| - 1].key == last.key
                            && SameCells(ps[|ps| - 1].line, last.line) && PaddedWith(ps[..|ps| - 1], before)
               else last.line.Empty() && PaddedWith(ps, before)
  {
    hide SameCells;
    kept := ps != [] && ps[|ps| - 1].key == fs[|fs| - 1].key && SameCells(ps[|ps| - 1].line, fs[|fs| - 1].line)
            && PaddedWith(ps[..|ps| - 1], fs[..|fs| - 1]);
  }

  lemma {:induction false} PaddedPush<K>(ps: seq<Piece<K>>, fs: seq<Piece<K>>, p: Piece<K>, f: Piece<K>)
    requires PaddedWith(ps, fs)
    ensures p.key == f.key && SameCells(p.line, f.line) ==> PaddedWith(ps + [p], fs + [f])
    ensures f.line.Empty() ==> PaddedWith(ps, fs + [f])
  {
    hide SameCells;
    assert (ps + [p])[..|ps|] == ps && (fs + [f])[..|fs|] == fs;
  }

  lemma {:induction false} PaddingChangesNothing<K>(ps: seq<Piece<K>>, fs: seq<Piece<K>>, key: K)
    requires PaddedWith(ps, fs)
    ensures forall q: Quantity :: AmountFor(fs, key, q) == AmountFor(ps, key, q)
    ensures forall s: Side :: QovFor(fs, key, s) == QovFor(ps, key, s) && CountFor(fs, key, s) == CountFor(ps, key, s)
  {
    if fs != [] {
      hide PaddedWith, SameCells, AmountFor, QovFor, CountFor, Amount, LineQov, ActiveCount;
      var n, m := |fs| - 1, |ps| - 1;
      var kept := PaddedEnd(ps, fs);
      ForSnoc(fs[..n], fs[n], key);
      if kept {
        PaddingChangesNothing(ps[..m], fs[..n], key);
        ForSnoc(ps[..m], ps[m], key);
        SameMeasures(ps[m].line, fs[n].line);
      } else {
        PaddingChangesNothing(ps, fs[..n], key);
        EmptyMeasures(fs[n].line);
        forall s: Side ensures QovFor(fs, key, s) == QovFor(ps, key, s) {
          QovLaws(QovFor(ps, key, s), 0, 0);
        }
      }
    }
  }
}
