/**
 The wide per-timestamp line. Each consumer owns three cells, each producer two; every
 cell has a value and a quality (QoV).
 */
module RawLine {
  import opened CounterPoints
  import opened Rounding

  // Which half of the line: consumer cells or producer cells.
  type Side = Direction

  // Blocks per side of a line of the loaded topology.
  datatype Shape = Shape(cons: nat, prod: nat)

  function Stride(s: Side): (n: nat)
    ensures n == 3 || n == 2
  {
    if s == Consumer then 3 else 2
  }

  function Blocks(shape: Shape, s: Side): nat {
    if s == Consumer then shape.cons else shape.prod
  }

  function Width(shape: Shape, s: Side): nat {
    if s == Consumer then shape.cons * 3 else shape.prod * 2
  }

  // The position of a slot of the b-th block in its half of the line.
  function BlockCell(s: Side, b: nat, slot: nat): nat {
    if s == Consumer then b * 3 + slot else b * 2 + slot
  }

  datatype RawSourceLine = RawSourceLine(id: string, consumers: seq<real>, producers: seq<real>,
                                         qovConsumers: seq<int>, qovProducers: seq<int>)
  {
    function Cells(s: Side): seq<real> { if s == Consumer then consumers else producers }

    function Qovs(s: Side): seq<int> { if s == Consumer then qovConsumers else qovProducers }

    // The value of a cell, 0 past the end.
    function Cell(s: Side, i: nat): real { if i < |Cells(s)| then Cells(s)[i] else 0.0 }

    // The quality of a cell, 1 past the end.
    function Qov(s: Side, i: nat): int { if i < |Qovs(s)| then Qovs(s)[i] else 1 }

    ghost predicate Sized(shape: Shape) {
      && |consumers| == |qovConsumers| == shape.cons * 3
      && |producers| == |qovProducers| == shape.prod * 2
    }

    // A line that adds nothing to any sum and nothing to any quality.
    ghost predicate Empty() {
      && (forall s: Side, i: nat {:trigger Cell(s, i)} :: Cell(s, i) == 0.0)
      && (forall s: Side, i: nat {:trigger Qov(s, i)} :: Qov(s, i) == 1)
    }
  }

  // makeRawSourceLine followed by initIntSlice(1, ..) on both quality slices.
  function MakeLine(id: string, shape: Shape): (l: RawSourceLine)
    ensures l.Sized(shape) && l.Empty() && l.id == id
  {
    RawSourceLine(id, seq(Width(shape, Consumer), _ => 0.0), seq(Width(shape, Producer), _ => 0.0),
                  seq(Width(shape, Consumer), _ => 1), seq(Width(shape, Producer), _ => 1))
  }

  function Resize<T>(xs: seq<T>, n: nat, zero: T): (r: seq<T>)
    ensures |r| == n
    ensures forall i :: 0 <= i < n ==> r[i] == if i < |xs| then xs[i] else zero
  {
    if n <= |xs| then xs[..n] else xs + seq(n - |xs|, _ => zero)
  }

  // Reshapes to the topology; missing values and missing qualities become 0.
  function DeepCopy(l: RawSourceLine, shape: Shape): (r: RawSourceLine)
    ensures r.id == l.id && r.Sized(shape)
    ensures l.Sized(shape) ==> r == l
  {
    RawSourceLine(l.id, Resize(l.consumers, Width(shape, Consumer), 0.0),
                  Resize(l.producers, Width(shape, Producer), 0.0),
                  Resize(l.qovConsumers, Width(shape, Consumer), 0), Resize(l.qovProducers, Width(shape, Producer), 0))
  }

  function CalcQov(current: int, target: int): int {
    if current != 1 then
      if target > current && target != 1 then target else current
    else target
  }

  // The order CalcQov joins in: 1 ("substituted") is below every other quality.
  predicate QovBelow(a: int, b: int) {
    a == 1 || (b != 1 && a <= b)
  }

  // CalcQov is the least upper bound of that total order on all integers.
  lemma {:induction false} QovIsJoin(a: int, b: int, c: int)
    ensures QovBelow(a, CalcQov(a, b)) && QovBelow(b, CalcQov(a, b))
    ensures QovBelow(a, c) && QovBelow(b, c) ==> QovBelow(CalcQov(a, b), c)
    ensures QovBelow(a, b) || QovBelow(b, a)
    ensures QovBelow(a, b) && QovBelow(b, a) ==> a == b
  {
  }

  // Hence it is commutative, associative and idempotent, and 1 is its identity.
  lemma {:induction false} QovLaws(a: int, b: int, c: int)
    ensures CalcQov(a, b) == CalcQov(b, a)
    ensures CalcQov(CalcQov(a, b), c) == CalcQov(a, CalcQov(b, c))
    ensures CalcQov(a, a) == a && CalcQov(1, a) == a && CalcQov(a, 1) == a
  {
  }

  // What it keeps: the larger quality, 1 giving way to any other.
  lemma {:induction false} QovByValue(a: int, b: int)
    ensures a == 1 ==> CalcQov(a, b) == b
    ensures b == 1 ==> CalcQov(a, b) == a
    ensures a != 1 && b != 1 ==> CalcQov(a, b) == if a < b then b else a
  {
  }

  function JoinAll(qs: seq<int>): int {
    if qs == [] then 1 else CalcQov(JoinAll(qs[..|qs| - 1]), qs[|qs| - 1])
  }

  // A join over a whole list depends only on which qualities occur in it.
  lemma {:induction false} JoinIsLub(qs: seq<int>, c: int)
    ensures QovBelow(JoinAll(qs), c) <==> forall i :: 0 <= i < |qs| ==> QovBelow(qs[i], c)
  {
    if qs != [] {
      var n := |qs| - 1;
      JoinIsLub(qs[..n], c);
      QovIsJoin(JoinAll(qs[..n]), qs[n], c);
      assert forall i :: 0 <= i < n ==> qs[..n][i] == qs[i];
    }
  }

  // The joined quality is 1 when nothing else occurs, and else the largest that is not 1.
  lemma {:induction false} JoinIsLargest(qs: seq<int>)
    ensures JoinAll(qs) == 1 <==> forall i :: 0 <= i < |qs| ==> qs[i] == 1
    ensures JoinAll(qs) != 1 ==> JoinAll(qs) in qs
    ensures JoinAll(qs) != 1 ==> forall i :: 0 <= i < |qs| && qs[i] != 1 ==> qs[i] <= JoinAll(qs)
  {
    if qs != [] {
      var n := |qs| - 1;
      JoinIsLargest(qs[..n]);
      assert forall i :: 0 <= i < n ==> qs[..n][i] == qs[i];
      QovByValue(JoinAll(qs[..n]), qs[n]);
    }
  }

  lemma {:induction false} JoinIsOrderFree(qs: seq<int>, rs: seq<int>)
    requires forall q :: q in qs <==> q in rs
    ensures JoinAll(qs) == JoinAll(rs)
  {
    var a, b := JoinAll(qs), JoinAll(rs);
    forall i | 0 <= i < |qs| ensures QovBelow(qs[i], b) {
      assert qs[i] in qs;
      JoinIsLub(rs, b);
    }
    JoinIsLub(qs, b);
    forall i | 0 <= i < |rs| ensures QovBelow(rs[i], a) {
      assert rs[i] in rs;
      JoinIsLub(qs, a);
    }
    JoinIsLub(rs, a);
    QovIsJoin(a, b, 0);
  }

  // A line with its moment: what a report function works with after reading the row id.
  datatype Entry = Entry(ts: int, line: RawSourceLine)

  ghost predicate AllSized(es: seq<Entry>, shape: Shape) {
    forall i :: 0 <= i < |es| ==> es[i].line.Sized(shape)
  }

  // The sum of one cell, and the join of its qualities, over a list of lines.
  function ColumnSum(es: seq<Entry>, s: Side, i: nat): real {
    if es == [] then 0.0 else ColumnSum(es[..|es| - 1], s, i) + es[|es| - 1].line.Cell(s, i)
  }

  function ColumnQov(es: seq<Entry>, s: Side, i: nat): int {
    if es == [] then 1 else CalcQov(ColumnQov(es[..|es| - 1], s, i), es[|es| - 1].line.Qov(s, i))
  }

  // The line that holds, cell by cell, the sums and joined qualities of a list of lines.
  ghost predicate IsTotal(l: RawSourceLine, shape: Shape, es: seq<Entry>) {
    && l.Sized(shape)
    && (forall s: Side, i: nat {:trigger l.Cell(s, i)} :: i < Width(shape, s) ==> l.Cell(s, i) == ColumnSum(es, s, i))
    && (forall s: Side, i: nat {:trigger l.Qov(s, i)} :: i < Width(shape, s) ==> l.Qov(s, i) == ColumnQov(es, s, i))
  }
}
