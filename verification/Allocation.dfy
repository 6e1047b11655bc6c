/** Sharing the produced energy out: column picking, and the proportional allocation. */
module Allocation {
  import opened Rounding
  import opened Matrices

  // A column of `rows` picks with a 1 in row c.
  method MakePick(rows: nat, c: nat) returns (p: Matrix)
    requires c < rows
    ensures fresh(p) && fresh(p.elements) && p.Valid() && p.rows == rows && p.cols == 1
    ensures IsPick(p.elements[..], c) && p.elements.Length == rows
  {
    p := new Matrix.New(rows, 1);
    p.SetElm(c, 0, 1.0);
  }

  // The pre-allocated columns of the line, selected by multiplying with picks.
  method AllocDynamicV2(C: Matrix, P: Matrix) returns (alloc: Matrix, share: Matrix, prod: Matrix)
    requires C.Valid() && C.cols == 3 && P.Valid() && P.cols == 2
    ensures fresh({alloc, share, prod, alloc.elements, share.elements, prod.elements})
    ensures alloc != share && alloc != prod && share != prod
    ensures alloc.elements != share.elements && alloc.elements != prod.elements && share.elements != prod.elements
    ensures alloc.Valid() && alloc.cols == 1 && alloc.elements[..] == Column(C.elements[..], 3, 2, C.rows)
    ensures share.Valid() && share.cols == 1 && share.elements[..] == Column(C.elements[..], 3, 1, C.rows)
    ensures prod.Valid() && prod.cols == 1 && prod.elements[..] == Column(P.elements[..], 2, 1, P.rows)
  {
    hide Dot, ProductCells;
    var consPick := MakePick(3, 2);
    alloc := Multiply(C, consPick);
    PickSelectsColumn(C.elements[..], consPick.elements[..], 2, C.rows);
    consPick.SetElm(2, 0, 0.0);
    consPick.SetElm(1, 0, 1.0);
    share := Multiply(C, consPick);
    PickSelectsColumn(C.elements[..], consPick.elements[..], 1, C.rows);
    var prodPick := MakePick(2, 1);
    prod := Multiply(P, prodPick);
    PickSelectsColumn(P.elements[..], prodPick.elements[..], 1, P.rows);
  }

  function Min(a: real, b: real): real {
    if a <= b then a else b
  }

  // How much each unit on one side gets of the other side's sum.
  function Factor(mine: real, other: real): real {
    if 0.0 < other && 0.0 < mine then other / mine else 0.0
  }

  function Part(x: real, factor: real): real {
    if 0.0 < factor then x * factor else 0.0
  }

  // Each participant's proportional part, no more than its own reading.
  function Capped(xs: seq<real>, factor: real): (r: seq<real>)
    ensures |r| == |xs|
  {
    seq(|xs|, i requires 0 <= i < |xs| => Min(Part(xs[i], factor), xs[i]))
  }

  // Each participant's proportional part.
  function Parts(xs: seq<real>, factor: real): (r: seq<real>)
    ensures |r| == |xs| && forall i :: 0 <= i < |xs| ==> r[i] == Part(xs[i], factor)
  {
    seq(|xs|, i requires 0 <= i < |xs| => Part(xs[i], factor))
  }

  method SumOf(s: array<real>) returns (t: real)
    ensures t == Sum(s[..])
  {
    t := 0.0;
    for i := 0 to s.Length
      invariant t == Sum(s[..i])
    {
      assert s[..i + 1] == s[..i] + [s[i]];
      SumSnoc(s[..i], s[i]);
      t := t + s[i];
    }
    assert s[..s.Length] == s[..];
  }

  // The proportional allocation of one line.
  method AllocDynamic2(consumers: array<real>, producers: array<real>)
    returns (alloc: Matrix, share: Matrix, prod: Matrix)
    ensures fresh(alloc) && fresh(share) && fresh(prod)
    ensures alloc.elements[..] == Padded(Capped(consumers[..], Factor(Sum(consumers[..]), Sum(producers[..]))), 1)
    ensures prod.elements[..] == Padded(Capped(producers[..], Factor(Sum(producers[..]), Sum(consumers[..]))), 1)
    ensures share.elements.Length == alloc.elements.Length
    ensures share.elements[..consumers.Length] == Parts(consumers[..], Factor(Sum(consumers[..]), Sum(producers[..])))
  {
    var lenC := if consumers.Length < 1 then 1 else consumers.Length;
    var lenP := if producers.Length < 1 then 1 else producers.Length;
    alloc := new Matrix.New(lenC, 1);
    share := new Matrix.New(lenC, 1);
    prod := new Matrix.New(lenP, 1);
    var consumerSum := SumOf(consumers);
    var producerSum := SumOf(producers);
    var factor := 0.0;
    if 0.0 < producerSum && 0.0 < consumerSum {
      factor := producerSum / consumerSum;
    }
    FillConsumers(consumers, factor, alloc, share);
    var prodFactor := 0.0;
    if 0.0 < producerSum && 0.0 < consumerSum {
      prodFactor := consumerSum / producerSum;
    }
    FillProducers(producers, prodFactor, prod);
  }

  method FillConsumers(consumers: array<real>, factor: real, alloc: Matrix, share: Matrix)
    requires IsBlank(alloc, consumers.Length) && IsBlank(share, consumers.Length)
    requires alloc != share && alloc.elements != share.elements
    requires consumers != alloc.elements && consumers != share.elements
    modifies alloc, share, alloc.elements, share.elements
    ensures alloc.elements == old(alloc.elements) && share.elements == old(share.elements)
    ensures alloc.elements[..] == Padded(Capped(consumers[..], factor), 1)
    ensures forall k :: 0 <= k < consumers.Length ==> share.elements[k] == Part(consumers[k], factor)
  {
    hide Part;
    for i := 0 to consumers.Length
      invariant alloc.Valid() && alloc.rows == old(alloc.rows) && alloc.cols == 1
                && alloc.elements == old(alloc.elements)
      invariant share.Valid() && share.rows == old(share.rows) && share.cols == 1
                && share.elements == old(share.elements)
      invariant forall k :: 0 <= k < i ==> share.elements[k] == Part(consumers[k], factor)
      invariant forall k :: 0 <= k < i ==> alloc.elements[k] == Min(Part(consumers[k], factor), consumers[k])
      invariant forall k :: i <= k < alloc.elements.Length ==> alloc.elements[k] == 0.0
    {
      var green := Part(consumers[i], factor);
      share.SetElm(i, 0, green);
      alloc.SetElm(i, 0, Min(green, consumers[i]));
    }
  }

  method FillProducers(producers: array<real>, factor: real, prod: Matrix)
    requires IsBlank(prod, producers.Length) && producers != prod.elements
    requires 0.0 <= factor
    modifies prod, prod.elements
    ensures prod.elements == old(prod.elements)
    ensures prod.elements[..] == Padded(Capped(producers[..], factor), 1)
  {
    for i := 0 to producers.Length
      invariant prod.Valid() && prod.rows == old(prod.rows) && prod.cols == 1 && prod.elements == old(prod.elements)
      invariant forall k :: 0 <= k < i ==> prod.elements[k] == Min(Part(producers[k], factor), producers[k])
      invariant forall k :: i <= k < prod.elements.Length ==> prod.elements[k] == 0.0
    {
      var green := producers[i] * factor;
      prod.SetElm(i, 0, Min(green, producers[i]));
    }
  }

  // A zero column with a row for each reading, and at least one row.
  ghost predicate IsBlank(m: Matrix, n: nat)
    reads m, m.elements
  {
    && m.Valid() && m.cols == 1 && m.rows == m.elements.Length == (if n < 1 then 1 else n)
    && forall k :: 0 <= k < m.elements.Length ==> m.elements[k] == 0.0
  }

  ghost predicate NonNegative(xs: seq<real>) {
    forall i :: 0 <= i < |xs| ==> 0.0 <= xs[i]
  }

  lemma {:induction false} SumNonNegative(xs: seq<real>)
    requires NonNegative(xs)
    ensures 0.0 <= Sum(xs)
    ensures Sum(xs) == 0.0 ==> forall i :: 0 <= i < |xs| ==> xs[i] == 0.0
  {
    if xs != [] {
      var n := |xs| - 1;
      SumNonNegative(xs[..n]);
      assert 0.0 <= xs[n];
      assert forall i :: 0 <= i < n ==> xs[..n][i] == xs[i];
    }
  }

  lemma {:induction false} SumScaled(xs: seq<real>, ys: seq<real>, f: real)
    requires |ys| == |xs| && forall i :: 0 <= i < |xs| ==> ys[i] == Scaled(xs[i], f)
    ensures Sum(ys) == Scaled(Sum(xs), f)
  {
    if xs != [] {
      var n := |xs| - 1;
      SumScaled(xs[..n], ys[..n], f);
      assert (Sum(xs[..n]) + xs[n]) * f == Sum(xs[..n]) * f + xs[n] * f;
    } else {
      assert 0.0 * f == 0.0;
    }
  }

  lemma {:induction false} MulNonNegative(a: real, b: real)
    requires 0.0 <= a && 0.0 <= b
    ensures 0.0 <= a * b
  {
  }

  lemma {:induction false} MulPositive(a: real, b: real)
    requires 0.0 < a && 0.0 < b
    ensures 0.0 < a * b
  {
  }

  // x times g, kept apart from the arithmetic of the solver.
  function Scaled(x: real, g: real): real {
    x * g
  }

  lemma {:induction false} ScaledBounds(x: real, g: real)
    requires 0.0 <= x && 0.0 <= g
    ensures 0.0 <= Scaled(x, g)
    ensures g <= 1.0 ==> Scaled(x, g) <= x
    ensures 1.0 <= g ==> x <= Scaled(x, g)
    ensures Scaled(x, 1.0) == x && Scaled(x, 0.0) == 0.0
  {
    MulNonNegative(x, g);
    if g <= 1.0 {
      MulNonNegative(x, 1.0 - g);
      assert x * (1.0 - g) == x - x * g;
    } else {
      MulNonNegative(x, g - 1.0);
      assert x * (g - 1.0) == x * g - x;
    }
  }

  lemma {:induction false} ScaledSwap(x: real, y: real, g: real)
    ensures Scaled(x, g) * y == Scaled(y, g) * x
  {
    assert (x * g) * y == (y * g) * x;
  }

  lemma {:induction false} CappedCell(x: real, f: real)
    requires 0.0 <= x && 0.0 <= f
    ensures Min(Part(x, f), x) == Scaled(x, if f < 1.0 then f else 1.0)
  {
    ScaledBounds(x, f);
  }

  lemma {:induction false} NegativeProduct(x: real, f: real)
    requires 0.0 < x
    ensures f < 0.0 ==> x * f < 0.0
  {
    if f < 0.0 {
      MulPositive(x, -f);
      assert x * -f == -(x * f);
    }
  }

  lemma {:induction false} QuotientBack(mine: real, other: real)
    requires 0.0 < mine && 0.0 <= other
    ensures Scaled(mine, other / mine) == other
    ensures 0.0 <= other / mine
    ensures other / mine < 1.0 <==> other < mine
  {
    var f := other / mine;
    assert mine * f == other;
    NegativeProduct(mine, f);
    if f < 1.0 {
      MulPositive(mine, 1.0 - f);
      assert mine * (1.0 - f) == mine - mine * f;
    } else {
      ScaledBounds(mine, f);
    }
  }

  // The share of each reading that is allocated.
  function Rate(mine: real, other: real): real {
    var f := Factor(mine, other);
    if f < 1.0 then f else 1.0
  }

  lemma {:induction false} RateBalances(mine: real, other: real)
    requires 0.0 <= mine && 0.0 <= other
    ensures 0.0 <= Factor(mine, other) && 0.0 <= Rate(mine, other) <= 1.0
    ensures Scaled(mine, Rate(mine, other)) == Min(mine, other)
  {
    ScaledBounds(mine, 1.0);
    if 0.0 < other && 0.0 < mine {
      QuotientBack(mine, other);
    }
  }

  // Either everybody keeps the whole reading, or everybody the same fraction of it.
  lemma {:induction false} CappedIsScaled(xs: seq<real>, mine: real, other: real)
    requires NonNegative(xs) && 0.0 <= mine && 0.0 <= other
    ensures forall i :: 0 <= i < |xs| ==> Capped(xs, Factor(mine, other))[i] == Scaled(xs[i], Rate(mine, other))
  {
    RateBalances(mine, other);
    forall i | 0 <= i < |xs| ensures Capped(xs, Factor(mine, other))[i] == Scaled(xs[i], Rate(mine, other)) {
      CappedCell(xs[i], Factor(mine, other));
    }
  }

  // The allocated parts add up to what there is on the scarcer side; nobody gets more than its
  // reading.
  lemma {:induction false} AllocationBalances(xs: seq<real>, other: real)
    requires NonNegative(xs) && 0.0 <= other
    ensures var r := Capped(xs, Factor(Sum(xs), other));
            && Sum(r) == Min(Sum(xs), other)
            && forall i :: 0 <= i < |xs| ==> 0.0 <= r[i] <= xs[i]
  {
    hide Scaled, Factor, Rate, Capped;
    SumNonNegative(xs);
    var g := Rate(Sum(xs), other);
    var r := Capped(xs, Factor(Sum(xs), other));
    RateBalances(Sum(xs), other);
    CappedIsScaled(xs, Sum(xs), other);
    SumScaled(xs, r, g);
    forall i | 0 <= i < |xs| ensures 0.0 <= r[i] <= xs[i] {
      ScaledBounds(xs[i], g);
    }
  }

  // Allocated parts are in the proportion of the readings.
  lemma {:induction false} AllocationIsProportional(xs: seq<real>, other: real, i: nat, j: nat)
    requires NonNegative(xs) && 0.0 <= other && i < |xs| && j < |xs|
    ensures var r := Capped(xs, Factor(Sum(xs), other)); r[i] * xs[j] == r[j] * xs[i]
  {
    hide Factor, Rate, Capped, Scaled;
    SumNonNegative(xs);
    CappedIsScaled(xs, Sum(xs), other);
    ScaledSwap(xs[i], xs[j], Rate(Sum(xs), other));
  }

  // Uncapped parts use up the other side's total exactly; there are none when one of the totals is
  // zero.
  lemma {:induction false} PartsBalance(xs: seq<real>, other: real)
    requires NonNegative(xs) && 0.0 <= other
    ensures Sum(Parts(xs, Factor(Sum(xs), other))) == if 0.0 < Sum(xs) then other else 0.0
  {
    hide Factor, Scaled, Part;
    SumNonNegative(xs);
    var f := Factor(Sum(xs), other);
    FactorIsQuotient(Sum(xs), other);
    PartsAreScaled(xs, f);
    SumScaled(xs, Parts(xs, f), f);
  }

  lemma {:induction false} PartsAreScaled(xs: seq<real>, f: real)
    requires 0.0 <= f
    ensures forall i :: 0 <= i < |xs| ==> Parts(xs, f)[i] == Scaled(xs[i], f)
  {
    hide Scaled, Part;
    forall i | 0 <= i < |xs| ensures Parts(xs, f)[i] == Scaled(xs[i], f) {
      PartIsScaled(xs[i], f);
    }
  }

  // They are in the proportion of the readings.
  lemma {:induction false} PartsAreProportional(xs: seq<real>, other: real, i: nat, j: nat)
    requires NonNegative(xs) && 0.0 <= other && i < |xs| && j < |xs|
    ensures var r := Parts(xs, Factor(Sum(xs), other)); r[i] * xs[j] == r[j] * xs[i]
  {
    hide Factor, Parts, Scaled;
    SumNonNegative(xs);
    FactorIsQuotient(Sum(xs), other);
    PartsAreScaled(xs, Factor(Sum(xs), other));
    ScaledSwap(xs[i], xs[j], Factor(Sum(xs), other));
  }

  lemma {:induction false} FactorIsQuotient(mine: real, other: real)
    requires 0.0 <= mine && 0.0 <= other
    ensures 0.0 <= Factor(mine, other)
    ensures Scaled(mine, Factor(mine, other)) == if 0.0 < mine then other else 0.0
  {
    ScaledBounds(mine, 0.0);
    if 0.0 < mine {
      QuotientBack(mine, other);
    }
  }

  lemma {:induction false} PartIsScaled(x: real, f: real)
    requires 0.0 <= f
    ensures Part(x, f) == Scaled(x, f)
  {
  }

  // What AllocDynamic2 gives out on the consumer side is what it takes on the producer side.
  lemma {:induction false} BothSidesBalance(consumers: seq<real>, producers: seq<real>)
    requires NonNegative(consumers) && NonNegative(producers)
    ensures var a, b := Sum(consumers), Sum(producers);
            && Sum(Padded(Capped(consumers, Factor(a, b)), 1)) == Min(a, b)
            && Sum(Padded(Capped(producers, Factor(b, a)), 1)) == Min(a, b)
  {
    hide Factor, Capped;
    SumNonNegative(consumers);
    SumNonNegative(producers);
    AllocationBalances(consumers, Sum(producers));
    AllocationBalances(producers, Sum(consumers));
    SumPadded(Capped(consumers, Factor(Sum(consumers), Sum(producers))), 1);
    SumPadded(Capped(producers, Factor(Sum(producers), Sum(consumers))), 1);
  }
}
