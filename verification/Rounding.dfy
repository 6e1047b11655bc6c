/**
 Six-decimal rounding and exact sums. Energies are exact reals counted in millionths of a
 kilowatt-hour, so rounding to six decimals is rounding to a whole number; it is the only
 rounding in the model.
 */
module Rounding {
  const HALF := 0.5

  // v has at most six decimals.
  ghost predicate Micro(v: real) {
    v.Floor as real == v
  }

  lemma {:induction false} WholeIsMicro(n: int)
    ensures (n as real).Floor == n && Micro(n as real)
  {
  }

  // Half away from zero, as the Go library rounds.
  function RoundUnits(v: real): (n: int)
    ensures -HALF <= n as real - v <= HALF
    ensures n as real - v == HALF ==> 0.0 <= v
    ensures n as real - v == -HALF ==> v < 0.0
  {
    if 0.0 <= v then (v + HALF).Floor else -(HALF - v).Floor
  }

  function RoundFixed(v: real): (r: real)
    ensures Micro(r)
    ensures -HALF <= r - v <= HALF
    ensures r - v == HALF ==> 0.0 <= v
    ensures r - v == -HALF ==> v < 0.0
  {
    WholeIsMicro(RoundUnits(v));
    RoundUnits(v) as real
  }

  // Two six-decimal values that are closer than 10^-6 are the same.
  lemma {:induction false} MicroGap(a: real, b: real)
    requires Micro(a) && Micro(b)
    requires -1.0 < a - b < 1.0
    ensures a == b
  {
    assert -1.0 < (a.Floor - b.Floor) as real < 1.0;
  }

  // The contract of RoundFixed leaves no choice: it is the only nearest six-decimal value.
  lemma {:induction false} RoundIsDetermined(v: real, r: real)
    requires Micro(r)
    requires -HALF <= r - v <= HALF
    requires r - v == HALF ==> 0.0 <= v
    requires r - v == -HALF ==> v < 0.0
    ensures r == RoundFixed(v)
  {
    MicroGap(r, RoundFixed(v));
  }

  lemma {:induction false} RoundKeepsMicro(v: real)
    requires Micro(v)
    ensures RoundFixed(v) == v
  {
    RoundIsDetermined(v, v);
  }

  lemma {:induction false} MicroAdd(a: real, b: real)
    requires Micro(a) && Micro(b)
    ensures Micro(a + b) && Micro(a - b)
  {
    WholeIsMicro(a.Floor + b.Floor);
    WholeIsMicro(a.Floor - b.Floor);
  }

  function Sum(xs: seq<real>): real {
    if xs == [] then 0.0 else Sum(xs[..|xs| - 1]) + xs[|xs| - 1]
  }

  lemma {:induction false} SumSnoc(xs: seq<real>, x: real)
    ensures Sum(xs + [x]) == Sum(xs) + x
  {
    assert (xs + [x])[..|xs|] == xs;
  }

  lemma {:induction false} SumUpdate(xs: seq<real>, k: nat, x: real)
    requires k < |xs|
    ensures Sum(xs[k := x]) == Sum(xs) + x - xs[k]
  {
    var n := |xs| - 1;
    if k == n {
      assert xs[k := x][..n] == xs[..n];
    } else {
      assert xs[k := x][..n] == xs[..n][k := x];
      SumUpdate(xs[..n], k, x);
    }
  }

  lemma {:induction false} SumMicro(xs: seq<real>)
    requires forall i :: 0 <= i < |xs| ==> Micro(xs[i])
    ensures Micro(Sum(xs))
  {
    if xs != [] {
      SumMicro(xs[..|xs| - 1]);
      MicroAdd(Sum(xs[..|xs| - 1]), xs[|xs| - 1]);
    }
  }

  // A slice padded with zeros on the right.
  function Padded(xs: seq<real>, n: nat): (r: seq<real>)
    ensures |r| == if |xs| < n then n else |xs|
    ensures forall i :: 0 <= i < |xs| ==> r[i] == xs[i]
    ensures forall i :: |xs| <= i < |r| ==> r[i] == 0.0
  {
    if |xs| < n then xs + seq(n - |xs|, _ => 0.0) else xs
  }

  lemma {:induction false} SumPadded(xs: seq<real>, n: nat)
    ensures Sum(Padded(xs, n)) == Sum(xs)
    decreases n - |xs|
  {
    if |xs| < n {
      SumSnoc(xs, 0.0);
      SumPadded(xs + [0.0], n);
      assert Padded(xs, n) == Padded(xs + [0.0], n);
    }
  }

  // x lies within n half-units of y.
  predicate Near(x: real, y: real, n: nat) {
    -(n as real) * HALF <= x - y <= n as real * HALF
  }

  lemma {:induction false} NearAdd(x: real, y: real, n: nat, u: real, v: real)
    requires Near(x, y, n) && Near(u, v, 1)
    ensures Near(x + u, y + v, n + 1)
  {
  }

  ghost predicate AllMicro(a: seq<real>) {
    forall i :: 0 <= i < |a| ==> Micro(a[i])
  }

  function Max(a: nat, b: nat): nat {
    if a < b then b else a
  }
}
