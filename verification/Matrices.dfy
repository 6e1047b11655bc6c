/**
 The row-major matrix of the calculation engine: a growable flat buffer that may be shared
 with the slice it was made from. Its methods are specified by functions on the buffer.
 */
module Matrices {
  import opened Rounding

  // The flat position of a cell.
  function Flat(i: nat, j: nat, cols: nat): nat {
    i * cols + j
  }

  lemma {:induction false} FlatSteps(i: nat, j: nat, rows: nat, cols: nat)
    requires i < rows && j < cols
    ensures Flat(i, j, cols) < Flat(rows, 0, cols)
    ensures Flat(i, j + 1, cols) == Flat(i, j, cols) + 1
    ensures Flat(i + 1, 0, cols) == Flat(i, cols, cols)
    ensures Flat(0, 0, cols) == 0
  {
    MulStep(i, rows, cols);
    MulStep(i, i + 1, cols);
  }

  lemma {:induction false} CellOf(i: nat, j: nat, cols: nat)
    requires j < cols
    ensures (i * cols + j) / cols == i && (i * cols + j) % cols == j
  {
    var n := i * cols + j;
    var q, r := n / cols, n % cols;
    assert n == q * cols + r;
    if q < i {
      MulStep(q, i, cols);
    } else if i < q {
      MulStep(i, q, cols);
    }
  }

  lemma {:induction false} MulAtLeast(k: nat, c: nat)
    requires 0 < k
    ensures k * c >= c
  {
    if 1 < k {
      MulAtLeast(k - 1, c);
      assert k * c == (k - 1) * c + c;
    }
  }

  lemma {:induction false} MulStep(a: nat, b: nat, c: nat)
    requires a < b
    ensures a * c + c <= b * c
  {
    assert (b - a) * c >= c by {
      MulAtLeast(b - a, c);
    }
    assert b * c == a * c + (b - a) * c;
  }

  // Cell-wise sum; the shorter one counts as padded with zeros.
  function SumCells(a: seq<real>, b: seq<real>): (r: seq<real>)
    ensures |r| == Max(|a|, |b|)
    ensures forall k :: 0 <= k < |r| ==> r[k] == At(a, k) + At(b, k)
  {
    seq(Max(|a|, |b|), k requires 0 <= k < Max(|a|, |b|) => At(a, k) + At(b, k))
  }

  // A cell, 0 past the end.
  function At(a: seq<real>, k: nat): real {
    if k < |a| then a[k] else 0.0
  }

  function RoundCells(a: seq<real>): (r: seq<real>)
    ensures |r| == |a|
    ensures forall k :: 0 <= k < |a| ==> r[k] == RoundFixed(a[k])
  {
    seq(|a|, k requires 0 <= k < |a| => RoundFixed(a[k]))
  }

  // Row i of a (with n columns) times column j of b (with m columns), over the first k terms.
  function Dot(a: seq<real>, n: nat, b: seq<real>, m: nat, i: nat, j: nat, k: nat): real {
    if k == 0 then 0.0
    else Dot(a, n, b, m, i, j, k - 1) + At(a, Flat(i, k - 1, n)) * At(b, Flat(k - 1, j, m))
  }

  class Matrix {
    var rows: nat
    var cols: nat
    var step: nat
    var elements: array<real>

    ghost predicate Valid()
      reads this
    {
      0 < cols == step && elements.Length == Flat(rows, 0, cols)
    }

    // Wraps the slice without copying it; a short slice is copied into a padded buffer.
    constructor Make(els: array<real>, rows: nat, cols: nat)
      requires 0 < cols && els.Length <= rows * cols
      ensures Valid() && this.rows == rows && this.cols == cols
      ensures elements == els || fresh(elements)
      ensures els.Length == rows * cols ==> elements == els
      ensures elements[..] == Padded(els[..], rows * cols)
    {
      this.rows, this.cols, this.step, elements := rows, cols, cols, els;
      new;
      if 0 < rows {
        MulStep(0, rows, cols);
        MulStep(rows - 1, rows, cols);
        CellOf(rows - 1, cols - 1, cols);
        assert (rows - 1) * cols + cols - 1 == rows * cols - 1;
        CellOf(rows, 0, cols);
        EnsureSize(rows * cols - 1);
      }
    }

    constructor New(rows: nat, cols: nat)
      requires 0 < cols
      ensures Valid() && this.rows == rows && this.cols == cols && fresh(elements)
      ensures forall k :: 0 <= k < elements.Length ==> elements[k] == 0.0
    {
      this.rows, this.cols, this.step := rows, cols, cols;
      elements := new real[rows * cols](_ => 0.0);
    }

    // Grows the buffer to whole rows when idx is past its end.
    method EnsureSize(idx: nat)
      requires 0 < step
      modifies this
      ensures cols == old(cols) && step == old(step)
      ensures idx < old(elements.Length) ==> rows == old(rows) && elements == old(elements)
      ensures old(elements.Length) <= idx ==>
                && fresh(elements) && elements.Length == idx - idx % step + step
                && rows == elements.Length / step
                && elements[..] == Padded(old(elements[..]), elements.Length)
    {
      if elements.Length <= idx {
        var newSize := idx - idx % step + step;
        var els := elements;
        var t := new real[newSize](k requires 0 <= k reads els => if k < els.Length then els[k] else 0.0);
        elements := t;
        rows := newSize / step;
        assert t[..] == Padded(old(elements[..]), newSize);
      }
    }

    function GetElm(row: nat, col: nat): real
      requires Valid() && row < rows && col < cols
      reads this, elements
    {
      FlatSteps(row, col, rows, cols);
      elements[row * step + col]
    }

    method SetElm(row: nat, col: nat, v: real)
      requires Valid() && row < rows && col < cols
      modifies this, elements
      ensures Flat(row, col, cols) < elements.Length
      ensures Valid() && rows == old(rows) && cols == old(cols) && elements == old(elements)
      ensures elements[..] == old(elements[..])[Flat(row, col, cols) := v]
    {
      FlatSteps(row, col, rows, cols);
      var idx := row * step + col;
      EnsureSize(idx);
      elements[idx] := v;
    }

    // The first n cells of a are done, the others are still those of a0.
    static ghost predicate DoneUpTo(a: seq<real>, a0: seq<real>, done: seq<real>, n: nat) {
      && |a| == |done|
      && forall k {:trigger a[k]} :: 0 <= k < |a| ==> a[k] == if k < n then done[k] else At(a0, k)
    }

    // Accumulates B, padding the shorter of the two; the buffer of B is never written to.
    method Add(B: Matrix) returns (ok: bool)
      requires Valid() && B.Valid() && B != this && B.elements != elements
      modifies this, elements, B
      ensures ok <==> cols == B.cols
      ensures !ok ==> unchanged(this) && unchanged(elements) && unchanged(B)
      ensures ok ==> Valid() && B.Valid() && rows == Max(old(rows), old(B.rows))
      ensures ok ==> elements[..] == SumCells(old(elements[..]), old(B.elements[..]))
      ensures ok ==> B.elements[..] == Padded(old(B.elements[..]), elements.Length)
      ensures cols == old(cols) && B.cols == old(B.cols)
      ensures elements == old(elements) || fresh(elements)
      ensures B.elements == old(B.elements) || fresh(B.elements)
      ensures elements != B.elements
    {
      ghost var a0, b0 := elements[..], B.elements[..];
      if cols != B.cols || rows != B.rows {
        if step != B.step {
          return false;
        }
        PadBoth(B, Max(rows, B.rows));
      }
      PaddedLengths(a0, b0, old(rows), old(B.rows), cols);
      AddSameSize(B, a0, b0);
      return true;
    }

    method PadBoth(B: Matrix, maxRow: nat)
      requires Valid() && B.Valid() && B != this && cols == B.cols
      requires rows <= maxRow && B.rows <= maxRow
      modifies this, B
      ensures Valid() && B.Valid() && rows == maxRow == B.rows && cols == old(cols) == B.cols
      ensures fresh(elements) && fresh(B.elements) && elements != B.elements
      ensures elements[..] == Padded(old(elements[..]), maxRow * cols)
      ensures B.elements[..] == Padded(old(B.elements[..]), maxRow * cols)
    {
      var tB := CopyInto(B.elements, maxRow * cols);
      var tA := CopyInto(elements, maxRow * cols);
      if rows < maxRow {
        MulStep(rows, maxRow, cols);
      }
      if B.rows < maxRow {
        MulStep(B.rows, maxRow, cols);
      }
      B.elements, elements := tB, tA;
      B.rows, rows := maxRow, maxRow;
    }

    method AddSameSize(B: Matrix, ghost a0: seq<real>, ghost b0: seq<real>)
      requires Valid() && B.Valid() && B != this && B.elements != elements && cols == B.cols && rows == B.rows
      requires DoneUpTo(elements[..], a0, SumCells(a0, b0), 0)
      requires forall k :: 0 <= k < B.elements.Length ==> B.elements[k] == At(b0, k)
      modifies this, elements
      ensures Valid() && rows == old(rows) && cols == old(cols) && elements == old(elements)
      ensures elements[..] == SumCells(a0, b0)
    {
      hide At;
      if 0 < rows {
        FlatSteps(0, 0, rows, cols);
      }
      hide Flat;
      for i := 0 to rows
        invariant Valid() && rows == old(rows) && cols == old(cols) && elements == old(elements)
        invariant DoneUpTo(elements[..], a0, SumCells(a0, b0), Flat(i, 0, cols))
      {
        for j := 0 to cols
          invariant Valid() && rows == old(rows) && cols == old(cols) && elements == old(elements)
          invariant DoneUpTo(elements[..], a0, SumCells(a0, b0), Flat(i, j, cols))
        {
          FlatSteps(i, j, rows, cols);
          SetElm(i, j, GetElm(i, j) + B.GetElm(i, j));
        }
        FlatSteps(i, 0, rows, cols);
      }
    }

    // Rounds every cell in place.
    method RoundToFixed()
      requires Valid()
      modifies this, elements
      ensures Valid() && rows == old(rows) && cols == old(cols) && elements == old(elements)
      ensures elements[..] == RoundCells(old(elements[..]))
    {
      hide RoundFixed, RoundUnits;
      ghost var a0 := elements[..];
      if 0 < rows {
        FlatSteps(0, 0, rows, cols);
      }
      hide Flat;
      for i := 0 to rows
        invariant Valid() && rows == old(rows) && cols == old(cols) && elements == old(elements)
        invariant DoneUpTo(elements[..], a0, RoundCells(a0), Flat(i, 0, cols))
      {
        for j := 0 to cols
          invariant Valid() && rows == old(rows) && cols == old(cols) && elements == old(elements)
          invariant DoneUpTo(elements[..], a0, RoundCells(a0), Flat(i, j, cols))
        {
          FlatSteps(i, j, rows, cols);
          SetElm(i, j, RoundFixed(GetElm(i, j)));
        }
        FlatSteps(i, 0, rows, cols);
      }
    }
  }

  lemma {:induction false} PaddedLengths(a: seq<real>, b: seq<real>, ra: nat, rb: nat, cols: nat)
    requires |a| == ra * cols && |b| == rb * cols
    ensures Max(|a|, |b|) == Max(ra, rb) * cols
  {
    if ra < rb {
      MulStep(ra, rb, cols);
    } else if rb < ra {
      MulStep(rb, ra, cols);
    }
  }

  // A fresh buffer of n cells that starts with the cells of els.
  method CopyInto(els: array<real>, n: nat) returns (t: array<real>)
    requires els.Length <= n
    ensures fresh(t) && t[..] == Padded(els[..], n)
  {
    t := new real[n](k requires 0 <= k reads els => if k < els.Length then els[k] else 0.0);
  }

  // The product of an n-column and an m-column buffer, of which `size` cells are wanted.
  function ProductCells(a: seq<real>, n: nat, b: seq<real>, m: nat, size: nat): (r: seq<real>)
    requires 0 < m
    ensures |r| == size
  {
    seq(size, q requires 0 <= q < size => Dot(a, n, b, m, q / m, q % m, n))
  }

  lemma {:induction false} ProductAt(a: seq<real>, n: nat, b: seq<real>, m: nat, size: nat, i: nat, j: nat)
    requires j < m && Flat(i, j, m) < size
    ensures ProductCells(a, n, b, m, size)[Flat(i, j, m)] == Dot(a, n, b, m, i, j, n)
  {
    CellOf(i, j, m);
  }

  method Multiply(A: Matrix, B: Matrix) returns (r: Matrix)
    requires A.Valid() && B.Valid() && A.cols == B.rows
    ensures fresh(r) && fresh(r.elements) && r.Valid() && r.rows == A.rows && r.cols == B.cols
    ensures r.elements[..] == ProductCells(A.elements[..], A.cols, B.elements[..], B.cols, Flat(A.rows, 0, B.cols))
  {
    r := new Matrix.New(A.rows, B.cols);
    ghost var z0 := r.elements[..];
    ghost var want := ProductCells(A.elements[..], A.cols, B.elements[..], B.cols, Flat(A.rows, 0, B.cols));
    if 0 < A.rows {
      FlatSteps(0, 0, A.rows, B.cols);
    }
    hide Dot, ProductCells, At, Flat;
    for i := 0 to A.rows
      invariant r.Valid() && r.rows == A.rows && r.cols == B.cols && fresh(r.elements)
      invariant Matrix.DoneUpTo(r.elements[..], z0, want, Flat(i, 0, B.cols))
    {
      for j := 0 to B.cols
        invariant r.Valid() && r.rows == A.rows && r.cols == B.cols && fresh(r.elements)
        invariant Matrix.DoneUpTo(r.elements[..], z0, want, Flat(i, j, B.cols))
      {
        FlatSteps(i, j, A.rows, B.cols);
        ProductAt(A.elements[..], A.cols, B.elements[..], B.cols, Flat(A.rows, 0, B.cols), i, j);
        var s := RowTimesColumn(A, B, i, j);
        r.SetElm(i, j, s);
      }
      FlatSteps(i, 0, A.rows, B.cols);
    }
  }

  method RowTimesColumn(A: Matrix, B: Matrix, i: nat, j: nat) returns (s: real)
    requires A.Valid() && B.Valid() && A.cols == B.rows && i < A.rows && j < B.cols
    ensures s == Dot(A.elements[..], A.cols, B.elements[..], B.cols, i, j, A.cols)
  {
    s := 0.0;
    for k := 0 to A.cols
      invariant s == Dot(A.elements[..], A.cols, B.elements[..], B.cols, i, j, k)
    {
      FlatSteps(i, k, A.rows, A.cols);
      FlatSteps(k, j, B.rows, B.cols);
      s := s + A.GetElm(i, k) * B.GetElm(k, j);
    }
  }

  // A column of picks: 1 in row c, 0 elsewhere.
  ghost predicate IsPick(b: seq<real>, c: nat) {
    c < |b| && forall k :: 0 <= k < |b| ==> b[k] == if k == c then 1.0 else 0.0
  }

  lemma {:induction false} PickDot(a: seq<real>, b: seq<real>, c: nat, i: nat, k: nat)
    requires IsPick(b, c) && k <= |b|
    ensures Dot(a, |b|, b, 1, i, 0, k) == if c < k then At(a, i * |b| + c) else 0.0
  {
    if 0 < k {
      PickDot(a, b, c, i, k - 1);
      assert (k - 1) * 1 + 0 == k - 1;
    }
  }

  // One column of a buffer with n columns.
  function Column(a: seq<real>, n: nat, c: nat, rows: nat): (r: seq<real>)
    ensures |r| == rows
    ensures forall i :: 0 <= i < rows ==> r[i] == At(a, i * n + c)
  {
    seq(rows, i requires 0 <= i < rows => At(a, i * n + c))
  }

  // Multiplying by a column of picks selects that column.
  lemma {:induction false} PickSelectsColumn(a: seq<real>, b: seq<real>, c: nat, rows: nat)
    requires IsPick(b, c)
    ensures ProductCells(a, |b|, b, 1, rows) == Column(a, |b|, c, rows)
  {
    var p := ProductCells(a, |b|, b, 1, rows);
    forall i | 0 <= i < rows ensures p[i] == At(a, i * |b| + c) {
      assert i / 1 == i && i % 1 == 0;
      PickDot(a, b, c, i, |b|);
    }
  }
}
