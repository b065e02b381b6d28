/**
 Row-major dense tensors over exact reals, and the torch operations that the
 factored LoRA tensor re-implements on its two factors.
 */
module Tensors {
  import opened Arithmetic
  import opened Sequences

  // ---------- shapes and flat indices ----------

  predicate InBounds(s: seq<nat>, idx: seq<nat>) {
    |idx| == |s| && forall k | 0 <= k < |s| :: idx[k] < s[k]
  }

  /** Row-major position of a multi-index. */
  function Flat(s: seq<nat>, idx: seq<nat>): nat
    requires |idx| == |s|
  {
    if s == [] then 0 else idx[0] * Prod(s[1..]) + Flat(s[1..], idx[1..])
  }

  /** Multi-index at a row-major position. */
  function Unflat(s: seq<nat>, f: nat): seq<nat>
    requires f < Prod(s)
  {
    if s == [] then []
    else
      var p := Prod(s[1..]);
      [f / p] + Unflat(s[1..], f % p)
  }

  lemma {:induction false} FlatBound(s: seq<nat>, idx: seq<nat>)
    requires InBounds(s, idx)
    ensures Flat(s, idx) < Prod(s)
  {
    if s == [] {
    } else {
      FlatBound(s[1..], idx[1..]);
      MulStep(idx[0], s[0], Prod(s[1..]));
    }
  }

  lemma {:induction false} UnflatInBounds(s: seq<nat>, f: nat)
    requires f < Prod(s)
    ensures InBounds(s, Unflat(s, f)) && Flat(s, Unflat(s, f)) == f
  {
    if s == [] {
    } else {
      var p := Prod(s[1..]);
      UnflatInBounds(s[1..], f % p);
      DivBound(f, s[0], p);
      var u := Unflat(s, f);
      assert u[1..] == Unflat(s[1..], f % p);
    }
  }

  lemma {:induction false} UnflatFlat(s: seq<nat>, idx: seq<nat>)
    requires InBounds(s, idx)
    ensures Flat(s, idx) < Prod(s) && Unflat(s, Flat(s, idx)) == idx
  {
    FlatBound(s, idx);
    if s == [] {
    } else {
      var p := Prod(s[1..]);
      UnflatFlat(s[1..], idx[1..]);
      DivUnique(Flat(s, idx), idx[0], p, Flat(s[1..], idx[1..]));
    }
  }

  lemma {:induction false} FlatConcat(a: seq<nat>, b: seq<nat>, i: seq<nat>, j: seq<nat>)
    requires |i| == |a| && |j| == |b|
    ensures Flat(a + b, i + j) == Flat(a, i) * Prod(b) + Flat(b, j)
  {
    if a == [] {
      assert a + b == b && i + j == j;
    } else {
      assert (a + b)[1..] == a[1..] + b && (i + j)[1..] == i[1..] + j;
      FlatConcat(a[1..], b, i[1..], j);
      ProdConcat(a[1..], b);
      Distribute(i[0], Prod(a[1..]), Flat(a[1..], i[1..]), Prod(b));
    }
  }

  /** The split of a row-major position along the last dimension. */
  lemma FlatLast(s: seq<nat>, n: nat, idx: seq<nat>, j: nat)
    requires |idx| == |s|
    ensures Flat(s + [n], idx + [j]) == Flat(s, idx) * n + j && Prod(s + [n]) == Prod(s) * n
  {
    FlatConcat(s, [n], idx, [j]);
    ProdConcat(s, [n]);
    assert Prod([n]) == n && Flat([n], [j]) == j;
  }

  lemma UnflatLast(s: seq<nat>, n: nat, f: nat)
    requires f < Prod(s + [n])
    ensures n > 0 && 0 <= f / n < Prod(s) && 0 <= f % n < n
    ensures Unflat(s + [n], f) == Unflat(s, f / n) + [f % n]
  {
    ProdConcat(s, [n]);
    assert Prod([n]) == n;
    assert n != 0 by { ZeroMul(Prod(s), n); }
    DivBound(f, Prod(s), n);
    var q, r := f / n, f % n;
    UnflatInBounds(s, q);
    FlatLast(s, n, Unflat(s, q), r);
    UnflatFlat(s + [n], Unflat(s, q) + [r]);
  }

  // ---------- tensors ----------

  datatype Tensor = Tensor(shape: seq<nat>, data: seq<real>) {
    predicate Valid() {
      |data| == Prod(shape)
    }

    function At(idx: seq<nat>): real
      requires Valid() && InBounds(shape, idx)
    {
      FlatBound(shape, idx);
      data[Flat(shape, idx)]
    }
  }

  /** The tensor whose entry at every multi-index is given by `f`. */
  function Build(shape: seq<nat>, f: seq<nat> --> real): (t: Tensor)
    requires forall idx | InBounds(shape, idx) :: f.requires(idx)
    ensures t.Valid() && t.shape == shape
    ensures forall idx | InBounds(shape, idx) :: t.At(idx) == f(idx)
  {
    var t := Tensor(shape, seq(Prod(shape), i requires 0 <= i < Prod(shape) =>
      (UnflatInBounds(shape, i); f(Unflat(shape, i)))));
    assert forall idx | InBounds(shape, idx) :: t.At(idx) == f(idx) by {
      forall idx | InBounds(shape, idx) ensures t.At(idx) == f(idx) { UnflatFlat(shape, idx); }
    }
    t
  }

  /** The entry stored at a row-major position. */
  lemma DataAt(t: Tensor, f: nat)
    requires t.Valid() && f < Prod(t.shape)
    ensures InBounds(t.shape, Unflat(t.shape, f)) && t.data[f] == t.At(Unflat(t.shape, f))
  {
    UnflatInBounds(t.shape, f);
  }

  /** Two tensors of one shape that agree at every multi-index are the same tensor. */
  lemma TensorsEqual(s: Tensor, t: Tensor)
    requires s.Valid() && t.Valid() && s.shape == t.shape
    requires forall idx | InBounds(s.shape, idx) :: s.At(idx) == t.At(idx)
    ensures s == t
  {
    forall f | 0 <= f < |s.data| ensures s.data[f] == t.data[f] {
      UnflatInBounds(s.shape, f);
      assert s.At(Unflat(s.shape, f)) == t.At(Unflat(s.shape, f));
    }
  }
}
