/** Reshaping, permuting and scaling the factors acts on the dense product in the same way. */
module LoraReshaping {
  import opened Wrappers
  import opened Arithmetic
  import opened Sequences
  import opened Tensors
  import opened TorchOps
  import opened LoraTensors

  // ---------- reshape ----------

  lemma {:induction false} FlatZeros(n: nat)
    ensures Flat(Fills(n, 1), Fills(n, 0)) == 0 && Prod(Fills(n, 1)) == 1
  {
    if n == 0 {
    } else {
      FlatZeros(n - 1);
      assert Fills(n, 1)[1..] == Fills(n - 1, 1) && Fills(n, 0)[1..] == Fills(n - 1, 0);
    }
  }

  /** The entries of the factors by their position in the data. */
  lemma FactorData(p: Lora, q: seq<nat>, k: nat, j: nat)
    requires p.Valid() && p.LeadOnes() && p.Broadcasts() && InBounds(p.Outer(), q) && k < p.Rank() && j < p.Cols()
    ensures Flat(p.Outer(), q) * p.Rank() + k < |p.B.data| && k * p.Cols() + j < |p.A.data|
    ensures p.BAt(q, k) == p.B.data[Flat(p.Outer(), q) * p.Rank() + k]
    ensures p.AAt(q, k, j) == p.A.data[k * p.Cols() + j]
  {
    OnesBroadcast(p);
    FlatLast(p.Outer(), p.Rank(), q, k);
    FlatBound(p.B.shape, q + [k]);
    AAtOnes(p, q, k, j);
    var ones, z := Fills(p.Leads(), 1), Fills(p.Leads(), 0);
    FlatZeros(p.Leads());
    FlatLast(ones, p.Rank(), z, k);
    FlatLast(ones + [p.Rank()], p.Cols(), z + [k], j);
    FlatBound(p.A.shape, z + [k] + [j]);
  }

  /** The data positions of the factors that enter data position `f` of B @ A are inside the factors. */
  predicate Reads(b: seq<real>, a: seq<real>, rank: nat, cols: nat, f: nat, k: nat)
    requires cols > 0
  {
    0 <= f / cols * rank + k < |b| && k * cols + f % cols < |a|
  }

  function FlatTerm(b: seq<real>, a: seq<real>, rank: nat, cols: nat, f: nat, k: nat): real
    requires cols > 0 && Reads(b, a, rank, cols, f, k)
  {
    b[f / cols * rank + k] * a[k * cols + f % cols]
  }

  function FlatTerms(b: seq<real>, a: seq<real>, rank: nat, cols: nat, f: nat): (r: seq<real>)
    requires cols > 0 && forall k: nat | k < rank :: Reads(b, a, rank, cols, f, k)
    ensures |r| == rank && forall k | 0 <= k < rank :: r[k] == FlatTerm(b, a, rank, cols, f, k)
  {
    seq(rank, k requires 0 <= k < rank => FlatTerm(b, a, rank, cols, f, k))
  }

  /** The entry coordinates of a data position. */
  lemma MatCoordinates(p: Lora, f: nat) returns (q: seq<nat>, j: nat)
    requires p.Valid() && p.LeadOnes() && p.Broadcasts() && f < Prod(p.Shape())
    ensures p.Cols() > 0 && InBounds(p.Outer(), q) && Flat(p.Outer(), q) == f / p.Cols() && j == f % p.Cols()
    ensures p.Mat().data[f] == Total(p.Terms(q, j))
  {
    UnflatLast(p.Outer(), p.Cols(), f);
    q, j := Unflat(p.Outer(), f / p.Cols()), f % p.Cols();
    UnflatInBounds(p.Outer(), f / p.Cols());
    DataAt(p.Mat(), f);
    MatAt(p, q, j);
  }

  lemma TermData(p: Lora, f: nat, q: seq<nat>, j: nat, k: nat)
    requires p.Valid() && p.LeadOnes() && p.Broadcasts() && k < p.Rank()
    requires p.Cols() > 0 && InBounds(p.Outer(), q) && Flat(p.Outer(), q) == f / p.Cols() && j == f % p.Cols()
    ensures Reads(p.B.data, p.A.data, p.Rank(), p.Cols(), f, k)
    ensures p.Terms(q, j)[k] == FlatTerm(p.B.data, p.A.data, p.Rank(), p.Cols(), f, k)
  {
    FactorData(p, q, k, j);
    TermsAt(p, q, j, k);
  }

  /** W's data depends only on the data of the factors, the rank and the row size. */
  lemma MatData(p: Lora, f: nat)
    requires p.Valid() && p.LeadOnes() && p.Broadcasts() && f < Prod(p.Shape())
    ensures p.Cols() > 0 && forall k: nat | k < p.Rank() :: Reads(p.B.data, p.A.data, p.Rank(), p.Cols(), f, k)
    ensures p.Mat().data[f] == Total(FlatTerms(p.B.data, p.A.data, p.Rank(), p.Cols(), f))
  {
    var q, j := MatCoordinates(p, f);
    forall k: nat | k < p.Rank()
      ensures Reads(p.B.data, p.A.data, p.Rank(), p.Cols(), f, k)
      ensures p.Terms(q, j)[k] == FlatTerm(p.B.data, p.A.data, p.Rank(), p.Cols(), f, k)
    {
      TermData(p, f, q, j, k);
    }
    assert p.Terms(q, j) == FlatTerms(p.B.data, p.A.data, p.Rank(), p.Cols(), f);
  }

  /** Two pairs with the same data, rank and row size have the same dense data. */
  lemma SameData(p: Lora, s: Lora)
    requires p.Valid() && p.LeadOnes() && p.Broadcasts() && s.Valid() && s.LeadOnes() && s.Broadcasts()
    requires s.A.data == p.A.data && s.B.data == p.B.data && s.Rank() == p.Rank() && s.Cols() == p.Cols()
    requires Prod(s.Shape()) == Prod(p.Shape())
    ensures s.Mat().data == p.Mat().data
  {
    forall f: nat | f < Prod(p.Shape()) ensures s.Mat().data[f] == p.Mat().data[f] {
      MatData(p, f);
      MatData(s, f);
    }
  }

  lemma {:induction false} InferredNone(dims: seq<int>)
    ensures Inferred(dims) == 0 <==> forall k | 0 <= k < |dims| :: dims[k] != -1
  {
    if dims == [] {
    } else {
      InferredNone(dims[1..]);
      assert forall k | 1 <= k < |dims| :: dims[k] == dims[1..][k - 1];
    }
  }

  lemma {:induction false} KnownNonNegative(dims: seq<int>)
    requires forall k | 0 <= k < |dims| :: dims[k] >= -1
    ensures Known(dims) >= 0
  {
    if dims == [] {
    } else {
      KnownNonNegative(dims[1..]);
      MulMono(0, Known(dims[1..]), if dims[0] == -1 then 1 else dims[0]);
    }
  }

  lemma {:induction false} FillKnown(dims: seq<int>, v: nat)
    requires Inferred(dims) == 1
    ensures NonNegative(Fill(dims, v)) ==> Prod(AsShape(Fill(dims, v))) == Known(dims) * v
  {
    var full := Fill(dims, v);
    var rest := Fill(dims[1..], v);
    assert full[1..] == rest;
    if NonNegative(full) {
      assert AsShape(full)[1..] == AsShape(rest);
      if dims[0] == -1 {
        InferredNone(dims[1..]);
        assert rest == dims[1..];
        NonNegativeKnown(rest);
      } else {
        FillKnown(dims[1..], v);
        Associate(dims[0], Known(dims[1..]), v);
      }
    }
  }

  lemma Associate(x: int, y: int, z: int)
    ensures x * (y * z) == x * y * z
  {
  }

  lemma {:induction false} NonNegativeKnown(dims: seq<int>)
    requires NonNegative(dims)
    ensures Known(dims) == Prod(AsShape(dims)) && Inferred(dims) == 0
  {
    if dims == [] {
    } else {
      NonNegativeKnown(dims[1..]);
      assert AsShape(dims)[1..] == AsShape(dims[1..]);
    }
  }

  /** The dimensions once every inferred one is filled in. */
  function Target(dims: seq<int>, total: nat): (r: seq<int>)
    requires Inferred(dims) > 0 ==> Known(dims) != 0
    ensures |r| == |dims|
  {
    if Inferred(dims) > 0 then Fill(dims, total / Known(dims)) else dims
  }

  predicate Divides(dims: seq<int>, total: nat) {
    Inferred(dims) > 0 ==> Known(dims) != 0 && total % Known(dims) == 0
  }

  lemma ExactQuotient(total: nat, d: int)
    requires d != 0 && total % d == 0
    ensures d * (total / d) == total
    ensures d > 0 ==> total / d >= 0
    ensures d < 0 && total / d == -1 ==> total > 0
  {
  }

  /** Reshape in terms of the filled-in dimensions. */
  lemma ReshapeTarget(t: Tensor, dims: seq<int>)
    requires t.Valid() && Inferred(dims) <= 1
    ensures Reshape(t, dims).Some? <==>
      Divides(dims, Prod(t.shape)) && NonNegative(Target(dims, Prod(t.shape)))
      && Prod(AsShape(Target(dims, Prod(t.shape)))) == Prod(t.shape)
    ensures Reshape(t, dims).Some? ==>
      Reshape(t, dims) == Some(Tensor(AsShape(Target(dims, Prod(t.shape))), t.data))
  {
    var total := Prod(t.shape);
    if Divides(dims, total) && Inferred(dims) == 1 && Known(dims) < 0 && NonNegative(Target(dims, total)) {
      forall k | 0 <= k < |dims| ensures dims[k] >= -1 { assert Target(dims, total)[k] >= 0; }
      KnownNonNegative(dims);
      assert false;
    }
  }

  /** A negative dimension before the last one is refused by B's reshape too. */
  lemma OuterRefused(p: Lora, dims: seq<int>, total: nat)
    requires p.Valid() && Divides(dims, total) && |dims| >= 2
    requires var target := Target(dims, total); target[|dims| - 1] >= 0 && !NonNegative(target)
    ensures Reshape(p.B, Target(dims, total)[..|dims| - 1] + [p.Rank()]).None?
  {
    var target := Target(dims, total);
    var n := |dims|;
    var outer := target[..n - 1] + [p.Rank()];
    if k :| 0 <= k < n && target[k] < -1 {
      assert outer[k] == target[k];
    } else {
      InferredNone(dims);
      var v := if Inferred(dims) > 0 then total / Known(dims) else 0;
      assert v == -1 && Known(dims) < 0 by {
        var k :| 0 <= k < n && target[k] < 0;
        ExactQuotient(total, Known(dims));
      }
      forall k | 0 <= k < n ensures dims[k] >= -1 { assert target[k] >= -1; }
      KnownNonNegative(dims);
    }
  }

  /** With every dimension given, reshape only compares the element counts. */
  lemma ExplicitReshape(t: Tensor, shape: seq<nat>, dims: seq<int>)
    requires t.Valid() && |dims| == |shape| && forall k | 0 <= k < |dims| :: dims[k] == shape[k]
    ensures Reshape(t, dims) == if Prod(shape) == Prod(t.shape) then Some(Tensor(shape, t.data)) else None
  {
    NonNegativeKnown(dims);
    assert AsShape(dims) == shape;
  }

  lemma AReshape(p: Lora, m: nat)
    requires p.Valid() && p.LeadOnes()
    ensures Reshape(p.A, seq(m, _ => 1) + [p.Rank(), p.Cols()])
      == Some(Tensor(Fills(m, 1) + [p.Rank()] + [p.Cols()], p.A.data))
  {
    hide Prod, Flat, Fills, Reshape;
    OnesBroadcast(p);
    var shape := Fills(m, 1) + [p.Rank()] + [p.Cols()];
    OnesCount(m, p.Rank(), p.Cols());
    OnesCount(p.Leads(), p.Rank(), p.Cols());
    forall i | 0 <= i < m ensures Fills(m, 1)[i] == 1 { FillsAt(m, 1, i); }
    ExplicitReshape(p.A, shape, seq(m, _ => 1) + [p.Rank(), p.Cols()]);
  }

  lemma OnesCount(m: nat, x: nat, y: nat)
    ensures Prod(Fills(m, 1) + [x] + [y]) == x * y
  {
    hide Flat, Fills;
    FlatZeros(m);
    ProdTwo(Fills(m, 1), x, y);
  }

  lemma ProdTwo(lead: seq<nat>, x: nat, y: nat)
    ensures Prod(lead + [x]) == Prod(lead) * x && Prod(lead + [x] + [y]) == Prod(lead) * x * y
  {
    FlatLast(lead, x, lead, 0);
    FlatLast(lead + [x], y, lead + [x], 0);
  }

  lemma CancelFactor(a: nat, b: nat, r: nat)
    requires r > 0
    ensures a * r == b * r <==> a == b
  {
    MulMono(a + 1, b, r);
    MulMono(b + 1, a, r);
    assert (a + 1) * r == a * r + r && (b + 1) * r == b * r + r;
  }

  /** B takes a target shape exactly when the element count of the outer dimensions is unchanged. */
  lemma BReshape(p: Lora, target: seq<int>)
    requires p.Valid() && p.Rank() > 0 && |target| >= 2 && NonNegative(target)
    ensures var outer := AsShape(target)[..|target| - 1];
      Reshape(p.B, target[..|target| - 1] + [p.Rank()])
      == if Prod(outer) == Prod(p.Outer()) then Some(Tensor(outer + [p.Rank()], p.B.data)) else None
  {
    var outer := AsShape(target)[..|target| - 1];
    ExplicitReshape(p.B, outer + [p.Rank()], target[..|target| - 1] + [p.Rank()]);
    FlatLast(outer, p.Rank(), outer, 0);
    assert p.B.shape == p.Outer() + [p.Rank()];
    FlatLast(p.Outer(), p.Rank(), p.Outer(), 0);
    CancelFactor(Prod(outer), Prod(p.Outer()), p.Rank());
  }

  /** The dense tensor takes it under the same condition, when rows are not empty. */
  lemma DenseCount(p: Lora, shape: seq<nat>)
    requires p.Valid() && |shape| >= 2 && shape[|shape| - 1] == p.Cols()
    ensures var outer := shape[..|shape| - 1];
      && (Prod(outer) == Prod(p.Outer()) ==> Prod(shape) == Prod(p.Shape()))
      && (p.Cols() > 0 && Prod(shape) == Prod(p.Shape()) ==> Prod(outer) == Prod(p.Outer()))
  {
    var outer := shape[..|shape| - 1];
    assert shape == outer + [p.Cols()];
    FlatLast(outer, p.Cols(), outer, 0);
    FlatLast(p.Outer(), p.Cols(), p.Outer(), 0);
    if p.Cols() > 0 { CancelFactor(Prod(outer), Prod(p.Outer()), p.Cols()); }
  }

  lemma FillDimsTarget(dims: seq<int>, total: nat)
    ensures FillDims(dims, total) == if Divides(dims, total) then Some(Target(dims, total)) else None
  {
    InferredNone(dims);
  }

  lemma MadeOf(p: Lora, target: seq<int>)
    requires p.Valid() && |target| >= 2 && target[|target| - 1] == p.Cols()
    ensures var n := |target|;
      var a := Reshape(p.A, seq(n - 2, _ => 1) + [p.Rank(), p.Cols()]);
      var b := Reshape(p.B, target[..n - 1] + [p.Rank()]);
      Regroup(p, target) == if a.Some? && b.Some? then Make(a.value, b.value) else None
  {
    hide Reshape;
  }

  /** The second step of `reshape`, for dimensions that are all given. */
  lemma RegroupGiven(p: Lora, target: seq<int>)
    requires p.Valid() && p.LeadOnes() && p.Rank() > 0
    requires |target| >= 2 && NonNegative(target) && target[|target| - 1] == p.Cols()
    ensures var outer := AsShape(target)[..|target| - 1];
      Regroup(p, target) ==
      if Prod(outer) != Prod(p.Outer()) then None
      else Some(Lora(Tensor(Fills(|target| - 2, 1) + [p.Rank()] + [p.Cols()], p.A.data),
                     Tensor(outer + [p.Rank()], p.B.data)))
  {
    hide Regroup, Make, Reshape, Prod, Fills, Known, Inferred, Fill, Flat, Lora.Valid, Tensor.Valid, Lora.LeadOnes;
    AReshape(p, |target| - 2);
    BReshape(p, target);
    MadeOf(p, target);
    var outer := AsShape(target)[..|target| - 1];
    if Prod(outer) == Prod(p.Outer()) {
      MakeFits(Tensor(Fills(|target| - 2, 1) + [p.Rank()] + [p.Cols()], p.A.data), Tensor(outer + [p.Rank()], p.B.data),
               Fills(|target| - 2, 1), outer, p.Rank(), p.Cols());
    }
  }

  lemma MakeFits(a: Tensor, b: Tensor, ones: seq<nat>, outer: seq<nat>, rank: nat, cols: nat)
    requires a.Valid() && b.Valid() && |outer| == |ones| + 1
    requires a.shape == ones + [rank] + [cols] && b.shape == outer + [rank]
    ensures Make(a, b) == Some(Lora(a, b))
  {
  }

  /** The conditions under which `reshape` accepts. */
  predicate Reshapes(p: Lora, dims: seq<int>)
    requires p.Valid()
  {
    && |dims| >= 2 && Divides(dims, Prod(p.Shape()))
    && Target(dims, Prod(p.Shape()))[|dims| - 1] == p.Cols()
    && NonNegative(Target(dims, Prod(p.Shape())))
    && Prod(AsShape(Target(dims, Prod(p.Shape())))[..|dims| - 1]) == Prod(p.Outer())
  }

  lemma ReshapePairTarget(p: Lora, dims: seq<int>)
    requires p.Valid() && p.LeadOnes() && p.Rank() > 0
    ensures ReshapePair(p, dims).Some? <==> Reshapes(p, dims)
    ensures Reshapes(p, dims) ==>
      ReshapePair(p, dims) == Some(Lora(
        Tensor(Fills(|dims| - 2, 1) + [p.Rank()] + [p.Cols()], p.A.data),
        Tensor(AsShape(Target(dims, Prod(p.Shape())))[..|dims| - 1] + [p.Rank()], p.B.data)))
  {
    hide Reshape, FillDims, Known, Inferred, Prod, Fills, Target;
    var total := Prod(p.Shape());
    FillDimsTarget(dims, total);
    if |dims| >= 2 && Divides(dims, total) {
      var target := Target(dims, total);
      if target[|dims| - 1] == p.Cols() {
        if NonNegative(target) {
          RegroupGiven(p, target);
        } else {
          OuterRefused(p, dims, total);
        }
      }
    }
  }

  /** A pair reshaped to the filled-in dimensions stands for the dense tensor reshaped to them. */
  lemma RegroupedMat(p: Lora, dims: seq<int>)
    requires p.Valid() && p.LeadOnes() && p.Broadcasts() && p.Rank() > 0 && Reshapes(p, dims)
    ensures ReshapePair(p, dims).Some?
    ensures var s, shape := ReshapePair(p, dims).value, AsShape(Target(dims, Prod(p.Shape())));
      && Prod(shape) == Prod(p.Shape())
      && s.LeadOnes() && s.Broadcasts() && s.Rank() == p.Rank() && s.Mat() == Tensor(shape, p.Mat().data)
  {
    hide Reshape, ReshapePair, Lora.Mat, Lora.LeadOnes, Lora.Broadcasts, Prod, Flat, Fills, Known, Inferred, Fill;
    ReshapePairTarget(p, dims);
    var shape := AsShape(Target(dims, Prod(p.Shape())));
    DenseCount(p, shape);
    ReshapedMat(p, ReshapePair(p, dims).value, shape);
  }

  /**
   Reshaping the factors stands for the row-major reshape of the dense tensor. With at most one -1, the
   reshapes accepted are those of the dense tensor that keep its row size and at least two dimensions.
   */
  lemma ReshapeRefines(p: Lora, dims: seq<int>)
    requires p.Valid() && p.LeadOnes() && p.Broadcasts() && p.Rank() > 0
    ensures p.Cols() > 0 ==> (ReshapePair(p, dims).Some? && Inferred(dims) <= 1 <==>
      |dims| >= 2 && Reshape(p.Mat(), dims).Some? && Reshape(p.Mat(), dims).value.shape[|dims| - 1] == p.Cols())
    ensures ReshapePair(p, dims).Some? && Inferred(dims) <= 1 ==>
      var s := ReshapePair(p, dims).value;
      s.LeadOnes() && s.Broadcasts() && s.Rank() == p.Rank() && Reshape(p.Mat(), dims) == Some(s.Mat())
  {
    SeveralRefused(p.Mat(), dims);
    hide *;
    ReshapePairTarget(p, dims);
    if Inferred(dims) <= 1 {
      DenseReshapes(p, dims);
      if Reshapes(p, dims) { RegroupedMat(p, dims); }
    }
  }

  lemma DenseReshapes(p: Lora, dims: seq<int>)
    requires p.Valid() && p.Broadcasts() && Inferred(dims) <= 1
    ensures p.Cols() > 0 ==> (Reshapes(p, dims) <==>
      |dims| >= 2 && Reshape(p.Mat(), dims).Some? && Reshape(p.Mat(), dims).value.shape[|dims| - 1] == p.Cols())
    ensures Reshapes(p, dims) ==>
      Reshape(p.Mat(), dims) == Some(Tensor(AsShape(Target(dims, Prod(p.Shape()))), p.Mat().data))
  {
    hide Reshape, Prod, Flat, Known, Inferred, Fill, Target;
    ReshapeTarget(p.Mat(), dims);
    var total := Prod(p.Shape());
    if |dims| >= 2 && Divides(dims, total) && NonNegative(Target(dims, total)) {
      if Target(dims, total)[|dims| - 1] == p.Cols() { DenseCount(p, AsShape(Target(dims, total))); }
    }
  }

  lemma SeveralRefused(t: Tensor, dims: seq<int>)
    requires t.Valid()
    ensures Inferred(dims) > 1 ==> Reshape(t, dims).None?
  {
  }

  /**
   With several -1, which torch refuses, every one of them is filled with the same quotient. Accepted are
   the dimensions that are a reshape keeping the row size once filled, and the result stands for that one.
   */
  lemma SeveralInferred(p: Lora, dims: seq<int>)
    requires p.Valid() && p.LeadOnes() && p.Broadcasts() && p.Rank() > 0 && Inferred(dims) > 1
    ensures Reshape(p.Mat(), dims).None? && (ReshapePair(p, dims).Some? <==> Reshapes(p, dims))
    ensures Reshapes(p, dims) ==>
      var s := ReshapePair(p, dims).value;
      && s.LeadOnes() && s.Broadcasts() && s.Rank() == p.Rank()
      && Reshape(p.Mat(), Target(dims, Prod(p.Shape()))) == Some(s.Mat())
  {
    hide *;
    SeveralRefused(p.Mat(), dims);
    PairAccepts(p, dims);
    if Reshapes(p, dims) { FilledMat(p, dims); }
  }

  lemma PairAccepts(p: Lora, dims: seq<int>)
    requires p.Valid() && p.LeadOnes() && p.Rank() > 0
    ensures ReshapePair(p, dims).Some? <==> Reshapes(p, dims)
  {
    hide *;
    ReshapePairTarget(p, dims);
  }

  lemma FilledMat(p: Lora, dims: seq<int>)
    requires p.Valid() && p.LeadOnes() && p.Broadcasts() && p.Rank() > 0 && Reshapes(p, dims)
    ensures ReshapePair(p, dims).Some?
    ensures var s := ReshapePair(p, dims).value;
      && s.LeadOnes() && s.Broadcasts() && s.Rank() == p.Rank()
      && Reshape(p.Mat(), Target(dims, Prod(p.Shape()))) == Some(s.Mat())
  {
    hide *;
    RegroupedMat(p, dims);
    FilledReshape(p, dims);
  }

  lemma FilledReshape(p: Lora, dims: seq<int>)
    requires p.Valid() && p.Broadcasts() && Reshapes(p, dims)
    ensures var target := Target(dims, Prod(p.Shape()));
      Reshape(p.Mat(), target) == Some(Tensor(AsShape(target), p.Mat().data))
  {
    hide Reshape, Prod, Flat, Known, Inferred, Fill, Target;
    var target := Target(dims, Prod(p.Shape()));
    ExplicitReshape(p.Mat(), AsShape(target), target);
    DenseCount(p, AsShape(target));
  }

  lemma TwoInferred(n: nat)
    ensures Inferred([-1, -1, n as int]) == 2 && Known([-1, -1, n as int]) == n
  {
    var dims: seq<int> := [-1, -1, n as int];
    var two, one := dims[1..], dims[2..];
    assert two[1..] == one && one[1..] == [] && one[0] == n;
    assert Inferred(one) == 0 && Known(one) == n;
    assert Inferred(two) == 1 && Known(two) == n;
  }

  /** So (-1, -1, columns) is taken for (1, 1, columns) on every matrix of one row. */
  lemma OneRowInferred(p: Lora)
    requires p.Valid() && p.LeadOnes() && p.Broadcasts() && p.Rank() > 0 && p.Outer() == [1] && p.Cols() > 0
    ensures ReshapePair(p, [-1, -1, p.Cols() as int]).Some? && Reshape(p.Mat(), [-1, -1, p.Cols() as int]).None?
  {
    hide Reshape, ReshapePair, Lora.Mat, Flat, Fills;
    var dims: seq<int> := [-1, -1, p.Cols() as int];
    TwoInferred(p.Cols());
    ProdTwo([], 1, p.Cols());
    assert [] + [1] + [p.Cols()] == [1, p.Cols()] == p.Shape();
    assert Prod(p.Shape()) == p.Cols();
    var target := Target(dims, p.Cols());
    assert target == [1, 1, p.Cols()];
    assert AsShape(target)[..2] == [1, 1];
    ProdPair(1, 1);
    ProdOne(1);
    SeveralInferred(p, dims);
  }

  /** The rank must not be zero: otherwise B has no entries to count, and any number of rows is accepted. */
  lemma RankZeroReshapes(p: Lora)
    requires p.Valid() && p.LeadOnes() && p.Broadcasts() && p.Rank() == 0 && p.Cols() > 0
    ensures var dims := [Prod(p.Outer()) + 1, p.Cols()];
      ReshapePair(p, dims).Some? && Reshape(p.Mat(), dims).None?
  {
    hide *;
    var rows := Prod(p.Outer()) + 1;
    TooManyRows(p, rows);
    EmptyRows(p, rows);
  }

  lemma TooManyRows(p: Lora, rows: nat)
    requires p.Valid() && p.Broadcasts() && p.Cols() > 0 && rows != Prod(p.Outer())
    ensures Reshape(p.Mat(), [rows, p.Cols()]).None?
  {
    hide Flat, Lora.Mat, Prod, Reshape;
    ProdTwo([], rows, p.Cols());
    assert [] + [rows] + [p.Cols()] == [rows, p.Cols()] && [] + [rows] == [rows];
    FlatLast(p.Outer(), p.Cols(), p.Outer(), 0);
    ExplicitReshape(p.Mat(), [rows, p.Cols()], [rows, p.Cols()]);
    CancelFactor(rows, Prod(p.Outer()), p.Cols());
    ProdOne(rows);
  }

  lemma ProdOne(n: nat)
    ensures Prod([n]) == n && Prod([]) == 1
  {
    assert [n][1..] == [];
  }

  lemma EmptyRows(p: Lora, rows: nat)
    requires p.Valid() && p.LeadOnes() && p.Rank() == 0
    ensures ReshapePair(p, [rows, p.Cols()]).Some?
  {
    hide Flat, Prod, Reshape, Fills;
    var dims: seq<int> := [rows, p.Cols()];
    AReshape(p, 0);
    assert seq(0, _ => 1) + [p.Rank(), p.Cols()] == [p.Rank(), p.Cols()];
    assert dims[..1] + [p.Rank()] == [rows, p.Rank()];
    ProdTwo([], rows, 0);
    ProdOne(rows);
    assert [] + [rows] + [0] == [rows, 0];
    FlatLast(p.Outer(), 0, p.Outer(), 0);
    assert p.B.shape == p.Outer() + [0];
    ExplicitReshape(p.B, [rows, 0], [rows, 0]);
    InferredNone(dims);
    FillDimsTarget(dims, Prod(p.Shape()));
    MadeOf(p, dims);
  }

  lemma ReshapedMat(p: Lora, s: Lora, shape: seq<nat>)
    requires p.Valid() && p.LeadOnes() && p.Broadcasts() && s.Valid()
    requires |shape| >= 2 && shape[|shape| - 1] == p.Cols() && Prod(shape) == Prod(p.Shape())
    requires s.A == Tensor(Fills(|shape| - 2, 1) + [p.Rank()] + [p.Cols()], p.A.data)
    requires s.B == Tensor(shape[..|shape| - 1] + [p.Rank()], p.B.data)
    ensures s.LeadOnes() && s.Broadcasts() && s.Rank() == p.Rank() && s.Mat() == Tensor(shape, p.Mat().data)
  {
    hide Flat, Total, Lora.Terms, Prod;
    ReshapedShape(p, s, shape);
    OnesBroadcast(s);
    SameData(p, s);
  }

  lemma ReshapedShape(p: Lora, s: Lora, shape: seq<nat>)
    requires p.Valid() && s.Valid() && |shape| >= 2 && shape[|shape| - 1] == p.Cols()
    requires s.A.shape == Fills(|shape| - 2, 1) + [p.Rank()] + [p.Cols()]
    requires s.B.shape == shape[..|shape| - 1] + [p.Rank()]
    ensures s.LeadOnes() && s.Rank() == p.Rank() && s.Shape() == shape
  {
    hide Fills, Prod;
    assert s.Outer() == shape[..|shape| - 1];
    assert s.A.shape[..s.Leads()] == Fills(|shape| - 2, 1);
  }

  // ---------- permute ----------

  /** A permutation that fixes the last dimension permutes the dimensions before it. */
  lemma FixedLast(p: seq<int>)
    requires IsPermutation(p) && p != [] && p[|p| - 1] == |p| - 1
    ensures IsPermutation(p[..|p| - 1])
  {
    var n := |p| - 1;
    forall e: int | 0 <= e < n ensures e in p[..n] {
      assert e in p;
      var d :| 0 <= d < |p| && p[d] == e;
      assert p[..n][d] == e;
    }
    forall d | 0 <= d < n ensures 0 <= p[..n][d] < n { assert p[d] != p[n]; }
  }

  lemma FixedLastSource(p: seq<int>, q: seq<nat>, k: nat)
    requires IsPermutation(p) && |p| == |q| + 1 && p[|q|] == |q|
    ensures IsPermutation(p[..|q|]) && PermSource(p, q + [k]) == PermSource(p[..|q|], q) + [k]
  {
    FixedLast(p);
    var n := |q|;
    var s, t := PermSource(p, q + [k]), PermSource(p[..n], q);
    forall e | 0 <= e < n ensures s[e] == t[e] {
      assert e in p[..n];
      var d :| 0 <= d < n && p[..n][d] == e;
      assert s[p[d]] == (q + [k])[d] && t[p[..n][d]] == q[d];
    }
    assert s[p[n]] == (q + [k])[n];
  }

  lemma FixedLastShape(p: seq<int>, s: seq<nat>, x: nat)
    requires IsPermutation(p) && |p| == |s| + 1 && p[|s|] == |s|
    ensures IsPermutation(p[..|s|]) && PermShape(p, s + [x]) == PermShape(p[..|s|], s) + [x]
  {
    FixedLast(p);
    forall d | 0 <= d < |s| ensures PermShape(p, s + [x])[d] == PermShape(p[..|s|], s)[d] {
      assert p[d] == p[..|s|][d];
    }
  }

  /** Permuting all dimensions of B but the last permutes the dense product. */
  lemma PermuteOuter(p: Lora, perm: seq<int>) returns (s: Lora)
    requires p.Valid() && p.LeadOnes() && p.Broadcasts()
    requires IsPermutation(perm) && |perm| == |p.B.shape| && perm[|perm| - 1] == |perm| - 1
    ensures s == Lora(p.A, Transposed(p.B, perm)) && s.Valid() && Make(s.A, s.B) == Some(s)
    ensures s.LeadOnes() && s.Broadcasts() && s.Rank() == p.Rank() && s.Mat() == Transposed(p.Mat(), perm)
  {
    s := PermutedPair(p, perm);
    hide Transposed, Flat, Prod, Fills, Lora.Mat, PermShape, IsPermutation;
    var w := Transposed(p.Mat(), perm);
    forall idx | InBounds(s.Shape(), idx) ensures s.Mat().At(idx) == w.At(idx) {
      SplitIdx(s, idx);
      PermutedAt(p, perm, s, idx[..|idx| - 1], idx[|idx| - 1]);
    }
    TensorsEqual(s.Mat(), w);
  }

  lemma PermutedPair(p: Lora, perm: seq<int>) returns (s: Lora)
    requires p.Valid() && p.LeadOnes() && p.Broadcasts()
    requires IsPermutation(perm) && |perm| == |p.B.shape| && perm[|perm| - 1] == |perm| - 1
    ensures s == Lora(p.A, Transposed(p.B, perm)) && Permuted(p, perm, s) && Make(s.A, s.B) == Some(s)
    ensures s.Shape() == PermShape(perm, p.Shape())
  {
    hide Flat, Prod, Fills;
    OnesBroadcast(p);
    FixedLastShape(perm, p.Outer(), p.Rank());
    FixedLastShape(perm, p.Outer(), p.Cols());
    s := Lora(p.A, Transposed(p.B, perm));
    assert s.Outer() == PermShape(perm[..|p.Outer()|], p.Outer());
    OnesBroadcast(s);
  }

  predicate Permuted(p: Lora, perm: seq<int>, s: Lora) {
    && p.Valid() && p.LeadOnes() && p.Broadcasts() && s.Valid() && s.LeadOnes() && s.Broadcasts()
    && IsPermutation(perm) && |perm| == |p.B.shape| && perm[|perm| - 1] == |perm| - 1
    && s.A == p.A && s.B == Transposed(p.B, perm) && s.Rank() == p.Rank()
    && IsPermutation(perm[..|p.Outer()|]) && s.Outer() == PermShape(perm[..|p.Outer()|], p.Outer())
  }

  lemma PermutedEntry(p: Lora, perm: seq<int>, s: Lora, q: seq<nat>, j: nat, k: nat)
    requires Permuted(p, perm, s) && InBounds(s.Outer(), q) && j < s.Cols() && k < p.Rank()
    ensures InBounds(p.Outer(), PermSource(perm[..|q|], q))
    ensures s.BAt(q, k) == p.BAt(PermSource(perm[..|q|], q), k)
    ensures s.AAt(q, k, j) == p.AAt(PermSource(perm[..|q|], q), k, j)
  {
    hide Flat, Prod, Fills, Transposed;
    PermInBounds(perm[..|q|], p.Outer(), q);
    PermutedB(p, perm, s, q, k);
    AAtOnes(s, q, k, j);
    AAtOnes(p, PermSource(perm[..|q|], q), k, j);
  }

  lemma PermutedB(p: Lora, perm: seq<int>, s: Lora, q: seq<nat>, k: nat)
    requires Permuted(p, perm, s) && InBounds(s.Outer(), q) && k < p.Rank()
    requires InBounds(p.Outer(), PermSource(perm[..|q|], q))
    ensures s.BAt(q, k) == p.BAt(PermSource(perm[..|q|], q), k)
  {
    hide Flat, Prod, Fills, PermSource, PermShape, IsPermutation;
    FixedLastSource(perm, q, k);
    assert InBounds(s.B.shape, q + [k]);
    TransposedEntry(p.B, perm, s.B, q + [k]);
  }

  lemma TransposedEntry(t: Tensor, perm: seq<int>, r: Tensor, idx: seq<nat>)
    requires t.Valid() && IsPermutation(perm) && |perm| == |t.shape| && r == Transposed(t, perm)
    requires r.Valid() && InBounds(r.shape, idx)
    ensures InBounds(t.shape, PermSource(perm, idx)) && r.At(idx) == t.At(PermSource(perm, idx))
  {
    hide Flat, Prod;
    PermInBounds(perm, t.shape, idx);
  }

  lemma PermutedAt(p: Lora, perm: seq<int>, s: Lora, q: seq<nat>, j: nat)
    requires Permuted(p, perm, s) && InBounds(s.Outer(), q) && j < s.Cols()
    ensures InBounds(s.Shape(), q + [j]) && InBounds(PermShape(perm, p.Shape()), q + [j])
    ensures s.Mat().At(q + [j]) == Transposed(p.Mat(), perm).At(q + [j])
  {
    var src := PermSource(perm[..|q|], q);
    PermInBounds(perm[..|q|], p.Outer(), q);
    forall k: nat | k < p.Rank() ensures s.Terms(q, j)[k] == p.Terms(src, j)[k] {
      PermutedEntry(p, perm, s, q, j, k);
      TermSame(s, q, j, p, src, j, k);
    }
    MatSame(s, q, j, p, src, j);
    FixedLastSource(perm, q, j);
    FixedLastShape(perm, p.Outer(), p.Cols());
  }

  lemma TransposedSource(i: nat, j: nat)
    ensures IsPermutation([1, 0]) && PermSource([1, 0], [i, j]) == [j, i]
  {
    var perm := [1, 0];
    assert perm[0] == 1 && perm[1] == 0;
    assert PermSource(perm, [i, j])[perm[0]] == i && PermSource(perm, [i, j])[perm[1]] == j;
  }

  predicate Fits(t: Tensor, i: nat, j: nat) {
    |t.shape| == 2 && i < t.shape[0] && j < t.shape[1]
  }

  /** `s` is the matrix `t` with rows and columns exchanged. */
  ghost predicate IsTranspose(t: Tensor, s: Tensor) {
    && t.Valid() && s.Valid() && |t.shape| == 2 && s.shape == [t.shape[1], t.shape[0]]
    && forall i: nat, j: nat | Fits(s, i, j) :: s.At([i, j]) == t.At([j, i])
  }

  lemma TransposedShape(t: Tensor)
    requires t.Valid() && |t.shape| == 2
    ensures IsPermutation([1, 0]) && Transposed(t, [1, 0]).shape == [t.shape[1], t.shape[0]]
  {
    hide Flat, Prod, Tensor.At, PermSource;
    TransposedSource(0, 0);
  }

  lemma TransposedIs(t: Tensor)
    requires t.Valid() && |t.shape| == 2
    ensures IsPermutation([1, 0]) && IsTranspose(t, Transposed(t, [1, 0]))
  {
    hide Flat, Prod, Tensor.At, PermSource, PermShape;
    TransposedShape(t);
    var s := Transposed(t, [1, 0]);
    forall i: nat, j: nat | Fits(s, i, j) ensures s.At([i, j]) == t.At([j, i]) {
      TransposedSource(i, j);
      assert InBounds(s.shape, [i, j]);
    }
  }

  lemma TransposeUnique(t: Tensor, s: Tensor, r: Tensor)
    requires IsTranspose(t, s) && IsTranspose(t, r)
    ensures s == r
  {
    hide Flat, Prod, Tensor.At;
    forall idx | InBounds(s.shape, idx) ensures s.At(idx) == r.At(idx) {
      assert idx == [idx[0], idx[1]];
      assert Fits(s, idx[0], idx[1]) && Fits(r, idx[0], idx[1]);
    }
    TensorsEqual(s, r);
  }

  /** The factor entries of a pair without batch dimensions. */
  lemma MatrixEntry(p: Lora, i: nat, j: nat, k: nat)
    requires p.Valid() && p.Leads() == 0 && p.Broadcasts() && k < p.Rank() && j < p.Cols() && i < p.B.shape[0]
    ensures InBounds(p.Outer(), [i]) && Fits(p.B, i, k) && Fits(p.A, k, j)
    ensures p.BAt([i], k) == p.B.At([i, k]) && p.AAt([i], k, j) == p.A.At([k, j])
  {
    hide Flat, Prod, Tensor.At;
    assert [i] + [k] == [i, k];
    assert p.ALead([i]) + [k, j] == [k, j];
  }

  ghost predicate SwappedFactors(p: Lora, s: Lora) {
    && p.Valid() && s.Valid() && p.Leads() == 0 && s.Leads() == 0 && p.Broadcasts() && s.Broadcasts()
    && IsTranspose(p.A, s.B) && IsTranspose(p.B, s.A)
  }

  lemma SwappedTerm(p: Lora, s: Lora, i: nat, j: nat, k: nat)
    requires SwappedFactors(p, s) && i < p.Cols() && j < p.B.shape[0] && k < p.Rank()
    ensures InBounds(s.Outer(), [i]) && InBounds(p.Outer(), [j]) && s.Rank() == p.Rank() && j < s.Cols()
    ensures s.Terms([i], j)[k] == p.Terms([j], i)[k]
  {
    hide Flat, Prod, Tensor.At, Lora.BAt, Lora.AAt, Lora.Terms;
    MatrixEntry(s, i, j, k);
    MatrixEntry(p, j, i, k);
    TermsAt(s, [i], j, k);
    TermsAt(p, [j], i, k);
  }

  /** The transpose of a matrix product is the product of the transposes in the other order. */
  lemma SwappedMat(p: Lora, s: Lora)
    requires SwappedFactors(p, s)
    ensures IsTranspose(p.Mat(), s.Mat())
  {
    hide Flat, Prod, Tensor.At, Lora.BAt, Lora.AAt, Lora.Terms, Lora.Mat, Total, IsTranspose;
    assert s.Shape() == [p.Shape()[1], p.Shape()[0]] by { SwappedShape(p, s); }
    forall i: nat, j: nat | Fits(s.Mat(), i, j) ensures s.Mat().At([i, j]) == p.Mat().At([j, i]) {
      SwappedAt(p, s, i, j);
    }
    TransposeFrom(p.Mat(), s.Mat());
  }

  lemma TransposeFrom(t: Tensor, s: Tensor)
    requires t.Valid() && s.Valid() && |t.shape| == 2 && s.shape == [t.shape[1], t.shape[0]]
    requires forall i: nat, j: nat | Fits(s, i, j) :: s.At([i, j]) == t.At([j, i])
    ensures IsTranspose(t, s)
  {
  }

  lemma SwappedShape(p: Lora, s: Lora)
    requires SwappedFactors(p, s)
    ensures p.Shape() == [p.B.shape[0], p.A.shape[1]] && s.Shape() == [p.A.shape[1], p.B.shape[0]]
    ensures s.Rank() == p.Rank() && s.Cols() == p.B.shape[0] && p.Cols() == p.A.shape[1]
    ensures s.Outer() == [p.A.shape[1]] && p.Outer() == [p.B.shape[0]]
  {
    hide Flat, Prod, Tensor.At;
  }

  lemma SwappedAt(p: Lora, s: Lora, i: nat, j: nat)
    requires SwappedFactors(p, s) && i < p.A.shape[1] && j < p.B.shape[0]
    ensures InBounds(s.Shape(), [i, j]) && InBounds(p.Shape(), [j, i])
    ensures s.Mat().At([i, j]) == p.Mat().At([j, i])
  {
    hide Flat, Prod, Tensor.At, Lora.BAt, Lora.AAt, Lora.Terms, Lora.Mat, Total, IsTranspose;
    SwappedShape(p, s);
    assert InBounds(s.Outer(), [i]) && InBounds(p.Outer(), [j]) && j < s.Cols();
    forall k: nat | k < p.Rank() ensures s.Terms([i], j)[k] == p.Terms([j], i)[k] {
      SwappedTerm(p, s, i, j, k);
    }
    assert s.Terms([i], j) == p.Terms([j], i);
    MatAt(s, [i], j);
    MatAt(p, [j], i);
    assert [i] + [j] == [i, j] && [j] + [i] == [j, i];
  }

  lemma TransposeMatrix(p: Lora) returns (s: Lora)
    requires p.Valid() && p.Leads() == 0
    ensures IsPermutation([1, 0]) && s == Lora(Transposed(p.B, [1, 0]), Transposed(p.A, [1, 0]))
    ensures s.Valid() && Make(s.A, s.B) == Some(s) && s.LeadOnes() && s.Broadcasts() && s.Rank() == p.Rank()
    ensures p.Broadcasts() && s.Mat() == Transposed(p.Mat(), [1, 0])
  {
    hide Flat, Prod, Tensor.At, Lora.Mat, Transposed;
    TransposedIs(p.A);
    TransposedIs(p.B);
    TransposedIs(p.Mat());
    s := Lora(Transposed(p.B, [1, 0]), Transposed(p.A, [1, 0]));
    SwappedMat(p, s);
    TransposeUnique(p.Mat(), s.Mat(), Transposed(p.Mat(), [1, 0]));
  }

  /** Renumbering from the end changes nothing for dimension numbers torch accepts. */
  lemma FromEndWraps(dims: seq<int>, rank: nat)
    requires |dims| == rank && forall d | 0 <= d < rank :: -(rank as int) <= dims[d] < rank
    ensures WrapAll(FromEnd(dims, rank)) == WrapAll(dims)
  {
  }

  /**
   Permuting the factors stands for permuting the dense tensor. Every permutation of a matrix is
   accepted, and with batch dimensions exactly those that leave the last dimension in place.
   */
  lemma PermuteRefines(p: Lora, dims: seq<int>)
    requires p.Valid() && p.LeadOnes() && p.Broadcasts()
    requires forall d | 0 <= d < |dims| :: -|p.A.shape| <= dims[d] < |p.A.shape|
    ensures PermutePair(p, dims).Some? <==>
      Permute(p.Mat(), dims).Some? && (p.Leads() == 0 || WrapAll(dims)[|dims| - 1] == |dims| - 1)
    ensures PermutePair(p, dims).Some? ==>
      var s := PermutePair(p, dims).value;
      s.LeadOnes() && s.Broadcasts() && s.Rank() == p.Rank() && Permute(p.Mat(), dims) == Some(s.Mat())
  {
    hide Flat, Prod, Transposed, Lora.Mat, Fills;
    var n := |p.A.shape|;
    if |dims| == n {
      FromEndWraps(dims, n);
      var perm := WrapAll(dims);
      if IsPermutation(perm) {
        if perm[n - 1] == n - 1 {
          var s := PermuteOuter(p, perm);
        } else if n == 2 {
          assert perm == [1, 0];
          var s := TransposeMatrix(p);
        }
      }
    }
  }

  /**
   Renumbering from the end also lets dimension numbers from rank to 2 * rank - 1 through,
   which torch refuses on the dense tensor: on a matrix, dims (2, 1) is taken as the identity.
   */
  lemma PermuteBeyondRank(p: Lora)
    requires p.Valid() && p.Leads() == 0 && p.Broadcasts()
    ensures PermutePair(p, [2, 1]) == Some(p) && Permute(p.Mat(), [2, 1]).None?
  {
    hide Transposed, Lora.Mat, Flat, Prod, Unflat;
    var e := FromEnd([2, 1], 2);
    assert e == [0, -1];
    var w := WrapAll(e);
    assert w == [0, 1] && w[0] == 0 && w[1] == 1;
    assert WrapAll([2, 1])[0] == 2;
    assert p.A.shape[..0] == Fills(0, 1);
    TransposedSame(p.B);
  }

  /** The identity permutation of a matrix gives the matrix. */
  lemma TransposedSame(t: Tensor)
    requires t.Valid() && |t.shape| == 2
    ensures IsPermutation([0, 1]) && Transposed(t, [0, 1]) == t
  {
    hide Flat, Prod, Unflat, Transposed, IsPermutation, PermSource, PermShape;
    IdentityPermutes(t.shape);
    var r := Transposed(t, [0, 1]);
    forall idx | InBounds(r.shape, idx) ensures r.At(idx) == t.At(idx) { IdentityPermutes(idx); }
    TensorsEqual(r, t);
  }

  lemma IdentityPermutes(x: seq<nat>)
    requires |x| == 2
    ensures IsPermutation([0, 1]) && PermShape([0, 1], x) == x && PermSource([0, 1], x) == x
  {
    var p := [0, 1];
    assert p[0] == 0 && p[1] == 1;
    var src := PermSource(p, x);
    assert src[p[0]] == x[0] && src[p[1]] == x[1];
  }

  /** What the factors accept, the dense tensor accepts exactly when no dimension number reaches the rank. */
  lemma PermuteAcceptsMore(p: Lora, dims: seq<int>)
    requires p.Valid() && p.LeadOnes() && p.Broadcasts() && PermutePair(p, dims).Some?
    ensures Permute(p.Mat(), dims).Some? <==> forall d | 0 <= d < |dims| :: dims[d] < |p.A.shape|
  {
    hide Flat, Prod, Transposed, Lora.Mat, Fills;
    var n := |p.A.shape|;
    var e := FromEnd(dims, n);
    assert |dims| == n && IsPermutation(WrapAll(e));
    forall d | 0 <= d < n ensures -n <= dims[d] { assert 0 <= WrapAll(e)[d] < n; }
    if forall d | 0 <= d < n :: dims[d] < n {
      PermuteRefines(p, dims);
    } else {
      var d :| 0 <= d < n && dims[d] >= n;
      assert WrapAll(dims)[d] == dims[d];
    }
  }

  // ---------- __mul__ ----------

  lemma PadOnesLast(s: seq<nat>, x: nat, rank: nat)
    requires |s| <= rank
    ensures PadOnes(s + [x], rank + 1) == PadOnes(s, rank) + [x]
  {
  }

  /** Broadcasting against a multiplier with a last dimension of 1 keeps the last dimension. */
  lemma BroadcastLast(s: seq<nat>, x: nat, m: seq<nat>)
    requires |m| <= |s| + 1 && (m == [] || m[|m| - 1] == 1)
    ensures var outer := if m == [] then [] else m[..|m| - 1];
      && (BroadcastShape(s + [x], m).Some? <==> BroadcastShape(s, outer).Some?)
      && (BroadcastShape(s, outer).Some? ==>
            BroadcastShape(s + [x], m) == Some(BroadcastShape(s, outer).value + [x])
            && |BroadcastShape(s, outer).value| == |s|)
  {
    var outer := if m == [] then [] else m[..|m| - 1];
    var n := |s|;
    assert MaxRank(s + [x], m) == n + 1 && MaxRank(s, outer) == n;
    PadOnesLast(s, x, n);
    var a, b := PadOnes(s + [x], n + 1), PadOnes(m, n + 1);
    var a', b' := PadOnes(s, n), PadOnes(outer, n);
    if m == [] {
      assert b == b' + [1];
    } else {
      assert m == outer + [1];
      PadOnesLast(outer, 1, n);
    }
    assert BroadcastDim(x, 1) == Some(x);
    CompatibleLast(a', b', x);
  }

  lemma CompatibleLast(a: seq<nat>, b: seq<nat>, x: nat)
    requires |a| == |b|
    ensures Compatible(a + [x], b + [1]) <==> Compatible(a, b)
    ensures Compatible(a, b) ==> BroadcastDims(a + [x], b + [1]) == BroadcastDims(a, b) + [x]
  {
    assert BroadcastDim(x, 1) == Some(x);
    if Compatible(a + [x], b + [1]) {
      forall k | 0 <= k < |a| ensures BroadcastDim(a[k], b[k]).Some? {
        assert BroadcastDim((a + [x])[k], (b + [1])[k]).Some?;
      }
    }
  }

  /** The entry of the multiplier that applies to row `q`. */
  function RowFactor(m: seq<nat>, q: seq<nat>): seq<nat>
    requires |m| <= |q| + 1
  {
    BroadcastIdx(m, q + [0])
  }

  lemma RowIdx(s: seq<nat>, x: nat, m: seq<nat>, q: seq<nat>, k: nat)
    requires |s| == |q| && k < x && |m| <= |q| + 1 && (m == [] || m[|m| - 1] == 1)
    requires InBounds(s + [x], BroadcastIdx(s + [x], q + [k]))
    ensures BroadcastIdx(s + [x], q + [k]) == BroadcastIdx(s, q) + [k] && InBounds(s, BroadcastIdx(s, q))
    ensures BroadcastIdx(m, q + [k]) == RowFactor(m, q)
  {
    var src := BroadcastIdx(s + [x], q + [k]);
    assert src == BroadcastIdx(s, q) + [k];
    forall i | 0 <= i < |s| ensures BroadcastIdx(s, q)[i] < s[i] { assert src[i] < (s + [x])[i]; }
  }

  /** A broadcast product with a row multiplier, entry by entry. */
  lemma TimesRow(t: Tensor, m: Tensor, r: Tensor, s: seq<nat>, x: nat, q: seq<nat>, k: nat)
    requires t.Valid() && m.Valid() && Times(t, m) == Some(r) && t.shape == s + [x] && |q| == |s| && k < x
    requires |m.shape| <= |s| + 1 && (m.shape == [] || m.shape[|m.shape| - 1] == 1)
    requires InBounds(r.shape, q + [k])
    ensures InBounds(s, BroadcastIdx(s, q)) && InBounds(m.shape, RowFactor(m.shape, q))
    ensures InBounds(t.shape, BroadcastIdx(s, q) + [k])
    ensures r.At(q + [k]) == t.At(BroadcastIdx(s, q) + [k]) * m.At(RowFactor(m.shape, q))
  {
    hide Flat, Prod, BroadcastShape, BroadcastIdx, RowFactor, Tensor.At;
    assert r.At(q + [k]) == TimesAt(t, m, q + [k]);
    BroadcastInBounds(t.shape, m.shape, q + [k]);
    RowIdx(s, x, m.shape, q, k);
  }

  lemma {:induction false} TotalScaled(s: seq<real>, t: seq<real>, c: real)
    requires |s| == |t| && forall k | 0 <= k < |s| :: s[k] == t[k] * c
    ensures Total(s) == Total(t) * c
  {
    if s == [] {
    } else {
      TotalScaled(s[1..], t[1..], c);
      DistributeReal(t[0], Total(t[1..]), c);
    }
  }

  lemma DistributeReal(x: real, y: real, c: real)
    ensures x * c + y * c == (x + y) * c
  {
  }

  predicate Scaled(p: Lora, m: Tensor, s: Lora) {
    && p.Valid() && p.LeadOnes() && p.Broadcasts() && s.Valid() && s.LeadOnes() && s.Broadcasts()
    && m.Valid() && |m.shape| <= |p.B.shape| && (m.shape == [] || m.shape[|m.shape| - 1] == 1)
    && s.A == p.A && Times(p.B, m) == Some(s.B) && s.Rank() == p.Rank() && |s.Outer()| == |p.Outer()|
  }

  lemma ScaledBEntry(p: Lora, m: Tensor, s: Lora, q: seq<nat>, k: nat)
    requires Scaled(p, m, s) && InBounds(s.Outer(), q) && k < p.Rank()
    ensures InBounds(p.Outer(), BroadcastIdx(p.Outer(), q)) && InBounds(m.shape, RowFactor(m.shape, q))
    ensures s.BAt(q, k) == p.BAt(BroadcastIdx(p.Outer(), q), k) * m.At(RowFactor(m.shape, q))
  {
    hide Flat, Prod, Times, Tensor.At, RowFactor, BroadcastIdx, Fills;
    OnesBroadcast(s);
    OnesBroadcast(p);
    assert InBounds(s.B.shape, q + [k]);
    TimesRow(p.B, m, s.B, p.Outer(), p.Rank(), q, k);
  }

  lemma ScaledAEntry(p: Lora, m: Tensor, s: Lora, q: seq<nat>, j: nat, k: nat)
    requires Scaled(p, m, s) && InBounds(s.Outer(), q) && j < s.Cols() && k < p.Rank()
    requires InBounds(p.Outer(), BroadcastIdx(p.Outer(), q))
    ensures s.AAt(q, k, j) == p.AAt(BroadcastIdx(p.Outer(), q), k, j)
  {
    hide Flat, Prod, Times;
    AAtOnes(s, q, k, j);
    AAtOnes(p, BroadcastIdx(p.Outer(), q), k, j);
  }

  lemma ScaledTerm(p: Lora, m: Tensor, s: Lora, q: seq<nat>, j: nat, k: nat)
    requires Scaled(p, m, s) && InBounds(s.Outer(), q) && j < s.Cols() && k < p.Rank()
    requires InBounds(p.Outer(), BroadcastIdx(p.Outer(), q)) && InBounds(m.shape, RowFactor(m.shape, q))
    ensures s.Terms(q, j)[k] == p.Terms(BroadcastIdx(p.Outer(), q), j)[k] * m.At(RowFactor(m.shape, q))
  {
    hide Lora.BAt, Lora.AAt, Times, Tensor.At, BroadcastIdx, RowFactor;
    var src := BroadcastIdx(p.Outer(), q);
    ScaledBEntry(p, m, s, q, k);
    ScaledAEntry(p, m, s, q, j, k);
    TermsAt(s, q, j, k);
    TermsAt(p, src, j, k);
    Rotate(p.BAt(src, k), m.At(RowFactor(m.shape, q)), p.AAt(src, k, j));
  }

  lemma Rotate(x: real, c: real, y: real)
    ensures (x * c) * y == (x * y) * c
  {
  }

  lemma ScaledTotal(p: Lora, m: Tensor, s: Lora, q: seq<nat>, j: nat)
    requires Scaled(p, m, s) && InBounds(s.Outer(), q) && j < s.Cols()
    requires InBounds(p.Outer(), BroadcastIdx(p.Outer(), q)) && InBounds(m.shape, RowFactor(m.shape, q))
    ensures Total(s.Terms(q, j)) == Total(p.Terms(BroadcastIdx(p.Outer(), q), j)) * m.At(RowFactor(m.shape, q))
  {
    hide Lora.BAt, Lora.AAt, Lora.Terms, Times, Tensor.At, BroadcastIdx, RowFactor, Flat, Prod, Total;
    var src, c := BroadcastIdx(p.Outer(), q), m.At(RowFactor(m.shape, q));
    forall k: nat | k < p.Rank() ensures s.Terms(q, j)[k] == p.Terms(src, j)[k] * c {
      ScaledTerm(p, m, s, q, j, k);
    }
    TotalScaled(s.Terms(q, j), p.Terms(src, j), c);
  }

  /** Entry (q, j) of the scaled product. */
  lemma ScaledAt(p: Lora, m: Tensor, s: Lora, q: seq<nat>, j: nat)
    requires Scaled(p, m, s) && InBounds(s.Outer(), q) && j < s.Cols()
    requires InBounds(p.Outer(), BroadcastIdx(p.Outer(), q)) && InBounds(m.shape, RowFactor(m.shape, q))
    ensures InBounds(s.Shape(), q + [j]) && InBounds(p.Shape(), BroadcastIdx(p.Outer(), q) + [j])
    ensures s.Mat().At(q + [j])
      == p.Mat().At(BroadcastIdx(p.Outer(), q) + [j]) * m.At(RowFactor(m.shape, q))
  {
    hide Lora.BAt, Lora.AAt, Lora.Terms, Lora.Mat, Times, Tensor.At, BroadcastIdx, RowFactor, Flat, Prod, Total;
    var src := BroadcastIdx(p.Outer(), q);
    ScaledTotal(p, m, s, q, j);
    MatAt(s, q, j);
    MatAt(p, src, j);
    Replace(s.Mat().At(q + [j]), Total(p.Terms(src, j)), p.Mat().At(src + [j]), m.At(RowFactor(m.shape, q)));
  }

  lemma Replace(x: real, y: real, z: real, c: real)
    requires x == y * c && y == z
    ensures x == z * c
  {
  }

  /** Scaling B on the output side scales the dense product, by a scalar or row by row. */
  lemma ScaleRefines(p: Lora, m: Tensor)
    requires p.Valid() && p.LeadOnes() && p.Broadcasts() && m.Valid()
    ensures ScalePair(p, m).Some? <==>
      && Times(p.Mat(), m).Some? && |m.shape| <= |p.B.shape|
      && (m.shape == [] || m.shape[|m.shape| - 1] == 1)
    ensures ScalePair(p, m).Some? ==>
      var s := ScalePair(p, m).value;
      s.LeadOnes() && s.Broadcasts() && s.Rank() == p.Rank() && Times(p.Mat(), m) == Some(s.Mat())
  {
    hide Flat, Prod, BroadcastShape, Lora.Mat, Fills;
    if |m.shape| <= |p.B.shape| && (m.shape == [] || m.shape[|m.shape| - 1] == 1) {
      OnesBroadcast(p);
      BroadcastLast(p.Outer(), p.Rank(), m.shape);
      BroadcastLast(p.Outer(), p.Cols(), m.shape);
      if Times(p.B, m).Some? {
        var s := Lora(p.A, Times(p.B, m).value);
        OnesBroadcast(s);
        ScaledMat(p, m, s, Times(p.Mat(), m).value);
      }
    }
  }

  lemma ScaledMat(p: Lora, m: Tensor, s: Lora, w: Tensor)
    requires Scaled(p, m, s) && Times(p.Mat(), m) == Some(w) && w.shape == s.Shape()
    ensures s.Mat() == w
  {
    hide Flat, Prod, Times, Tensor.At, BroadcastIdx, RowFactor, Lora.Mat;
    forall idx | InBounds(s.Shape(), idx) ensures s.Mat().At(idx) == w.At(idx) {
      SplitIdx(s, idx);
      var q, j := idx[..|idx| - 1], idx[|idx| - 1];
      TimesRow(p.Mat(), m, w, p.Outer(), p.Cols(), q, j);
      ScaledAt(p, m, s, q, j);
    }
    TensorsEqual(s.Mat(), w);
  }
}
