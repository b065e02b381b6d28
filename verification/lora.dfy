/**
 `LoraTorchTensor`: a matrix (or a batch of matrices) W = B @ A kept as its two
 factors, with torch's shape operations re-implemented on the factors.
 */
module LoraTensors {
  import opened Wrappers
  import opened Sequences
  import opened Tensors
  import opened TorchOps

  function Total(terms: seq<real>): real {
    if terms == [] then 0.0 else terms[0] + Total(terms[1..])
  }

  function Fills(n: nat, v: nat): (z: seq<nat>)
    ensures |z| == n
  {
    if n == 0 then [] else [v] + Fills(n - 1, v)
  }

  lemma {:induction false} FillsAt(n: nat, v: nat, i: nat)
    requires i < n
    ensures Fills(n, v)[i] == v
  {
    if i > 0 { FillsAt(n - 1, v, i - 1); }
  }

  datatype Lora = Lora(A: Tensor, B: Tensor) {

    predicate Valid() {
      && A.Valid() && B.Valid()
      && |A.shape| == |B.shape| >= 2
      && A.shape[|A.shape| - 2] == B.shape[|B.shape| - 1]
    }

    /** Number of batch dimensions in front of the two matrix dimensions. */
    function Leads(): nat
      requires Valid()
    {
      |A.shape| - 2
    }

    function Rank(): nat
      requires Valid()
    {
      B.shape[|B.shape| - 1]
    }

    function Cols(): nat
      requires Valid()
    {
      A.shape[|A.shape| - 1]
    }

    /** Every dimension of W but the last. */
    function Outer(): seq<nat>
      requires Valid()
    {
      B.shape[..|B.shape| - 1]
    }

    /** The `shape` property. */
    function Shape(): seq<nat>
      requires Valid()
    {
      Outer() + [Cols()]
    }

    /** The leading dimensions of A can be broadcast against those of B, as `B @ A` needs. */
    predicate Broadcasts()
      requires Valid()
    {
      forall i | 0 <= i < Leads() :: A.shape[i] == 1 || A.shape[i] == Outer()[i]
    }

    /** The invariant that `permute`, tuple indexing and `split` rely on. */
    predicate LeadOnes()
      requires Valid()
    {
      A.shape[..Leads()] == Fills(Leads(), 1)
    }

    function BAt(q: seq<nat>, k: nat): real
      requires Valid() && InBounds(Outer(), q) && k < Rank()
    {
      assert B.shape == Outer() + [Rank()];
      B.At(q + [k])
    }

    function ALead(q: seq<nat>): (r: seq<nat>)
      requires Valid() && |q| == |Outer()|
      ensures |r| == Leads()
    {
      seq(Leads(), i requires 0 <= i < Leads() => if A.shape[i] == 1 then 0 else q[i])
    }

    function AAt(q: seq<nat>, k: nat, j: nat): real
      requires Valid() && Broadcasts() && InBounds(Outer(), q) && k < Rank() && j < Cols()
    {
      assert InBounds(A.shape, ALead(q) + [k, j]);
      A.At(ALead(q) + [k, j])
    }

    /** The products whose sum is entry (q, j) of B @ A. */
    function Terms(q: seq<nat>, j: nat): (r: seq<real>)
      requires Valid() && Broadcasts() && InBounds(Outer(), q) && j < Cols()
      ensures |r| == Rank()
    {
      seq(Rank(), k requires 0 <= k < Rank() => BAt(q, k) * AAt(q, k, j))
    }

    /** The dense tensor the pair stands for: the batched matrix product B @ A. */
    function Mat(): (t: Tensor)
      requires Valid() && Broadcasts()
      ensures t.Valid() && t.shape == Shape()
    {
      Build(Shape(), idx requires InBounds(Shape(), idx) =>
        (SplitIdx(this, idx); Total(Terms(idx[..|idx| - 1], idx[|idx| - 1]))))
    }
  }

  lemma SplitIdx(p: Lora, idx: seq<nat>)
    requires p.Valid() && InBounds(p.Shape(), idx)
    ensures idx != [] && InBounds(p.Outer(), idx[..|idx| - 1]) && idx[|idx| - 1] < p.Cols()
    ensures idx == idx[..|idx| - 1] + [idx[|idx| - 1]]
  {
    assert p.Shape()[..|idx| - 1] == p.Outer();
    assert p.Shape()[|idx| - 1] == p.Cols();
    forall i | 0 <= i < |idx| - 1 ensures idx[i] < p.Outer()[i] { assert p.Shape()[i] == p.Outer()[i]; }
  }

  lemma MatAt(p: Lora, q: seq<nat>, j: nat)
    requires p.Valid() && p.Broadcasts() && InBounds(p.Outer(), q) && j < p.Cols()
    ensures InBounds(p.Shape(), q + [j]) && p.Mat().At(q + [j]) == Total(p.Terms(q, j))
  {
    var idx := q + [j];
    assert idx[..|idx| - 1] == q;
  }

  lemma TermsAt(p: Lora, q: seq<nat>, j: nat, k: nat)
    requires p.Valid() && p.Broadcasts() && InBounds(p.Outer(), q) && j < p.Cols() && k < p.Rank()
    ensures p.Terms(q, j)[k] == p.BAt(q, k) * p.AAt(q, k, j)
  {
  }

  /** Equal factor entries give equal products, and equal products equal entries of W. */
  lemma TermSame(p: Lora, q: seq<nat>, j: nat, p': Lora, q': seq<nat>, j': nat, k: nat)
    requires p.Valid() && p.Broadcasts() && InBounds(p.Outer(), q) && j < p.Cols() && k < p.Rank()
    requires p'.Valid() && p'.Broadcasts() && InBounds(p'.Outer(), q') && j' < p'.Cols() && k < p'.Rank()
    requires p.BAt(q, k) == p'.BAt(q', k) && p.AAt(q, k, j) == p'.AAt(q', k, j')
    ensures p.Terms(q, j)[k] == p'.Terms(q', j')[k]
  {
    TermsAt(p, q, j, k);
    TermsAt(p', q', j', k);
  }

  lemma MatSame(p: Lora, q: seq<nat>, j: nat, p': Lora, q': seq<nat>, j': nat)
    requires p.Valid() && p.Broadcasts() && InBounds(p.Outer(), q) && j < p.Cols()
    requires p'.Valid() && p'.Broadcasts() && InBounds(p'.Outer(), q') && j' < p'.Cols()
    requires p.Rank() == p'.Rank()
    requires forall k: nat | k < p.Rank() :: p.Terms(q, j)[k] == p'.Terms(q', j')[k]
    ensures InBounds(p.Shape(), q + [j]) && InBounds(p'.Shape(), q' + [j'])
    ensures p.Mat().At(q + [j]) == p'.Mat().At(q' + [j'])
  {
    assert p.Terms(q, j) == p'.Terms(q', j');
    MatAt(p, q, j);
    MatAt(p', q', j');
  }

  /** `__init__`: the two assertions on the shapes. */
  function Make(a: Tensor, b: Tensor): (r: Option<Lora>)
    requires a.Valid() && b.Valid()
    ensures r.Some? ==> r.value.Valid() && r.value.A == a && r.value.B == b
  {
    if |a.shape| == |b.shape| >= 2 && a.shape[|a.shape| - 2] == b.shape[|b.shape| - 1]
    then Some(Lora(a, b))
    else None
  }

  // ---------- __getitem__ ----------

  /** The batch components applied to A: integers modulo A's size, slices left whole. */
  function AUnit(aLead: seq<nat>, lead: seq<Ix>): (r: seq<Ix>)
    requires |lead| == |aLead|
    requires forall i | 0 <= i < |lead| :: lead[i].Int? ==> aLead[i] != 0
    ensures |r| == |lead|
  {
    seq(|lead|, i requires 0 <= i < |lead| => if lead[i].Int? then Int(lead[i].j % aLead[i]) else ALL)
  }

  /** `__getitem__` on a tuple without Ellipsis. */
  function GetItem(p: Lora, ixs: seq<Ix>): (r: Option<Lora>)
    requires p.Valid()
    ensures r.Some? ==> r.value.Valid()
  {
    var rank := |p.A.shape|;
    if ixs == [] || |ixs| > rank then None
    else
      var full := Pad(ixs, rank);
      if exists i | 0 <= i < rank - 2 :: full[i].Int? && p.A.shape[i] == 0 then None
      else
        var a := Index(p.A, AUnit(p.A.shape[..rank - 2], full[..rank - 2]) + [ALL] + [full[rank - 1]]);
        var b := Index(p.B, full[..rank - 1]);
        if a.Some? && b.Some? then Make(a.value, b.value) else None
  }

  /** `__getitem__` on a single integer: only with batch dimensions, applied to both factors. */
  function GetInt(p: Lora, j: int): (r: Option<Lora>)
    requires p.Valid()
    ensures r.Some? ==> r.value.Valid()
  {
    if |p.A.shape| <= 2 then None
    else
      var a, b := Index(p.A, [Int(j)]), Index(p.B, [Int(j)]);
      if a.Some? && b.Some? then Make(a.value, b.value) else None
  }

  // ---------- reshape, permute, transpose ----------

  /** `reshape`, first step: every -1 becomes the quotient of the element counts. */
  function FillDims(dims: seq<int>, total: nat): (r: Option<seq<int>>)
    ensures r.Some? ==> |r.value| == |dims|
  {
    if !exists k | 0 <= k < |dims| :: dims[k] == -1 then Some(dims)
    else if Known(dims) == 0 || total % Known(dims) != 0 then None
    else Some(Fill(dims, total / Known(dims)))
  }

  /** `reshape`, second step: B takes the new outer dimensions, A becomes one matrix. */
  function Regroup(p: Lora, target: seq<int>): (r: Option<Lora>)
    requires p.Valid() && |target| >= 2
    ensures r.Some? ==> r.value.Valid()
  {
    var n := |target|;
    if target[n - 1] != p.Cols() then None
    else
      var a := Reshape(p.A, seq(n - 2, _ => 1) + [p.Rank(), p.Cols()]);
      var b := Reshape(p.B, target[..n - 1] + [p.Rank()]);
      if a.Some? && b.Some? then Make(a.value, b.value) else None
  }

  function ReshapePair(p: Lora, dims: seq<int>): (r: Option<Lora>)
    requires p.Valid()
    ensures r.Some? ==> r.value.Valid()
  {
    if |dims| < 2 then None
    else
      var target := FillDims(dims, Prod(p.Shape()));
      if target.None? then None else Regroup(p, target.value)
  }

  /** `permute` renumbers every dimension from the end before it looks at them. */
  function FromEnd(dims: seq<int>, rank: nat): (r: seq<int>)
    ensures |r| == |dims|
  {
    seq(|dims|, d requires 0 <= d < |dims| => if dims[d] >= 0 then dims[d] - rank else dims[d])
  }

  function PermutePair(p: Lora, dims: seq<int>): (r: Option<Lora>)
    requires p.Valid()
    ensures r.Some? ==> r.value.Valid()
  {
    var rank := |p.A.shape|;
    var e := FromEnd(dims, rank);
    var n := |e|;
    if n == 0 then None
    else if e[n - 1] == -1 then
      if !p.LeadOnes() then None
      else
        var b := Permute(p.B, e);
        if b.Some? then Make(p.A, b.value) else None
    else if rank == 2 && n >= 2 && e[n - 1] == -2 && e[n - 2] == -1 then
      var a, b := Permute(p.B, e), Permute(p.A, e);
      if a.Some? && b.Some? then Make(a.value, b.value) else None
    else None
  }

  /** `transpose` / `swapaxes`: the identity with two dimensions exchanged. */
  function SwapDims(rank: nat, d0: int, d1: int): Option<seq<int>> {
    var x, y := Wrap(d0, rank), Wrap(d1, rank);
    if 0 <= x < rank && 0 <= y < rank
    then Some(seq(rank, k requires 0 <= k < rank => if k == x then y else if k == y then x else k))
    else None
  }

  function SwapPair(p: Lora, d0: int, d1: int): (r: Option<Lora>)
    requires p.Valid()
    ensures r.Some? ==> r.value.Valid()
  {
    var dims := SwapDims(|p.A.shape|, d0, d1);
    if dims.None? then None else PermutePair(p, dims.value)
  }

  // ---------- __mul__ ----------

  /** Multiplication by a scalar (rank 0) or by a tensor whose last dimension is 1. */
  function ScalePair(p: Lora, m: Tensor): (r: Option<Lora>)
    requires p.Valid() && m.Valid()
    ensures r.Some? ==> r.value.Valid()
  {
    if m.shape != [] && m.shape[|m.shape| - 1] != 1 then None
    else
      var b := Times(p.B, m);
      if b.None? then None else Make(p.A, b.value)
  }

  // ---------- split, cat, stack ----------

  function MakeAll(a: seq<Tensor>, b: seq<Tensor>): (r: Option<seq<Lora>>)
    requires |a| == |b|
    requires forall k | 0 <= k < |a| :: a[k].Valid() && b[k].Valid()
    ensures r.Some? ==> |r.value| == |a| && forall k | 0 <= k < |a| :: r.value[k].Valid()
  {
    if forall k | 0 <= k < |a| :: Make(a[k], b[k]).Some?
    then Some(seq(|a|, k requires 0 <= k < |a| => Make(a[k], b[k]).value))
    else None
  }

  /** `split` along any dimension of W; the same cut is applied to the factor that has it. */
  function SplitPair(p: Lora, cut: Cut, dim: int): (r: Option<seq<Lora>>)
    requires p.Valid()
    ensures r.Some? ==> forall k | 0 <= k < |r.value| :: r.value[k].Valid()
  {
    var n := |p.A.shape|;
    var d := Wrap(dim, n);
    if d == n - 1 then
      var a := Split(p.A, cut, -1);
      if a.None? then None else MakeAll(a.value, seq(|a.value|, _ => p.B))
    else if d == n - 2 then
      var b := Split(p.B, cut, -2);
      if b.None? then None else MakeAll(seq(|b.value|, _ => p.A), b.value)
    else
      var b := Split(p.B, cut, d);
      if b.None? then None
      else if p.A.shape[Wrap(d, n)] == 1 then MakeAll(seq(|b.value|, _ => p.A), b.value)
      else
        var a := Split(p.A, cut, d);
        if a.None? then None
        else
          var m := if |a.value| < |b.value| then |a.value| else |b.value|;
          MakeAll(a.value[..m], b.value[..m])
  }

  function As(ps: seq<Lora>): (r: seq<Tensor>)
    requires forall k | 0 <= k < |ps| :: ps[k].Valid()
    ensures |r| == |ps| && forall k | 0 <= k < |r| :: r[k] == ps[k].A && r[k].Valid()
  {
    var r := seq(|ps|, k requires 0 <= k < |ps| => ps[k].A);
    assert forall k | 0 <= k < |ps| :: ps[k].Valid() && r[k] == ps[k].A;
    r
  }

  function Bs(ps: seq<Lora>): (r: seq<Tensor>)
    requires forall k | 0 <= k < |ps| :: ps[k].Valid()
    ensures |r| == |ps| && forall k | 0 <= k < |r| :: r[k] == ps[k].B && r[k].Valid()
  {
    var r := seq(|ps|, k requires 0 <= k < |ps| => ps[k].B);
    assert forall k | 0 <= k < |ps| :: ps[k].Valid() && r[k] == ps[k].B;
    r
  }

  /** `torch.cat` along dimension 0: matrices must share A, batches concatenate both factors. */
  function CatPairs(ps: seq<Lora>): (r: Option<Lora>)
    requires forall k | 0 <= k < |ps| :: ps[k].Valid()
    ensures r.Some? ==> r.value.Valid()
  {
    if ps == [] then None
    else
      var b := Cat(Bs(ps));
      if |ps[0].A.shape| > 2 then
        var a := Cat(As(ps));
        if a.Some? && b.Some? then Make(a.value, b.value) else None
      else if forall k | 1 <= k < |ps| :: ps[k].A == ps[0].A then
        if b.Some? then Make(As(ps)[0], b.value) else None
      else None
  }

  /** `torch.stack` along dimension 0. */
  function StackPairs(ps: seq<Lora>): (r: Option<Lora>)
    requires forall k | 0 <= k < |ps| :: ps[k].Valid()
    ensures r.Some? ==> r.value.Valid()
  {
    var a, b := Stack(As(ps)), Stack(Bs(ps));
    if a.Some? && b.Some? then Make(a.value, b.value) else None
  }

  // ---------- the unit-batch invariant ----------

  lemma OnesBroadcast(p: Lora)
    requires p.Valid() && p.LeadOnes()
    ensures p.Broadcasts()
    ensures p.A.shape == Fills(p.Leads(), 1) + [p.Rank()] + [p.Cols()]
    ensures p.B.shape == p.Outer() + [p.Rank()]
    ensures p.Shape() == p.Outer() + [p.Cols()]
  {
    forall i | 0 <= i < p.Leads() ensures p.A.shape[i] == 1 {
      FillsAt(p.Leads(), 1, i);
      assert p.A.shape[..p.Leads()][i] == 1;
    }
  }

  /** With unit batch dimensions, every batch reads the same entries of A. */
  lemma AAtOnes(p: Lora, q: seq<nat>, k: nat, j: nat)
    requires p.Valid() && p.LeadOnes() && p.Broadcasts() && InBounds(p.Outer(), q) && k < p.Rank() && j < p.Cols()
    ensures InBounds(p.A.shape, Fills(p.Leads(), 0) + [k] + [j])
    ensures p.AAt(q, k, j) == p.A.At(Fills(p.Leads(), 0) + [k] + [j])
  {
    forall i | 0 <= i < p.Leads() ensures p.ALead(q)[i] == Fills(p.Leads(), 0)[i] {
      FillsAt(p.Leads(), 1, i);
      FillsAt(p.Leads(), 0, i);
      assert p.A.shape[..p.Leads()][i] == 1;
    }
    assert p.ALead(q) == Fills(p.Leads(), 0);
    assert p.ALead(q) + [k, j] == Fills(p.Leads(), 0) + [k] + [j];
  }
}
