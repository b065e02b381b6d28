/**
 The torch tensor operations used by the LoRA converter, on dense tensors.
 An operation that torch refuses (by raising) yields `None`.
 */
module TorchOps {
  import opened Wrappers
  import opened Arithmetic
  import opened Sequences
  import opened Tensors

  // ---------- indexing by integers and slices ----------

  /** One component of a tuple index: an integer, or a slice `lo:hi:step`. */
  datatype Ix = Int(j: int) | Slice(lo: Option<int>, hi: Option<int>, step: int)

  const ALL := Slice(None, None, 1)

  /** A component resolved against a dimension: one position, or an arithmetic progression. */
  datatype Sel = Pick(at: nat) | Range(start: nat, step: nat, len: nat) {
    predicate Fits(n: nat) {
      match this
      case Pick(j) => j < n
      case Range(start, step, len) => len == 0 || start + (len - 1) * step < n
    }

    function Source(i: nat): nat {
      match this
      case Pick(j) => j
      case Range(start, step, len) => start + i * step
    }
  }

  lemma SourceFits(sel: Sel, n: nat, i: nat)
    requires sel.Fits(n) && (sel.Range? ==> i < sel.len)
    ensures sel.Source(i) < n
  {
    if sel.Range? { MulMono(i, sel.len - 1, sel.step); }
  }

  function Resolve(ix: Ix, n: nat): (r: Option<Sel>)
    ensures r.Some? ==> r.value.Fits(n) && (r.value.Pick? <==> ix.Int?)
  {
    match ix
    case Int(j) =>
      if -(n as int) <= j < n then Some(Pick(if j < 0 then j + n else j)) else None
    case Slice(lo, hi, step) =>
      if step <= 0 then None
      else
        var a := if lo.None? then 0 else Bound(lo.value, n);
        var b := if hi.None? then n else Bound(hi.value, n);
        if b <= a then Some(Range(a, step, 0))
        else
          SliceCount(b - a, step);
          Some(Range(a, step, (b - a + step - 1) / step))
  }

  lemma DivSum(d: nat, step: nat)
    requires step > 0
    ensures (d + step) / step == d / step + 1
  {
    DivUnique(d + step, d / step + 1, step, d % step) by { Distribute(1, d / step, 1, step); }
  }

  lemma SliceCount(d: nat, step: nat)
    requires d > 0 && step > 0
    ensures (d + step - 1) / step > 0 && ((d + step - 1) / step - 1) * step < d
  {
    var c := (d + step - 1) / step;
    DivSum(d - 1, step);
    assert (c - 1) * step == (d - 1) / step * step <= d - 1;
  }

  predicate AllFit(sels: seq<Sel>, shape: seq<nat>) {
    |sels| == |shape| && forall k | 0 <= k < |sels| :: sels[k].Fits(shape[k])
  }

  /** The shape after indexing: integer components drop their dimension. */
  function SelShape(sels: seq<Sel>): seq<nat> {
    if sels == [] then []
    else (if sels[0].Pick? then [] else [sels[0].len]) + SelShape(sels[1..])
  }

  /** Where an entry of the indexed tensor comes from. */
  function Expand(sels: seq<Sel>, idx: seq<nat>): (src: seq<nat>)
    requires |idx| == |SelShape(sels)|
    ensures |src| == |sels|
  {
    if sels == [] then []
    else if sels[0].Pick? then [sels[0].at] + Expand(sels[1..], idx)
    else [sels[0].Source(idx[0])] + Expand(sels[1..], idx[1..])
  }

  lemma {:induction false} ExpandInBounds(sels: seq<Sel>, shape: seq<nat>, idx: seq<nat>)
    requires AllFit(sels, shape) && InBounds(SelShape(sels), idx)
    ensures InBounds(shape, Expand(sels, idx))
  {
    if sels == [] {
    } else {
      var rest := if sels[0].Pick? then idx else idx[1..];
      ExpandInBounds(sels[1..], shape[1..], rest);
      SourceFits(sels[0], shape[0], if sels[0].Pick? then 0 else idx[0]);
      assert Expand(sels, idx)[1..] == Expand(sels[1..], rest);
    }
  }

  lemma {:induction false} SelShapeConcat(a: seq<Sel>, b: seq<Sel>)
    ensures SelShape(a + b) == SelShape(a) + SelShape(b)
  {
    if a == [] {
      assert a + b == b;
    } else {
      assert (a + b)[1..] == a[1..] + b;
      SelShapeConcat(a[1..], b);
    }
  }

  lemma {:induction false} ExpandConcat(a: seq<Sel>, b: seq<Sel>, i: seq<nat>, j: seq<nat>)
    requires |i| == |SelShape(a)| && |j| == |SelShape(b)|
    ensures |i + j| == |SelShape(a + b)|
    ensures Expand(a + b, i + j) == Expand(a, i) + Expand(b, j)
  {
    SelShapeConcat(a, b);
    if a == [] {
      assert a + b == b && i + j == j;
    } else {
      var head, tail := a[0], a[1..];
      assert a == [head] + tail && a + b == [head] + (tail + b);
      SelShapeConcat(tail, b);
      var rest := if head.Pick? then i else i[1..];
      ExpandConcat(tail, b, rest, j);
      ExpandStep(head, tail, b, i, rest, j);
    }
  }

  lemma ExpandStep(head: Sel, tail: seq<Sel>, b: seq<Sel>, i: seq<nat>, rest: seq<nat>, j: seq<nat>)
    requires |i| == |SelShape([head] + tail)| && |i + j| == |SelShape([head] + (tail + b))|
    requires |rest| == |SelShape(tail)| && |j| == |SelShape(b)| && |rest + j| == |SelShape(tail + b)|
    requires i == (if head.Pick? then rest else [i[0]] + rest)
    requires Expand(tail + b, rest + j) == Expand(tail, rest) + Expand(b, j)
    ensures Expand([head] + (tail + b), i + j) == Expand([head] + tail, i) + Expand(b, j)
  {
    hide SelShape, Expand, Sel.Source;
    ExpandCons(head, tail, i);
    ExpandCons(head, tail + b, i + j);
    assert (if head.Pick? then i + j else (i + j)[1..]) == rest + j;
  }

  lemma ExpandCons(head: Sel, tail: seq<Sel>, idx: seq<nat>)
    requires |idx| == |SelShape([head] + tail)|
    ensures |idx| == |SelShape(tail)| + if head.Pick? then 0 else 1
    ensures head.Pick? ==> Expand([head] + tail, idx) == [head.at] + Expand(tail, idx)
    ensures head.Range? ==> Expand([head] + tail, idx) == [head.Source(idx[0])] + Expand(tail, idx[1..])
  {
    assert ([head] + tail)[1..] == tail;
  }

  function Select(t: Tensor, sels: seq<Sel>): (r: Tensor)
    requires t.Valid() && AllFit(sels, t.shape)
    ensures r.Valid() && r.shape == SelShape(sels)
    ensures forall idx | InBounds(r.shape, idx) ::
      InBounds(t.shape, Expand(sels, idx)) && r.At(idx) == t.At(Expand(sels, idx))
  {
    assert forall idx | InBounds(SelShape(sels), idx) :: InBounds(t.shape, Expand(sels, idx)) by {
      forall idx | InBounds(SelShape(sels), idx) ensures InBounds(t.shape, Expand(sels, idx)) {
        ExpandInBounds(sels, t.shape, idx);
      }
    }
    Build(SelShape(sels), idx requires InBounds(SelShape(sels), idx) => t.At(Expand(sels, idx)))
  }

  /** Missing components are full slices. */
  function Pad(ixs: seq<Ix>, rank: nat): seq<Ix>
    requires |ixs| <= rank
  {
    ixs + seq(rank - |ixs|, _ => ALL)
  }

  predicate Resolvable(ixs: seq<Ix>, shape: seq<nat>)
    requires |ixs| == |shape|
  {
    forall k | 0 <= k < |ixs| :: Resolve(ixs[k], shape[k]).Some?
  }

  function Sels(ixs: seq<Ix>, shape: seq<nat>): (sels: seq<Sel>)
    requires |ixs| == |shape| && Resolvable(ixs, shape)
    ensures AllFit(sels, shape)
  {
    seq(|ixs|, k requires 0 <= k < |ixs| => Resolve(ixs[k], shape[k]).value)
  }

  function Index(t: Tensor, ixs: seq<Ix>): (r: Option<Tensor>)
    requires t.Valid()
    ensures r.Some? ==> r.value.Valid()
  {
    if |ixs| > |t.shape| then None
    else
      var full := Pad(ixs, |t.shape|);
      if Resolvable(full, t.shape) then Some(Select(t, Sels(full, t.shape))) else None
  }

  // ---------- reshape ----------

  /** Product of the requested dimensions, counting an inferred one as 1. */
  function Known(dims: seq<int>): int {
    if dims == [] then 1 else (if dims[0] == -1 then 1 else dims[0]) * Known(dims[1..])
  }

  function Inferred(dims: seq<int>): nat {
    if dims == [] then 0 else (if dims[0] == -1 then 1 else 0) + Inferred(dims[1..])
  }

  /** Every -1 replaced by `v`. */
  function Fill(dims: seq<int>, v: int): (r: seq<int>)
    ensures |r| == |dims|
  {
    seq(|dims|, k requires 0 <= k < |dims| => if dims[k] == -1 then v else dims[k])
  }

  predicate NonNegative(dims: seq<int>) {
    forall k | 0 <= k < |dims| :: dims[k] >= 0
  }

  function AsShape(dims: seq<int>): (s: seq<nat>)
    requires NonNegative(dims)
    ensures |s| == |dims| && forall k | 0 <= k < |dims| :: s[k] == dims[k]
  {
    seq(|dims|, k requires 0 <= k < |dims| => dims[k] as nat)
  }

  /** Row-major reshape: the data stays, at most one dimension is inferred. */
  function Reshape(t: Tensor, dims: seq<int>): (r: Option<Tensor>)
    requires t.Valid()
    ensures r.Some? ==> r.value.Valid() && r.value.data == t.data && |r.value.shape| == |dims|
  {
    var total := Prod(t.shape);
    var inferred := Inferred(dims);
    if inferred > 1 then None
    else if inferred == 1 && (Known(dims) <= 0 || total % Known(dims) != 0) then None
    else
      var concrete := if inferred == 1 then Fill(dims, total / Known(dims)) else dims;
      if NonNegative(concrete) && Prod(AsShape(concrete)) == total
      then Some(Tensor(AsShape(concrete), t.data))
      else None
  }

  // ---------- permute ----------

  /** A dimension number, counted from the end when negative. */
  function Wrap(d: int, rank: nat): int {
    if d < 0 then d + rank else d
  }

  /** Every dimension number occurs, exactly once. */
  predicate IsPermutation(p: seq<int>) {
    && (forall d | 0 <= d < |p| :: 0 <= p[d] < |p|)
    && (forall d, e | 0 <= d < e < |p| :: p[d] != p[e])
    && (forall e: int | 0 <= e < |p| :: e in p)
  }

  /** Position of `e` in `p`, or |p| when it is absent. */
  function IndexOf(p: seq<int>, e: int): (d: nat)
    ensures d <= |p| && (d < |p| ==> p[d] == e) && (d == |p| ==> e !in p)
  {
    if p == [] then 0 else if p[0] == e then 0 else 1 + IndexOf(p[1..], e)
  }

  /** Dimension `d` of the result is dimension `p[d]` of the operand. */
  function PermShape(p: seq<int>, shape: seq<nat>): seq<nat>
    requires IsPermutation(p) && |p| == |shape|
  {
    seq(|p|, d requires 0 <= d < |p| => shape[p[d]])
  }

  function PermSource(p: seq<int>, idx: seq<nat>): (src: seq<nat>)
    requires IsPermutation(p) && |idx| == |p|
    ensures |src| == |p| && forall d | 0 <= d < |p| :: src[p[d]] == idx[d]
  {
    seq(|p|, e requires 0 <= e < |p| => idx[IndexOf(p, e)])
  }

  lemma PermInBounds(p: seq<int>, shape: seq<nat>, idx: seq<nat>)
    requires IsPermutation(p) && |p| == |shape| && InBounds(PermShape(p, shape), idx)
    ensures InBounds(shape, PermSource(p, idx))
  {
    var src := PermSource(p, idx);
    forall e | 0 <= e < |shape| ensures src[e] < shape[e] {
      var d := IndexOf(p, e);
      assert src[p[d]] == idx[d] < PermShape(p, shape)[d];
    }
  }

  function Transposed(t: Tensor, p: seq<int>): (r: Tensor)
    requires t.Valid() && IsPermutation(p) && |p| == |t.shape|
    ensures r.Valid() && r.shape == PermShape(p, t.shape)
    ensures forall idx | InBounds(r.shape, idx) ::
      InBounds(t.shape, PermSource(p, idx)) && r.At(idx) == t.At(PermSource(p, idx))
  {
    assert forall idx | InBounds(PermShape(p, t.shape), idx) :: InBounds(t.shape, PermSource(p, idx)) by {
      forall idx | InBounds(PermShape(p, t.shape), idx) ensures InBounds(t.shape, PermSource(p, idx)) {
        PermInBounds(p, t.shape, idx);
      }
    }
    Build(PermShape(p, t.shape), idx requires InBounds(PermShape(p, t.shape), idx) => t.At(PermSource(p, idx)))
  }

  function WrapAll(dims: seq<int>): (p: seq<int>)
    ensures |p| == |dims|
  {
    seq(|dims|, d requires 0 <= d < |dims| => Wrap(dims[d], |dims|))
  }

  function Permute(t: Tensor, dims: seq<int>): (r: Option<Tensor>)
    requires t.Valid()
    ensures r.Some? ==> r.value.Valid() && |r.value.shape| == |t.shape|
  {
    if |dims| == |t.shape| && IsPermutation(WrapAll(dims)) then Some(Transposed(t, WrapAll(dims))) else None
  }

  // ---------- split ----------

  /** How to cut a dimension: equal pieces of one size, or a list of sizes. */
  datatype Cut = Every(size: int) | Sizes(sizes: seq<int>)

  function EvenSizes(n: nat, size: nat): (r: seq<nat>)
    requires size > 0
    ensures r != []
    decreases n
  {
    if n <= size then [n] else [size] + EvenSizes(n - size, size)
  }

  function Sum(s: seq<nat>): nat {
    if s == [] then 0 else s[0] + Sum(s[1..])
  }

  function PieceSizes(cut: Cut, n: nat): Option<seq<nat>> {
    match cut
    case Every(size) =>
      if size < 0 || (size == 0 && n != 0) then None
      else if size == 0 then Some([0])
      else Some(EvenSizes(n, size))
    case Sizes(sizes) =>
      if NonNegative(sizes) && Sum(AsShape(sizes)) == n then Some(AsShape(sizes)) else None
  }

  lemma {:induction false} EvenSizesSum(n: nat, size: nat)
    requires size > 0
    ensures Sum(EvenSizes(n, size)) == n
    decreases n
  {
    if n <= size {
      assert Sum([n]) == n + Sum([]);
    } else {
      EvenSizesSum(n - size, size);
      assert EvenSizes(n, size)[1..] == EvenSizes(n - size, size);
    }
  }

  lemma PieceSizesSum(cut: Cut, n: nat)
    requires PieceSizes(cut, n).Some?
    ensures Sum(PieceSizes(cut, n).value) == n
  {
    if cut.Every? && cut.size > 0 { EvenSizesSum(n, cut.size); }
    if cut.Every? && cut.size == 0 { assert Sum([0]) == 0 + Sum([]); }
  }

  /** Offset of piece `k`. */
  function Offset(sizes: seq<nat>, k: nat): nat
    requires k <= |sizes|
  {
    Sum(sizes[..k])
  }

  lemma {:induction false} SumSplit(s: seq<nat>, k: nat)
    requires k <= |s|
    ensures Sum(s) == Sum(s[..k]) + Sum(s[k..])
  {
    if k == 0 {
      assert s[k..] == s && s[..k] == [];
    } else {
      SumSplit(s[1..], k - 1);
      assert s[..k][1..] == s[1..][..k - 1] && s[1..][k - 1..] == s[k..];
    }
  }

  lemma OffsetFits(sizes: seq<nat>, k: nat)
    requires k < |sizes|
    ensures Offset(sizes, k) + sizes[k] == Offset(sizes, k + 1) <= Sum(sizes)
  {
    SumSplit(sizes, k + 1);
    SumSplit(sizes[..k + 1], k);
    assert sizes[..k + 1][..k] == sizes[..k] && sizes[..k + 1][k..] == [sizes[k]];
    assert Sum([sizes[k]]) == sizes[k] + Sum([]);
  }

  /** Keep every dimension whole except `dim`, which is cut to `len` positions from `start`. */
  function NarrowSels(shape: seq<nat>, dim: nat, start: nat, len: nat): (sels: seq<Sel>)
    requires dim < |shape| && start + len <= shape[dim]
    ensures AllFit(sels, shape)
  {
    seq(|shape|, k requires 0 <= k < |shape| => if k == dim then Range(start, 1, len) else Range(0, 1, shape[k]))
  }

  lemma {:induction false} PlainSels(sels: seq<Sel>, idx: seq<nat>)
    requires forall k | 0 <= k < |sels| :: sels[k].Range? && sels[k].step == 1
    ensures |SelShape(sels)| == |sels| && forall k | 0 <= k < |sels| :: SelShape(sels)[k] == sels[k].len
    ensures |idx| == |sels| ==> forall k | 0 <= k < |sels| :: Expand(sels, idx)[k] == sels[k].start + idx[k]
  {
    if sels == [] {
    } else {
      PlainSels(sels[1..], if idx == [] then [] else idx[1..]);
    }
  }

  function Narrow(t: Tensor, dim: nat, start: nat, len: nat): (r: Tensor)
    requires t.Valid() && dim < |t.shape| && start + len <= t.shape[dim]
    ensures r.Valid() && r.shape == t.shape[dim := len]
    ensures forall idx | InBounds(r.shape, idx) ::
      InBounds(t.shape, idx[dim := start + idx[dim]]) && r.At(idx) == t.At(idx[dim := start + idx[dim]])
  {
    var sels := NarrowSels(t.shape, dim, start, len);
    PlainSels(sels, []);
    assert SelShape(sels) == t.shape[dim := len];
    assert forall idx | InBounds(SelShape(sels), idx) :: Expand(sels, idx) == idx[dim := start + idx[dim]] by {
      forall idx | InBounds(SelShape(sels), idx) ensures Expand(sels, idx) == idx[dim := start + idx[dim]] {
        PlainSels(sels, idx);
      }
    }
    Select(t, sels)
  }

  function Pieces(t: Tensor, dim: nat, sizes: seq<nat>): (r: seq<Tensor>)
    requires t.Valid() && dim < |t.shape| && Sum(sizes) == t.shape[dim]
    ensures |r| == |sizes| && forall k | 0 <= k < |r| :: r[k].Valid() && r[k].shape == t.shape[dim := sizes[k]]
  {
    assert forall k | 0 <= k < |sizes| :: Offset(sizes, k) + sizes[k] <= t.shape[dim] by {
      forall k | 0 <= k < |sizes| ensures Offset(sizes, k) + sizes[k] <= t.shape[dim] { OffsetFits(sizes, k); }
    }
    seq(|sizes|, k requires 0 <= k < |sizes| => Narrow(t, dim, Offset(sizes, k), sizes[k]))
  }

  function Split(t: Tensor, cut: Cut, dim: int): (r: Option<seq<Tensor>>)
    requires t.Valid()
    ensures r.Some? ==> forall k | 0 <= k < |r.value| :: r.value[k].Valid() && |r.value[k].shape| == |t.shape|
  {
    var d := Wrap(dim, |t.shape|);
    if !(0 <= d < |t.shape|) then None
    else
      var sizes := PieceSizes(cut, t.shape[d]);
      if sizes.None? then None
      else
        PieceSizesSum(cut, t.shape[d]);
        Some(Pieces(t, d, sizes.value))
  }

  // ---------- broadcasting product ----------

  function PadOnes(shape: seq<nat>, rank: nat): (r: seq<nat>)
    requires |shape| <= rank
    ensures |r| == rank
  {
    seq(rank - |shape|, _ => 1) + shape
  }

  function BroadcastDim(a: nat, b: nat): Option<nat> {
    if a == b || b == 1 then Some(a) else if a == 1 then Some(b) else None
  }

  predicate Compatible(a: seq<nat>, b: seq<nat>)
    requires |a| == |b|
  {
    forall k | 0 <= k < |a| :: BroadcastDim(a[k], b[k]).Some?
  }

  function BroadcastDims(a: seq<nat>, b: seq<nat>): (r: seq<nat>)
    requires |a| == |b| && Compatible(a, b)
    ensures |r| == |a|
  {
    seq(|a|, k requires 0 <= k < |a| => BroadcastDim(a[k], b[k]).value)
  }

  function MaxRank(s: seq<nat>, t: seq<nat>): (r: nat)
    ensures |s| <= r && |t| <= r
  {
    if |s| < |t| then |t| else |s|
  }

  /** Shapes are aligned at their last dimension; the shorter one is extended with ones. */
  function BroadcastShape(s: seq<nat>, t: seq<nat>): (r: Option<seq<nat>>)
    ensures r.Some? ==> |r.value| == MaxRank(s, t)
  {
    var a, b := PadOnes(s, MaxRank(s, t)), PadOnes(t, MaxRank(s, t));
    if Compatible(a, b) then Some(BroadcastDims(a, b)) else None
  }

  /** The entry a broadcast operand supplies: dimensions of size 1 are repeated, missing ones ignored. */
  function BroadcastIdx(shape: seq<nat>, idx: seq<nat>): (r: seq<nat>)
    requires |shape| <= |idx|
    ensures |r| == |shape|
  {
    seq(|shape|, k requires 0 <= k < |shape| => if shape[k] == 1 then 0 else idx[|idx| - |shape| + k])
  }

  lemma BroadcastInBounds(s: seq<nat>, t: seq<nat>, idx: seq<nat>)
    requires BroadcastShape(s, t).Some? && InBounds(BroadcastShape(s, t).value, idx)
    ensures InBounds(s, BroadcastIdx(s, idx)) && InBounds(t, BroadcastIdx(t, idx))
  {
    var rank := MaxRank(s, t);
    var a, b := PadOnes(s, rank), PadOnes(t, rank);
    assert Compatible(a, b) && BroadcastShape(s, t).value == BroadcastDims(a, b);
    forall k | 0 <= k < rank
      ensures (a[k] == 1 || idx[k] < a[k]) && (b[k] == 1 || idx[k] < b[k])
    {
      assert BroadcastDim(a[k], b[k]).Some? && idx[k] < BroadcastDims(a, b)[k];
    }
    forall k | 0 <= k < |s| ensures BroadcastIdx(s, idx)[k] < s[k] {
      assert a[rank - |s| + k] == s[k];
    }
    forall k | 0 <= k < |t| ensures BroadcastIdx(t, idx)[k] < t[k] {
      assert b[rank - |t| + k] == t[k];
    }
  }

  /** One entry of a broadcast product. */
  function TimesAt(t: Tensor, m: Tensor, idx: seq<nat>): real
    requires t.Valid() && m.Valid() && BroadcastShape(t.shape, m.shape).Some?
    requires InBounds(BroadcastShape(t.shape, m.shape).value, idx)
  {
    BroadcastInBounds(t.shape, m.shape, idx);
    t.At(BroadcastIdx(t.shape, idx)) * m.At(BroadcastIdx(m.shape, idx))
  }

  function Times(t: Tensor, m: Tensor): (r: Option<Tensor>)
    requires t.Valid() && m.Valid()
    ensures r.Some? <==> BroadcastShape(t.shape, m.shape).Some?
    ensures r.Some? ==> r.value.Valid() && r.value.shape == BroadcastShape(t.shape, m.shape).value
    ensures r.Some? ==> forall idx | InBounds(r.value.shape, idx) :: r.value.At(idx) == TimesAt(t, m, idx)
  {
    var out := BroadcastShape(t.shape, m.shape);
    if out.None? then None
    else Some(Build(out.value, idx requires InBounds(out.value, idx) => TimesAt(t, m, idx)))
  }

  // ---------- cat and stack along dimension 0 ----------

  function CatData(ts: seq<Tensor>): seq<real> {
    if ts == [] then [] else ts[0].data + CatData(ts[1..])
  }

  function Heads(ts: seq<Tensor>): seq<nat>
    requires forall k | 0 <= k < |ts| :: ts[k].shape != []
  {
    seq(|ts|, k requires 0 <= k < |ts| => ts[k].shape[0])
  }

  /** In row-major order, concatenation along dimension 0 is concatenation of the data. */
  function Cat(ts: seq<Tensor>): (r: Option<Tensor>)
    requires forall k | 0 <= k < |ts| :: ts[k].Valid()
    ensures r.Some? ==> r.value.Valid()
  {
    if ts == [] || ts[0].shape == [] then None
    else if exists k | 0 <= k < |ts| :: ts[k].shape == [] || ts[k].shape[1..] != ts[0].shape[1..] then None
    else
      CatLength(ts, ts[0].shape[1..]);
      Some(Tensor([Sum(Heads(ts))] + ts[0].shape[1..], CatData(ts)))
  }

  lemma {:induction false} CatLength(ts: seq<Tensor>, rest: seq<nat>)
    requires forall k | 0 <= k < |ts| :: ts[k].Valid() && ts[k].shape != [] && ts[k].shape[1..] == rest
    ensures |CatData(ts)| == Sum(Heads(ts)) * Prod(rest)
  {
    if ts == [] {
    } else {
      CatLength(ts[1..], rest);
      assert Heads(ts)[1..] == Heads(ts[1..]);
      AddMul(ts[0].shape[0], Sum(Heads(ts[1..])), Prod(rest));
      assert |ts[0].data| == ts[0].shape[0] * Prod(rest);
    }
  }

  function Stack(ts: seq<Tensor>): (r: Option<Tensor>)
    requires forall k | 0 <= k < |ts| :: ts[k].Valid()
    ensures r.Some? ==> r.value.Valid()
    ensures r.Some? ==> ts != [] && r.value.shape == [|ts|] + ts[0].shape
  {
    if ts == [] || exists k | 0 <= k < |ts| :: ts[k].shape != ts[0].shape then None
    else
      StackLength(ts, ts[0].shape);
      Some(Tensor([|ts|] + ts[0].shape, CatData(ts)))
  }

  lemma {:induction false} StackLength(ts: seq<Tensor>, shape: seq<nat>)
    requires forall k | 0 <= k < |ts| :: ts[k].Valid() && ts[k].shape == shape
    ensures |CatData(ts)| == |ts| * Prod(shape)
  {
    if ts == [] {
    } else {
      StackLength(ts[1..], shape);
      AddMul(1, |ts| - 1, Prod(shape));
    }
  }
}
