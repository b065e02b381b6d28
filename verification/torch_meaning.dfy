/**
 What the dense operations do, entry by entry and without their definitions: which positions an index
 takes, where a permutation or a split puts an entry, what reshape, broadcasting and the product mean.
 The operations on the factors agree with the dense ones, so these are their meanings too.
 */
module TorchMeaning {
  import opened Wrappers
  import opened Arithmetic
  import opened Sequences
  import opened Tensors
  import opened TorchOps
  import opened LoraTensors
  import opened LoraIndexing

  // ---------- indexing ----------

  /** Where a slice starts: at 0 if nothing is said; negative numbers count from the end, and none is outside. */
  function From(lo: Option<int>, n: nat): int {
    match lo
    case None => 0
    case Some(x) => if x >= n then n else if x >= 0 then x else if x + n >= 0 then x + n else 0
  }

  /** Where it stops, likewise, or at the end. */
  function To(hi: Option<int>, n: nat): int {
    match hi
    case None => n
    case Some(x) => From(Some(x), n)
  }

  predicate Takes(lo: Option<int>, hi: Option<int>, step: int, n: nat, j: int)
    requires step > 0
  {
    From(lo, n) <= j < To(hi, n) && (j - From(lo, n)) % step == 0
  }

  /** A slice takes, in increasing order, exactly the positions from start to stop that are whole steps away. */
  lemma SliceTakes(lo: Option<int>, hi: Option<int>, step: int, n: nat)
    requires step > 0
    ensures var r := Resolve(Slice(lo, hi, step), n);
      && r.Some? && r.value.Range?
      && (forall i: nat | i < r.value.len ::
            r.value.Source(i) == From(lo, n) + i * step && Takes(lo, hi, step, n, r.value.Source(i)))
      && (forall i: nat, k: nat | i < k < r.value.len :: r.value.Source(i) < r.value.Source(k))
      && (forall j: int :: Takes(lo, hi, step, n, j) <==> exists i: nat :: i < r.value.len && r.value.Source(i) == j)
  {
    hide Resolve, Takes, From, To;
    SliceLength(lo, hi, step, n);
    var r := Resolve(Slice(lo, hi, step), n).value;
    forall i: nat | i < r.len ensures Takes(lo, hi, step, n, r.Source(i)) { SliceEntry(lo, hi, step, n, i); }
    forall i: nat, k: nat | i < k < r.len ensures r.Source(i) < r.Source(k) { MulStep(i, k, step); }
    forall j: int | Takes(lo, hi, step, n, j) ensures exists i: nat :: i < r.len && r.Source(i) == j {
      var i := SliceIndex(lo, hi, step, n, j);
      assert r.Source(i) == j;
    }
  }

  /** Start, step and length of the progression: the length is the number of steps that stay below the stop. */
  lemma SliceLength(lo: Option<int>, hi: Option<int>, step: int, n: nat)
    requires step > 0
    ensures var r, a, b := Resolve(Slice(lo, hi, step), n), From(lo, n), To(hi, n);
      && r.Some? && r.value.Range? && r.value.start == a && r.value.step == step
      && (r.value.len == 0 <==> b <= a) && (a < b ==> (r.value.len - 1) * step < b - a <= r.value.len * step)
  {
    var a, b := From(lo, n), To(hi, n);
    SliceBounds(lo, hi, n);
    hide From, To, Bound;
    if a < b { StepsCover(b - a, step); }
  }

  lemma SliceBounds(lo: Option<int>, hi: Option<int>, n: nat)
    ensures From(lo, n) == (if lo.None? then 0 else Bound(lo.value, n)) >= 0
    ensures To(hi, n) == (if hi.None? then n else Bound(hi.value, n)) >= 0
  {
  }

  lemma StepsCover(d: nat, step: nat)
    requires d > 0 && step > 0
    ensures var c := (d + step - 1) / step; c > 0 && (c - 1) * step < d <= c * step
  {
    SliceCount(d, step);
    var c := (d + step - 1) / step;
    Quotients(d + step - 1, step);
  }

  lemma Quotients(x: nat, m: nat)
    requires m > 0
    ensures x / m * m <= x < x / m * m + m
  {
  }

  lemma SliceEntry(lo: Option<int>, hi: Option<int>, step: int, n: nat, i: nat)
    requires step > 0
    requires Resolve(Slice(lo, hi, step), n).Some? && Resolve(Slice(lo, hi, step), n).value.Range?
    requires i < Resolve(Slice(lo, hi, step), n).value.len
    ensures var x := Resolve(Slice(lo, hi, step), n).value.Source(i);
      Takes(lo, hi, step, n, x) && x == From(lo, n) + i * step
  {
    hide Resolve, From, To;
    SliceLength(lo, hi, step, n);
    var r := Resolve(Slice(lo, hi, step), n).value;
    MulMono(i, r.len - 1, step);
    MulMono(0, i, step);
    DivUnique(i * step, i, step, 0);
  }

  lemma SliceIndex(lo: Option<int>, hi: Option<int>, step: int, n: nat, j: int) returns (i: nat)
    requires step > 0 && Takes(lo, hi, step, n, j)
    ensures var r := Resolve(Slice(lo, hi, step), n);
      r.Some? && r.value.Range? && i < r.value.len && j == From(lo, n) + i * step
  {
    hide Resolve, From, To;
    SliceLength(lo, hi, step, n);
    var r, d := Resolve(Slice(lo, hi, step), n).value, j - From(lo, n);
    i := d / step;
    assert d == i * step;
    if i >= r.len { MulMono(r.len, i, step); }
  }

  /** An integer is accepted from minus the size up to below the size, and takes the position it is modulo the size. */
  lemma IntTakes(j: int, n: nat)
    ensures Resolve(Int(j), n).Some? <==> -(n as int) <= j < n
    ensures -(n as int) <= j < n ==> Resolve(Int(j), n) == Some(Pick(j % n))
  {
    if -(n as int) <= j < 0 {
      DivUnique(j + n, 0, n, j + n);
      assert j == -1 * n + (j + n);
    }
  }

  /** Entry `idx` of an indexed tensor is entry `src` of the tensor. */
  predicate Picks(ixs: seq<Ix>, shape: seq<nat>, idx: seq<nat>, src: seq<nat>)
    requires |ixs| == |shape|
    decreases |ixs|
  {
    if ixs == [] then idx == [] && src == []
    else if src == [] then false
    else
      match ixs[0]
      case Int(j) =>
        -(shape[0] as int) <= j < shape[0] && src[0] == j % shape[0] && Picks(ixs[1..], shape[1..], idx, src[1..])
      case Slice(lo, hi, step) =>
        && idx != [] && step > 0 && src[0] == From(lo, shape[0]) + idx[0] * step < To(hi, shape[0])
        && Picks(ixs[1..], shape[1..], idx[1..], src[1..])
  }

  lemma ResolvableRest(ixs: seq<Ix>, shape: seq<nat>)
    requires |ixs| == |shape| > 0 && Resolvable(ixs, shape)
    ensures Resolve(ixs[0], shape[0]).Some? && Resolvable(ixs[1..], shape[1..])
    ensures Sels(ixs, shape) == [Resolve(ixs[0], shape[0]).value] + Sels(ixs[1..], shape[1..])
  {
    hide Resolve;
    forall k | 0 <= k < |ixs[1..]| ensures Resolve(ixs[1..][k], shape[1..][k]).Some? {
      assert Resolve(ixs[k + 1], shape[k + 1]).Some?;
    }
  }

  /** Every entry of an indexed tensor comes from where the index says. */
  lemma {:induction false} ExpandPicks(ixs: seq<Ix>, shape: seq<nat>, idx: seq<nat>)
    requires |ixs| == |shape| && Resolvable(ixs, shape) && InBounds(SelShape(Sels(ixs, shape)), idx)
    ensures Picks(ixs, shape, idx, Expand(Sels(ixs, shape), idx))
    decreases |ixs|
  {
    hide Resolve, Sels, From, To, SelShape, Expand;
    if ixs == [] {
      NoSels(ixs, shape, idx);
    } else {
      ResolvableRest(ixs, shape);
      var head, tail := Resolve(ixs[0], shape[0]).value, Sels(ixs[1..], shape[1..]);
      HeadBounds(head, tail, idx);
      ExpandCons(head, tail, idx);
      HeadPicks(ixs[0], shape[0], if head.Pick? then 0 else idx[0]);
      var rest := if head.Pick? then idx else idx[1..];
      ExpandPicks(ixs[1..], shape[1..], rest);
      assert Expand(Sels(ixs, shape), idx)[1..] == Expand(tail, rest);
    }
  }

  lemma NoSels(ixs: seq<Ix>, shape: seq<nat>, idx: seq<nat>)
    requires ixs == [] && shape == []
    ensures SelShape(Sels(ixs, shape)) == [] && Expand(Sels(ixs, shape), []) == []
  {
  }

  lemma HeadBounds(head: Sel, tail: seq<Sel>, idx: seq<nat>)
    ensures InBounds(SelShape([head] + tail), idx)
      <==> if head.Pick? then InBounds(SelShape(tail), idx)
           else idx != [] && idx[0] < head.len && InBounds(SelShape(tail), idx[1..])
  {
    assert ([head] + tail)[1..] == tail;
    var s := SelShape(tail);
    if head.Range? {
      assert SelShape([head] + tail) == [head.len] + s;
      if idx != [] && idx[0] < head.len && InBounds(s, idx[1..]) {
        forall k | 0 <= k < |idx| ensures idx[k] < ([head.len] + s)[k] {
          if k > 0 { assert idx[1..][k - 1] < s[k - 1]; }
        }
      }
      if InBounds([head.len] + s, idx) {
        forall k | 0 <= k < |s| ensures idx[1..][k] < s[k] { assert idx[k + 1] < ([head.len] + s)[k + 1]; }
      }
    }
  }

  lemma HeadPicks(ix: Ix, n: nat, i: nat)
    requires Resolve(ix, n).Some?
    ensures var sel := Resolve(ix, n).value;
      match ix
      case Int(j) => sel.Pick? && -(n as int) <= j < n && sel.at == j % n
      case Slice(lo, hi, step) =>
        && sel.Range? && step > 0 && sel.Source(i) == From(lo, n) + i * step
        && (i < sel.len <==> From(lo, n) + i * step < To(hi, n))
  {
    hide From, To;
    match ix {
      case Int(j) => IntTakes(j, n);
      case Slice(lo, hi, step) =>
        SliceLength(lo, hi, step, n);
        var len := Resolve(ix, n).value.len;
        hide Resolve;
        MulMono(0, i, step);
        if len > 0 {
          if i < len { MulMono(i, len - 1, step); } else { MulMono(len, i, step); }
        }
    }
  }

  /** And every entry the index asks for is there. */
  lemma {:induction false} PicksExpand(ixs: seq<Ix>, shape: seq<nat>, idx: seq<nat>, src: seq<nat>)
    requires |ixs| == |shape| && Resolvable(ixs, shape) && Picks(ixs, shape, idx, src)
    ensures InBounds(SelShape(Sels(ixs, shape)), idx) && src == Expand(Sels(ixs, shape), idx)
    decreases |ixs|
  {
    hide Resolve, Sels, From, To, SelShape, Expand;
    if ixs == [] {
      NoSels(ixs, shape, idx);
    } else {
      ResolvableRest(ixs, shape);
      var head, tail := Resolve(ixs[0], shape[0]).value, Sels(ixs[1..], shape[1..]);
      HeadPicks(ixs[0], shape[0], if ixs[0].Int? then 0 else idx[0]);
      var rest := if head.Pick? then idx else idx[1..];
      PicksExpand(ixs[1..], shape[1..], rest, src[1..]);
      HeadBounds(head, tail, idx);
      ExpandCons(head, tail, idx);
      assert src == [src[0]] + src[1..];
    }
  }

  /** What torch accepts: no more components than dimensions, integers in range, positive steps. */
  predicate Accepted(ixs: seq<Ix>, shape: seq<nat>) {
    && |ixs| <= |shape|
    && forall k | 0 <= k < |ixs| ::
         if ixs[k].Int? then -(shape[k] as int) <= ixs[k].j < shape[k] else ixs[k].step > 0
  }

  lemma IndexAccepts(t: Tensor, ixs: seq<Ix>)
    requires t.Valid()
    ensures Index(t, ixs).Some? <==> Accepted(ixs, t.shape)
  {
    hide Select;
    if |ixs| <= |t.shape| {
      var full := Pad(ixs, |t.shape|);
      forall k | 0 <= k < |ixs| ensures full[k] == ixs[k] {}
      if Accepted(ixs, t.shape) {
        forall k | 0 <= k < |full| ensures Resolve(full[k], t.shape[k]).Some? {
          if k < |ixs| { assert full[k] == ixs[k]; } else { assert full[k] == ALL; }
        }
      } else {
        var k :| 0 <= k < |ixs| &&
          !(if ixs[k].Int? then -(t.shape[k] as int) <= ixs[k].j < t.shape[k] else ixs[k].step > 0);
        assert Resolve(full[k], t.shape[k]).None?;
      }
    }
  }

  /** Indexing a dense tensor: its entries are exactly those the index picks, at the places it gives them. */
  lemma IndexPicks(t: Tensor, ixs: seq<Ix>, idx: seq<nat>)
    requires t.Valid() && Index(t, ixs).Some?
    ensures var r, full := Index(t, ixs).value, Pad(ixs, |t.shape|);
      && (InBounds(r.shape, idx) <==> exists src :: Picks(full, t.shape, idx, src))
      && forall src | Picks(full, t.shape, idx, src) ::
           InBounds(r.shape, idx) && InBounds(t.shape, src) && r.At(idx) == t.At(src)
  {
    hide Resolve, Picks, Resolvable, Sels, Select, SelShape, Expand;
    var full := Pad(ixs, |t.shape|);
    var sels := Sels(full, t.shape);
    if InBounds(SelShape(sels), idx) {
      ExpandPicks(full, t.shape, idx);
    }
    forall src | Picks(full, t.shape, idx, src)
      ensures InBounds(SelShape(sels), idx) && src == Expand(sels, idx)
    {
      PicksExpand(full, t.shape, idx, src);
    }
  }

  /** So is indexing the factors. */
  lemma GetItemPicks(p: Lora, ixs: seq<Ix>, idx: seq<nat>, src: seq<nat>)
    requires p.Valid() && p.LeadOnes() && p.Broadcasts()
    requires ixs != [] && |ixs| <= |p.A.shape| && KeepsMatrix(ixs, |p.A.shape|)
    requires Accepted(ixs, p.Shape()) && Picks(Pad(ixs, |p.A.shape|), p.Shape(), idx, src)
    ensures GetItem(p, ixs).Some?
    ensures var s := GetItem(p, ixs).value;
      && s.Broadcasts() && InBounds(s.Shape(), idx) && InBounds(p.Shape(), src) && s.Mat().At(idx) == p.Mat().At(src)
  {
    hide GetItem, Index, Accepted, Picks, Lora.Mat, Tensor.At;
    GetItemRefines(p, ixs);
    IndexAccepts(p.Mat(), ixs);
    IndexPicks(p.Mat(), ixs, idx);
  }

  // ---------- reshape ----------

  predicate OneOpen(dims: seq<int>) {
    forall j, k | 0 <= j < k < |dims| :: !(dims[j] == -1 && dims[k] == -1)
  }

  /** Row-major reshape: the data stays, given dimensions are kept, and an open one is what is left of the count. */
  predicate Reshaped(t: Tensor, dims: seq<int>, r: Tensor) {
    && r.data == t.data && |r.shape| == |dims| && OneOpen(dims)
    && (forall k | 0 <= k < |dims| :: dims[k] == -1 || r.shape[k] == dims[k])
    && (forall k | 0 <= k < |dims| && dims[k] == -1 :: Prod(r.shape[k := 1]) > 0)
  }

  lemma {:induction false} InferredCounts(dims: seq<int>)
    ensures Inferred(dims) <= 1 <==> OneOpen(dims)
    ensures Inferred(dims) == 0 <==> forall k | 0 <= k < |dims| :: dims[k] != -1
  {
    if dims == [] {
    } else {
      var rest := dims[1..];
      InferredCounts(rest);
      assert forall k | 1 <= k < |dims| :: dims[k] == rest[k - 1];
      if OneOpen(dims) {
        forall j, k | 0 <= j < k < |rest| ensures !(rest[j] == -1 && rest[k] == -1) {
          assert !(dims[j + 1] == -1 && dims[k + 1] == -1);
        }
      }
    }
  }

  /** The known dimensions times the open one. */
  lemma {:induction false} KnownTimes(dims: seq<int>, shape: seq<nat>, m: nat)
    requires m < |dims| == |shape| && dims[m] == -1
    requires forall k | 0 <= k < |dims| && k != m :: dims[k] == shape[k]
    ensures Known(dims) == Prod(shape[m := 1]) && Prod(shape) == Known(dims) * shape[m]
  {
    var one := shape[m := 1];
    if m == 0 {
      assert one[1..] == shape[1..];
      SameKnown(dims[1..], shape[1..]);
    } else {
      assert one[1..] == shape[1..][m - 1 := 1];
      KnownTimes(dims[1..], shape[1..], m - 1);
      Distribute3(shape[0], Known(dims[1..]), shape[m]);
    }
  }

  lemma Distribute3(a: int, b: int, c: int)
    ensures a * (b * c) == (a * b) * c
  {
  }

  lemma {:induction false} SameKnown(dims: seq<int>, shape: seq<nat>)
    requires |dims| == |shape| && forall k | 0 <= k < |dims| :: dims[k] == shape[k]
    ensures Known(dims) == Prod(shape)
  {
    if dims == [] {
    } else {
      SameKnown(dims[1..], shape[1..]);
    }
  }

  lemma ExactDivision(k: nat, v: nat)
    requires k > 0
    ensures (k * v) % k == 0 && (k * v) / k == v
  {
    DivUnique(k * v, v, k, 0);
  }

  lemma ReshapeMeans(t: Tensor, dims: seq<int>, r: Tensor)
    requires t.Valid() && r.Valid()
    ensures Reshape(t, dims) == Some(r) <==> Reshaped(t, dims, r)
  {
    if Reshape(t, dims) == Some(r) { ReshapeIs(t, dims, r); }
    if Reshaped(t, dims, r) { IsReshape(t, dims, r); }
  }

  lemma OpenOne(dims: seq<int>) returns (m: nat)
    requires Inferred(dims) == 1
    ensures m < |dims| && dims[m] == -1 && OneOpen(dims)
    ensures forall k | 0 <= k < |dims| && dims[k] == -1 :: k == m
  {
    InferredCounts(dims);
    m :| m < |dims| && dims[m] == -1;
  }

  lemma ReshapeIs(t: Tensor, dims: seq<int>, r: Tensor)
    requires t.Valid() && r.Valid() && Reshape(t, dims) == Some(r)
    ensures Reshaped(t, dims, r)
  {
    hide Prod;
    InferredCounts(dims);
    if Inferred(dims) == 1 {
      var m := OpenOne(dims);
      KnownTimes(dims, r.shape, m);
    }
  }

  lemma IsReshape(t: Tensor, dims: seq<int>, r: Tensor)
    requires t.Valid() && r.Valid() && Reshaped(t, dims, r)
    ensures Reshape(t, dims) == Some(r)
  {
    hide Prod, Known;
    InferredCounts(dims);
    if Inferred(dims) == 1 {
      var m := OpenOne(dims);
      KnownTimes(dims, r.shape, m);
      ExactDivision(Known(dims), r.shape[m]);
      var c := Fill(dims, r.shape[m]);
      assert NonNegative(c) && AsShape(c) == r.shape;
    } else {
      assert NonNegative(dims) && AsShape(dims) == r.shape;
    }
  }

  // ---------- permute ----------

  /** Torch's permutations: each dimension once, counted from either end. */
  predicate Permutes(dims: seq<int>, n: nat) {
    && |dims| == n && (forall d | 0 <= d < n :: -(n as int) <= dims[d] < n)
    && forall d, e | 0 <= d < e < n :: dims[d] % n != dims[e] % n
  }

  lemma WrapIsMod(d: int, n: nat)
    requires -(n as int) <= d < n
    ensures Wrap(d, n) == d % n
  {
    IntTakes(d, n);
  }

  lemma PermuteAccepts(t: Tensor, dims: seq<int>)
    requires t.Valid()
    ensures Permute(t, dims).Some? <==> Permutes(dims, |t.shape|)
  {
    hide Transposed;
    var n := |t.shape|;
    if |dims| == n {
      var p := WrapAll(dims);
      if Permutes(dims, n) {
        forall d | 0 <= d < n ensures p[d] == dims[d] % n { WrapIsMod(dims[d], n); }
        Onto(p);
      }
      if IsPermutation(p) {
        forall d | 0 <= d < n ensures -(n as int) <= dims[d] < n && dims[d] % n == p[d] {
          assert 0 <= p[d] < n;
          WrapIsMod(dims[d], n);
        }
      }
    }
  }

  lemma Onto(p: seq<int>)
    requires forall d | 0 <= d < |p| :: 0 <= p[d] < |p|
    requires forall d, e | 0 <= d < e < |p| :: p[d] != p[e]
    ensures forall e: int | 0 <= e < |p| :: e in p
  {
    forall e: int | 0 <= e < |p| ensures e in p {
      if e !in p {
        BelowSize(|p|);
        var xs: seq<nat> := seq(|p|, d requires 0 <= d < |p| => p[d]);
        forall d | 0 <= d < |xs| ensures xs[d] in Below(|p|) - {e as nat} { assert p[d] in p; }
        DistinctFit(xs, Below(|p|) - {e as nat});
        assert false;
      }
    }
  }

  /** Where an entry goes: its index along dimension `dims[d]` becomes its index along dimension `d`. */
  function Moved(dims: seq<int>, src: seq<nat>): (r: seq<nat>)
    requires |dims| == |src|
    ensures |r| == |src|
  {
    seq(|src|, d requires 0 <= d < |src| => src[dims[d] % |src|])
  }

  lemma PermuteMoves(t: Tensor, dims: seq<int>, src: seq<nat>)
    requires t.Valid() && Permute(t, dims).Some? && InBounds(t.shape, src)
    ensures var r := Permute(t, dims).value;
      && r.shape == Moved(dims, t.shape) && InBounds(r.shape, Moved(dims, src)) && r.At(Moved(dims, src)) == t.At(src)
  {
    hide Transposed, Tensor.At;
    PermuteAccepts(t, dims);
    var n, p, dst := |t.shape|, WrapAll(dims), Moved(dims, src);
    forall d | 0 <= d < n ensures p[d] == dims[d] % n { WrapIsMod(dims[d], n); }
    assert PermShape(p, t.shape) == Moved(dims, t.shape);
    var back := PermSource(p, dst);
    forall e | 0 <= e < n ensures back[e] == src[e] {
      assert e in p;
      var d :| 0 <= d < n && p[d] == e;
      assert back[p[d]] == dst[d] == src[p[d]];
    }
    assert back == src;
  }

  // ---------- split ----------

  /** Pieces of one size: all have it but the last, which has the rest. */
  lemma {:induction false} EvenPieces(n: nat, size: nat, k: nat)
    requires size > 0 && k < |EvenSizes(n, size)|
    ensures var s := EvenSizes(n, size);
      && Offset(s, k) == k * size <= n
      && s[k] == (if k < |s| - 1 then size else n - k * size)
      && (n > 0 ==> 0 < s[k]) && s[k] <= size
    decreases n
  {
    var s := EvenSizes(n, size);
    if n > size && k > 0 {
      EvenPieces(n - size, size, k - 1);
      assert s[..k] == [size] + s[1..][..k - 1] && s[..k][1..] == s[1..][..k - 1];
      assert s[1..] == EvenSizes(n - size, size);
      AddMul(1, k - 1, size);
    } else {
      assert s[..0] == [];
    }
  }

  /** Where piece `k` of a split begins. */
  function Begins(cut: Cut, k: nat): int
    requires cut.Sizes? ==> k <= |cut.sizes|
  {
    match cut
    case Every(size) => k * size
    case Sizes(sizes) => if k == 0 then 0 else Begins(cut, k - 1) + sizes[k - 1]
  }

  lemma {:induction false} SizesBegin(sizes: seq<int>, k: nat)
    requires NonNegative(sizes) && k <= |sizes|
    ensures Offset(AsShape(sizes), k) == Begins(Sizes(sizes), k)
  {
    if k == 0 {
    } else {
      SizesBegin(sizes, k - 1);
      OffsetFits(AsShape(sizes), k - 1);
    }
  }

  /** The sizes of the pieces: as given, or all the same but the last. */
  lemma PiecesBegin(cut: Cut, n: nat, k: nat)
    requires PieceSizes(cut, n).Some? && k < |PieceSizes(cut, n).value|
    ensures var s := PieceSizes(cut, n).value;
      && (cut.Sizes? ==> |s| == |cut.sizes|) && Offset(s, k) == Begins(cut, k) && Offset(s, k) + s[k] <= n
      && (cut.Sizes? ==> s[k] == cut.sizes[k])
      && (cut.Every? ==> if k < |s| - 1 then s[k] == cut.size else Offset(s, k) + s[k] == n && s[k] <= cut.size)
      && (cut.Every? && n > 0 ==> 0 < s[k])
  {
    hide EvenSizes, Offset, Sum;
    PieceSizesSum(cut, n);
    OffsetFits(PieceSizes(cut, n).value, k);
    match cut {
      case Every(size) => if size > 0 { EvenPieces(n, size, k); } else { NoOffset([0]); }
      case Sizes(ss) => SizesBegin(ss, k);
    }
  }

  lemma NoOffset(s: seq<nat>)
    ensures Offset(s, 0) == 0
  {
    assert s[..0] == [];
  }

  /** Piece `k` of a split: `begin` and `len` say which positions along the dimension it holds. */
  ghost predicate Holds(t: Tensor, d: nat, begin: nat, len: nat, piece: Tensor)
    requires t.Valid() && d < |t.shape|
  {
    && piece.Valid() && begin + len <= t.shape[d] && piece.shape == t.shape[d := len]
    && forall idx | InBounds(piece.shape, idx) ::
         InBounds(t.shape, idx[d := begin + idx[d]]) && piece.At(idx) == t.At(idx[d := begin + idx[d]])
  }

  lemma PieceHolds(t: Tensor, d: nat, sizes: seq<nat>, k: nat)
    requires t.Valid() && d < |t.shape| && Sum(sizes) == t.shape[d] && k < |sizes|
    ensures Holds(t, d, Offset(sizes, k), sizes[k], Pieces(t, d, sizes)[k])
  {
    hide Narrow, Sum, Offset, Tensor.At;
    PieceAt(t, d, sizes, k);
  }

  /** What a split accepts: equal sizes, or sizes that add up. */
  predicate Cuts(cut: Cut, n: nat) {
    match cut
    case Every(size) => size > 0 || (size == 0 && n == 0)
    case Sizes(sizes) => (forall k | 0 <= k < |sizes| :: sizes[k] >= 0) && Begins(cut, |sizes|) == n
  }

  lemma SplitAccepts(t: Tensor, cut: Cut, dim: int)
    requires t.Valid()
    ensures Split(t, cut, dim).Some?
      <==> -(|t.shape| as int) <= dim < |t.shape| && Cuts(cut, t.shape[dim % |t.shape|])
  {
    hide Pieces;
    if -(|t.shape| as int) <= dim < |t.shape| {
      WrapIsMod(dim, |t.shape|);
      if cut.Sizes? && NonNegative(cut.sizes) {
        SizesBegin(cut.sizes, |cut.sizes|);
        assert AsShape(cut.sizes)[..|cut.sizes|] == AsShape(cut.sizes);
      }
    }
  }

  /** Piece `k` holds the entries from where it begins, as many as its size. */
  lemma SplitTakes(t: Tensor, cut: Cut, dim: int, k: nat)
    requires t.Valid() && Split(t, cut, dim).Some? && k < |Split(t, cut, dim).value|
    ensures -(|t.shape| as int) <= dim < |t.shape| && (cut.Sizes? ==> |Split(t, cut, dim).value| == |cut.sizes|)
    ensures var d, ps := dim % |t.shape|, Split(t, cut, dim).value;
      var begin, n := Begins(cut, k), t.shape[d];
      && |ps[k].shape| == |t.shape| && 0 <= begin && Holds(t, d, begin, ps[k].shape[d], ps[k])
      && (cut.Sizes? ==> ps[k].shape[d] == cut.sizes[k])
      && (cut.Every? ==> if k < |ps| - 1 then ps[k].shape[d] == cut.size
                         else begin + ps[k].shape[d] == n && ps[k].shape[d] <= cut.size)
      && (cut.Every? && n > 0 ==> 0 < ps[k].shape[d])
  {
    hide Pieces, Holds, Begins, PieceSizes, Sum, Offset;
    var d := Wrap(dim, |t.shape|);
    WrapIsMod(dim, |t.shape|);
    var sizes := PieceSizes(cut, t.shape[d]).value;
    PieceSizesSum(cut, t.shape[d]);
    PiecesBegin(cut, t.shape[d], k);
    PieceHolds(t, d, sizes, k);
  }

  // ---------- broadcasting ----------

  /** The size of a dimension counted from the last one; missing dimensions have size 1. */
  function SizeAt(s: seq<nat>, k: nat): nat {
    if k < |s| then s[|s| - 1 - k] else 1
  }

  /** The shapes agree from the last dimension on, up to sizes of 1. */
  predicate Agree(s: seq<nat>, t: seq<nat>) {
    forall k: nat | k < MaxRank(s, t) :: SizeAt(s, k) == SizeAt(t, k) || SizeAt(s, k) == 1 || SizeAt(t, k) == 1
  }

  lemma TimesAccepts(t: Tensor, m: Tensor)
    requires t.Valid() && m.Valid()
    ensures Times(t, m).Some? <==> Agree(t.shape, m.shape)
    ensures Times(t, m).Some? ==>
      var r := Times(t, m).value;
      && |r.shape| == MaxRank(t.shape, m.shape)
      && forall k: nat | k < |r.shape| ::
           SizeAt(r.shape, k) == if SizeAt(t.shape, k) == 1 then SizeAt(m.shape, k) else SizeAt(t.shape, k)
  {
    hide Times;
    TimesShape(t, m);
    var n := MaxRank(t.shape, m.shape);
    var a, b := PadOnes(t.shape, n), PadOnes(m.shape, n);
    forall k: nat | k < n ensures a[n - 1 - k] == SizeAt(t.shape, k) && b[n - 1 - k] == SizeAt(m.shape, k) {}
    if Agree(t.shape, m.shape) {
      forall k | 0 <= k < n ensures BroadcastDim(a[k], b[k]).Some? {
        var e := n - 1 - k;
        assert SizeAt(t.shape, e) == a[k] && SizeAt(m.shape, e) == b[k];
      }
    }
    if Compatible(a, b) {
      forall k: nat | k < n
        ensures SizeAt(t.shape, k) == SizeAt(m.shape, k) || SizeAt(t.shape, k) == 1 || SizeAt(m.shape, k) == 1
      {
        assert BroadcastDim(a[n - 1 - k], b[n - 1 - k]).Some?;
      }
    }
  }

  lemma TimesShape(t: Tensor, m: Tensor)
    requires t.Valid() && m.Valid()
    ensures Times(t, m).Some? <==> BroadcastShape(t.shape, m.shape).Some?
    ensures Times(t, m).Some? ==> Times(t, m).value.shape == BroadcastShape(t.shape, m.shape).value
  {
  }

  /** The entry a dimension supplies is the one asked for, or its only one. */
  predicate Aligned(shape: seq<nat>, idx: seq<nat>, i: seq<nat>) {
    && InBounds(shape, i) && |shape| <= |idx|
    && forall k | 0 <= k < |shape| :: shape[k] == 1 || i[k] == idx[|idx| - |shape| + k]
  }

  /** Every entry of a product is the product of the two aligned entries. */
  lemma TimesEntries(t: Tensor, m: Tensor, idx: seq<nat>, i: seq<nat>, j: seq<nat>)
    requires t.Valid() && m.Valid() && Times(t, m).Some? && InBounds(Times(t, m).value.shape, idx)
    requires Aligned(t.shape, idx, i) && Aligned(m.shape, idx, j)
    ensures Times(t, m).value.At(idx) == t.At(i) * m.At(j)
  {
    hide Tensor.At, TimesAt, BroadcastShape;
    assert Times(t, m).value.At(idx) == TimesAt(t, m, idx);
    TimesAtIs(t, m, idx, i, j);
  }

  lemma TimesAtIs(t: Tensor, m: Tensor, idx: seq<nat>, i: seq<nat>, j: seq<nat>)
    requires t.Valid() && m.Valid() && BroadcastShape(t.shape, m.shape).Some?
    requires InBounds(BroadcastShape(t.shape, m.shape).value, idx)
    requires Aligned(t.shape, idx, i) && Aligned(m.shape, idx, j)
    ensures TimesAt(t, m, idx) == t.At(i) * m.At(j)
  {
    hide Tensor.At, BroadcastShape;
    assert BroadcastIdx(t.shape, idx) == i && BroadcastIdx(m.shape, idx) == j;
  }

  // ---------- the product of the factors ----------

  /** The sum of the products, by what it does to parts. */
  lemma {:induction false} TotalAdds(a: seq<real>, b: seq<real>)
    ensures Total(a + b) == Total(a) + Total(b)
    ensures forall x: real :: Total([x]) == x
  {
    forall x: real ensures Total([x]) == x { assert [x][1..] == []; }
    if a == [] {
      assert a + b == b;
    } else {
      assert (a + b)[1..] == a[1..] + b;
      TotalAdds(a[1..], b);
    }
  }

  lemma {:induction false} TotalSingle(terms: seq<real>, j: nat)
    requires j < |terms| && forall k | 0 <= k < |terms| && k != j :: terms[k] == 0.0
    ensures Total(terms) == terms[j]
  {
    if j == 0 {
      TotalZero(terms[1..]);
    } else {
      TotalSingle(terms[1..], j - 1);
    }
  }

  lemma {:induction false} TotalZero(terms: seq<real>)
    requires forall k | 0 <= k < |terms| :: terms[k] == 0.0
    ensures Total(terms) == 0.0
  {
    if terms != [] {
      TotalZero(terms[1..]);
    }
  }

  /** A pair whose A is the identity in every batch stands for its B. */
  lemma MatOfIdentity(p: Lora)
    requires p.Valid() && p.Broadcasts() && p.Rank() == p.Cols()
    requires forall q, k: nat, j: nat | InBounds(p.Outer(), q) && k < p.Rank() && j < p.Cols() ::
      p.AAt(q, k, j) == if k == j then 1.0 else 0.0
    ensures p.Mat() == p.B
  {
    hide Flat, Prod, Lora.Mat, Lora.AAt, Total;
    assert p.Shape() == p.B.shape;
    forall idx | InBounds(p.Shape(), idx) ensures p.Mat().At(idx) == p.B.At(idx) {
      SplitIdx(p, idx);
      var q, j := idx[..|idx| - 1], idx[|idx| - 1];
      MatAt(p, q, j);
      TotalSingle(p.Terms(q, j), j);
    }
    TensorsEqual(p.Mat(), p.B);
  }
}
