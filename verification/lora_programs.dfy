/**
 Whole programs of tensor operations run on the factors and on the dense product, and the
 round trips split / cat and stack / index.
 */
module LoraPrograms {
  import opened Wrappers
  import opened Arithmetic
  import opened Sequences
  import opened Tensors
  import opened TorchOps
  import opened LoraTensors
  import opened LoraIndexing
  import opened LoraReshaping

  type Multiplier = t: Tensor | t.Valid() witness Tensor([], [0.0])

  datatype Op =
    | GetItemOp(ixs: seq<Ix>)
    | ReshapeOp(dims: seq<int>)
    | PermuteOp(dims: seq<int>)
    | ScaleOp(m: Multiplier)
    | PieceOp(cut: Cut, dim: int, k: nat)

  function StepPair(p: Lora, op: Op): (r: Option<Lora>)
    requires p.Valid()
    ensures r.Some? ==> r.value.Valid()
  {
    match op
    case GetItemOp(ixs) => GetItem(p, ixs)
    case ReshapeOp(dims) => ReshapePair(p, dims)
    case PermuteOp(dims) => PermutePair(p, dims)
    case ScaleOp(m) => ScalePair(p, m)
    case PieceOp(cut, dim, k) =>
      var s := SplitPair(p, cut, dim);
      if s.Some? && k < |s.value| then Some(s.value[k]) else None
  }

  function StepDense(t: Tensor, op: Op): (r: Option<Tensor>)
    requires t.Valid()
    ensures r.Some? ==> r.value.Valid()
  {
    match op
    case GetItemOp(ixs) => Index(t, ixs)
    case ReshapeOp(dims) => Reshape(t, dims)
    case PermuteOp(dims) => Permute(t, dims)
    case ScaleOp(m) => Times(t, m)
    case PieceOp(cut, dim, k) =>
      var s := Split(t, cut, dim);
      if s.Some? && k < |s.value| then Some(s.value[k]) else None
  }

  /** What torch asks of the operation on a dense tensor with `rank` dimensions. */
  predicate Legal(op: Op, rank: nat) {
    match op
    case GetItemOp(ixs) => ixs != [] && (2 <= rank && |ixs| <= rank ==> KeepsMatrix(ixs, rank))
    case ReshapeOp(dims) => Inferred(dims) <= 1
    case PermuteOp(dims) => forall d | 0 <= d < |dims| :: -(rank as int) <= dims[d] < rank
    case ScaleOp(m) => true
    case PieceOp(cut, dim, k) => -(rank as int) <= dim < rank
  }

  /** What the factored form implements: the row size survives reshapes and permutations of batches. */
  predicate Supported(op: Op, t: Tensor)
    requires t.Valid() && |t.shape| >= 2
  {
    var n := |t.shape|;
    match op
    case GetItemOp(ixs) => true
    case ReshapeOp(dims) =>
      |dims| >= 2 && t.shape[n - 1] > 0
      && (Reshape(t, dims).Some? ==> Reshape(t, dims).value.shape[|dims| - 1] == t.shape[n - 1])
    case PermuteOp(dims) => n == 2 || (|dims| == n && WrapAll(dims)[n - 1] == n - 1)
    case ScaleOp(m) => |m.shape| <= n && (m.shape == [] || m.shape[|m.shape| - 1] == 1)
    case PieceOp(cut, dim, k) => true
  }

  /** The state every program keeps: unit batch dimensions on A, and a rank that is not zero. */
  predicate Good(p: Lora) {
    p.Valid() && p.LeadOnes() && p.Broadcasts() && p.Rank() > 0
  }

  /** One operation on the factors is that operation on the dense product. */
  lemma StepRefines(p: Lora, op: Op)
    requires Good(p) && Legal(op, |p.Shape()|)
    ensures StepPair(p, op).Some? ==>
      Good(StepPair(p, op).value) && StepDense(p.Mat(), op) == Some(StepPair(p, op).value.Mat())
    ensures StepDense(p.Mat(), op).Some? && Supported(op, p.Mat()) ==> StepPair(p, op).Some?
  {
    hide GetItem, Index, ReshapePair, Reshape, PermutePair, Permute, ScalePair, Times, SplitPair, Split, Lora.Mat;
    match op
    case GetItemOp(ixs) =>
      if |ixs| <= |p.A.shape| {
        GetItemRefines(p, ixs);
      } else {
        TooManyIndices(p, ixs);
      }
    case ReshapeOp(dims) => ReshapeRefines(p, dims);
    case PermuteOp(dims) =>
      PermuteRefines(p, dims);
    case ScaleOp(m) => ScaleRefines(p, m);
    case PieceOp(cut, dim, k) => SplitRefines(p, cut, dim);
  }

  lemma TooManyIndices(p: Lora, ixs: seq<Ix>)
    requires p.Valid() && p.Broadcasts() && |ixs| > |p.A.shape|
    ensures GetItem(p, ixs).None? && Index(p.Mat(), ixs).None?
  {
  }

  function RunPair(p: Lora, prog: seq<Op>): (r: Option<Lora>)
    requires p.Valid()
    ensures r.Some? ==> r.value.Valid()
    decreases |prog|
  {
    if prog == [] then Some(p)
    else
      var s := StepPair(p, prog[0]);
      if s.None? then None else RunPair(s.value, prog[1..])
  }

  function RunDense(t: Tensor, prog: seq<Op>): (r: Option<Tensor>)
    requires t.Valid()
    ensures r.Some? ==> r.value.Valid()
    decreases |prog|
  {
    if prog == [] then Some(t)
    else
      var s := StepDense(t, prog[0]);
      if s.None? then None else RunDense(s.value, prog[1..])
  }

  /** Every operation of the program is legal on the dense tensor it meets. */
  predicate LegalRun(t: Tensor, prog: seq<Op>)
    requires t.Valid()
    decreases |prog|
  {
    prog == [] ||
    (Legal(prog[0], |t.shape|)
      && (StepDense(t, prog[0]).Some? ==> LegalRun(StepDense(t, prog[0]).value, prog[1..])))
  }

  predicate SupportedRun(t: Tensor, prog: seq<Op>)
    requires t.Valid()
    decreases |prog|
  {
    prog == [] ||
    (|t.shape| >= 2 && Supported(prog[0], t)
      && (StepDense(t, prog[0]).Some? ==> SupportedRun(StepDense(t, prog[0]).value, prog[1..])))
  }

  lemma {:induction false} RunRefinesFrom(p: Lora, prog: seq<Op>)
    requires Good(p) && LegalRun(p.Mat(), prog)
    ensures RunPair(p, prog).Some? ==>
      Good(RunPair(p, prog).value) && RunDense(p.Mat(), prog) == Some(RunPair(p, prog).value.Mat())
    ensures RunDense(p.Mat(), prog).Some? && SupportedRun(p.Mat(), prog) ==> RunPair(p, prog).Some?
    decreases |prog|
  {
    hide StepPair, StepDense, Lora.Mat, Supported, Legal;
    if prog == [] {
    } else {
      StepRefines(p, prog[0]);
      var s := StepPair(p, prog[0]);
      if s.Some? { RunRefinesFrom(s.value, prog[1..]); }
    }
  }

  /**
   Refinement over whole programs. From a two-dimensional pair of non-zero rank, a program that
   runs on the factors ends in a pair that stands for what the same program makes of B @ A, with
   A's batch dimensions still all 1; and every program of supported operations that runs on
   B @ A also runs on the factors.
   */
  lemma RunRefines(a: Tensor, b: Tensor, prog: seq<Op>)
    requires a.Valid() && b.Valid() && |a.shape| == |b.shape| == 2 && a.shape[0] == b.shape[1] > 0
    requires var w := Lora(a, b); w.Valid() && w.Broadcasts() && LegalRun(w.Mat(), prog)
    ensures var w := Lora(a, b);
      && (RunPair(w, prog).Some? ==>
            RunPair(w, prog).value.LeadOnes() && RunPair(w, prog).value.Broadcasts()
            && RunDense(w.Mat(), prog) == Some(RunPair(w, prog).value.Mat()))
      && (RunDense(w.Mat(), prog).Some? && SupportedRun(w.Mat(), prog) ==> RunPair(w, prog).Some?)
  {
    assert Good(Lora(a, b));
    RunRefinesFrom(Lora(a, b), prog);
  }

  // ---------- the row permutation of attention weights ----------

  lemma Flat4(x: nat, y: nat, z: nat, w: nat, a: nat, b: nat, c: nat, d: nat)
    ensures Flat([x, y, z, w], [a, b, c, d]) == ((a * y + b) * z + c) * w + d
    ensures Prod([x, y, z, w]) == x * y * z * w
  {
    assert [x, y] == [x] + [y] && [x, y, z] == [x, y] + [z] && [x, y, z, w] == [x, y, z] + [w];
    assert [a, b] == [a] + [b] && [a, b, c] == [a, b] + [c] && [a, b, c, d] == [a, b, c] + [d];
    FlatLast([], x, [], a);
    FlatLast([x], y, [a], b);
    FlatLast([x, y], z, [a, b], c);
    FlatLast([x, y, z], w, [a, b, c], d);
    assert [] + [x] == [x] && [] + [a] == [a];
  }

  lemma Flat2(x: nat, y: nat, a: nat, b: nat)
    ensures Flat([x, y], [a, b]) == a * y + b && Prod([x, y]) == x * y
  {
    assert [x, y] == [x] + [y] && [a, b] == [a] + [b];
    FlatLast([], x, [], a);
    FlatLast([x], y, [a], b);
    assert [] + [x] == [x] && [] + [a] == [a];
  }

  /** Number of rows: h heads of two halves with k positions each. */
  function Rows(h: nat, k: nat): nat {
    h * 2 * k
  }

  /** Row of head a, half b, position c before the permutation. */
  function OldRow(k: nat, a: nat, b: nat, c: nat): nat {
    (a * 2 + b) * k + c
  }

  /** Its row afterwards: positions outermost, the two halves interleaved. */
  function NewRow(k: nat, a: nat, b: nat, c: nat): nat {
    (a * k + c) * 2 + b
  }

  /** Entry (to, j) of `v` is entry (from, j) of `w`. */
  predicate RowMoved(w: Tensor, v: Tensor, from: nat, to: nat, j: nat)
    requires w.Valid() && v.Valid()
  {
    InBounds(w.shape, [from, j]) && InBounds(v.shape, [to, j]) && v.At([to, j]) == w.At([from, j])
  }

  /** The program of `permute(weights, n_head)`: split the rows as (h, 2, k), swap 2 and k, regroup. */
  function HeadPermutation(h: nat, k: nat, n: nat): seq<Op> {
    [ReshapeOp([h, 2, k, n]), PermuteOp([0, 2, 1, 3]), ReshapeOp([Rows(h, k), n])]
  }

  lemma HeadBounds(h: nat, k: nat, a: nat, b: nat, c: nat)
    requires a < h && b < 2 && c < k
    ensures NewRow(k, a, b, c) < Rows(h, k) && OldRow(k, a, b, c) < Rows(h, k)
  {
    MulStep(a, h, k);
    MulStep(a * 2 + b, h * 2, k);
    Associate(h, 2, k);
    Associate(h, k, 2);
  }

  /** The three dense steps. */
  lemma HeadSteps(w: Tensor, h: nat, k: nat, n: nat) returns (x: Tensor, y: Tensor, v: Tensor)
    requires w.Valid() && w.shape == [Rows(h, k), n]
    ensures x == Tensor([h, 2, k, n], w.data) && x.Valid() && Reshape(w, [h, 2, k, n]) == Some(x)
    ensures IsPermutation([0, 2, 1, 3]) && y == Transposed(x, [0, 2, 1, 3]) && Permute(x, [0, 2, 1, 3]) == Some(y)
    ensures y.shape == [h, k, 2, n]
    ensures v == Tensor([Rows(h, k), n], y.data) && v.Valid() && Reshape(y, [Rows(h, k), n]) == Some(v)
  {
    hide Flat, Prod, Reshape, Known, Inferred, Unflat;
    Flat2(Rows(h, k), n, 0, 0);
    Flat4(h, 2, k, n, 0, 0, 0, 0);
    Flat4(h, k, 2, n, 0, 0, 0, 0);
    Associate(h, 2, k);
    Associate(h, k, 2);
    x := Tensor([h, 2, k, n], w.data);
    ExplicitReshape(w, [h, 2, k, n], [h, 2, k, n]);
    var p := [0, 2, 1, 3];
    assert p[0] == 0 && p[1] == 2 && p[2] == 1 && p[3] == 3;
    assert WrapAll(p) == p;
    y := Transposed(x, p);
    v := Tensor([Rows(h, k), n], y.data);
    ExplicitReshape(y, [Rows(h, k), n], [Rows(h, k), n]);
  }

  lemma HeadSource(a: nat, b: nat, c: nat, j: nat)
    ensures IsPermutation([0, 2, 1, 3]) && PermSource([0, 2, 1, 3], [a, c, b, j]) == [a, b, c, j]
  {
    var p := [0, 2, 1, 3];
    assert p[0] == 0 && p[1] == 2 && p[2] == 1 && p[3] == 3;
    var src := PermSource(p, [a, c, b, j]);
    assert src[p[0]] == a && src[p[1]] == c && src[p[2]] == b && src[p[3]] == j;
  }

  lemma HeadFlats(h: nat, k: nat, n: nat, a: nat, b: nat, c: nat, j: nat)
    ensures Flat([h, k, 2, n], [a, c, b, j]) == Flat([Rows(h, k), n], [NewRow(k, a, b, c), j])
    ensures Flat([h, 2, k, n], [a, b, c, j]) == Flat([Rows(h, k), n], [OldRow(k, a, b, c), j])
  {
    Flat4(h, 2, k, n, a, b, c, j);
    Flat4(h, k, 2, n, a, c, b, j);
    Flat2(Rows(h, k), n, NewRow(k, a, b, c), j);
    Flat2(Rows(h, k), n, OldRow(k, a, b, c), j);
  }

  /** Reading one data position through two shapes. */
  lemma SamePosition(s: Tensor, t: Tensor, i: seq<nat>, j: seq<nat>)
    requires s.Valid() && t.Valid() && s.data == t.data && InBounds(s.shape, i) && InBounds(t.shape, j)
    requires Flat(s.shape, i) == Flat(t.shape, j)
    ensures s.At(i) == t.At(j)
  {
  }

  lemma HeadSwap(x: Tensor, y: Tensor, a: nat, b: nat, c: nat, j: nat)
    requires x.Valid() && |x.shape| == 4 && IsPermutation([0, 2, 1, 3]) && y == Transposed(x, [0, 2, 1, 3])
    requires InBounds(y.shape, [a, c, b, j])
    ensures InBounds(x.shape, [a, b, c, j]) && y.At([a, c, b, j]) == x.At([a, b, c, j])
  {
    hide Flat, Prod;
    HeadSource(a, b, c, j);
  }

  lemma HeadEntry(w: Tensor, x: Tensor, y: Tensor, v: Tensor, h: nat, k: nat, n: nat, a: nat, b: nat, c: nat, j: nat)
    requires w.Valid() && w.shape == [Rows(h, k), n] && x == Tensor([h, 2, k, n], w.data) && x.Valid()
    requires IsPermutation([0, 2, 1, 3]) && y == Transposed(x, [0, 2, 1, 3]) && y.shape == [h, k, 2, n]
    requires v == Tensor([Rows(h, k), n], y.data) && v.Valid() && a < h && b < 2 && c < k && j < n
    ensures RowMoved(w, v, OldRow(k, a, b, c), NewRow(k, a, b, c), j)
  {
    hide Flat, Prod, Rows, NewRow, OldRow, Transposed, Tensor.At;
    HeadBounds(h, k, a, b, c);
    HeadSwap(x, y, a, b, c, j);
    HeadFlats(h, k, n, a, b, c, j);
    assert InBounds(y.shape, [a, c, b, j]) && InBounds(x.shape, [a, b, c, j]);
    SamePosition(v, y, [NewRow(k, a, b, c), j], [a, c, b, j]);
    SamePosition(x, w, [a, b, c, j], [OldRow(k, a, b, c), j]);
  }

  lemma HeadRun(w: Tensor, x: Tensor, y: Tensor, v: Tensor, h: nat, k: nat, n: nat)
    requires w.Valid() && x.Valid() && y.Valid()
    requires Reshape(w, [h, 2, k, n]) == Some(x) && Permute(x, [0, 2, 1, 3]) == Some(y)
    requires Reshape(y, [Rows(h, k), n]) == Some(v)
    ensures RunDense(w, HeadPermutation(h, k, n)) == Some(v)
  {
    hide Reshape, Permute;
    var prog := HeadPermutation(h, k, n);
    assert prog[1..][0] == PermuteOp([0, 2, 1, 3]) && prog[1..][1..][0] == ReshapeOp([Rows(h, k), n]);
    assert StepDense(w, prog[0]) == Some(x) && StepDense(x, prog[1]) == Some(y) && StepDense(y, prog[2]) == Some(v);
    assert RunDense(v, prog[1..][1..][1..]) == Some(v);
    assert RunDense(y, prog[1..][1..]) == Some(v);
    assert RunDense(x, prog[1..]) == Some(v);
  }

  lemma HeadLegal(w: Tensor, x: Tensor, y: Tensor, v: Tensor, h: nat, k: nat, n: nat)
    requires w.Valid() && x.Valid() && y.Valid() && n > 0
    requires |w.shape| == 2 && w.shape[1] == n && |x.shape| == |y.shape| == 4 && x.shape[3] == y.shape[3] == n
    requires v.shape == [Rows(h, k), n]
    requires Reshape(w, [h, 2, k, n]) == Some(x) && Permute(x, [0, 2, 1, 3]) == Some(y)
    requires Reshape(y, [Rows(h, k), n]) == Some(v)
    ensures LegalRun(w, HeadPermutation(h, k, n)) && SupportedRun(w, HeadPermutation(h, k, n))
  {
    hide Reshape, Permute;
    var prog := HeadPermutation(h, k, n);
    assert prog[1..][0] == PermuteOp([0, 2, 1, 3]) && prog[1..][1..][0] == ReshapeOp([Rows(h, k), n]);
    NonNegativeKnown([h, 2, k, n]);
    NonNegativeKnown([Rows(h, k), n]);
    assert WrapAll([0, 2, 1, 3])[3] == 3;
    assert LegalRun(v, prog[1..][1..][1..]) && SupportedRun(v, prog[1..][1..][1..]);
    assert LegalRun(y, prog[1..][1..]) && SupportedRun(y, prog[1..][1..]);
    assert LegalRun(x, prog[1..]) && SupportedRun(x, prog[1..]);
  }

  /**
   The attention row permutation of the converter, run on the factors: it succeeds, and the pair
   it yields has the rows of B @ A in the order (head, position, half) instead of (head, half, position).
   */
  lemma HeadPermutationOnFactors(p: Lora, h: nat, k: nat, n: nat)
    requires Good(p) && p.Shape() == [Rows(h, k), n] && n > 0
    ensures RunPair(p, HeadPermutation(h, k, n)).Some?
    ensures var s := RunPair(p, HeadPermutation(h, k, n)).value;
      && Good(s) && s.Shape() == p.Shape()
      && forall a: nat, b: nat, c: nat, j: nat | a < h && b < 2 && c < k && j < n ::
        RowMoved(p.Mat(), s.Mat(), OldRow(k, a, b, c), NewRow(k, a, b, c), j)
  {
    hide Rows, NewRow, OldRow, RunPair, RunDense, HeadPermutation, Flat, Prod, Reshape, Permute, Lora.Mat, LegalRun,
      SupportedRun, RowMoved;
    var w := p.Mat();
    var x, y, v := HeadSteps(w, h, k, n);
    HeadLegal(w, x, y, v, h, k, n);
    HeadRun(w, x, y, v, h, k, n);
    RunRefinesFrom(p, HeadPermutation(h, k, n));
    forall a: nat, b: nat, c: nat, j: nat | a < h && b < 2 && c < k && j < n
      ensures RowMoved(w, v, OldRow(k, a, b, c), NewRow(k, a, b, c), j)
    {
      HeadEntry(w, x, y, v, h, k, n, a, b, c, j);
    }
  }

  /** `swapaxes(1, 2)` on four dimensions is the permutation used above. */
  lemma SwapMiddle(p: Lora)
    requires p.Valid() && |p.A.shape| == 4
    ensures SwapPair(p, 1, 2) == PermutePair(p, [0, 2, 1, 3])
  {
    assert SwapDims(4, 1, 2).value == [0, 2, 1, 3];
  }

  // ---------- split / cat and stack / index ----------

  predicate SliceAt(ts: seq<Tensor>, d: seq<real>, cuts: seq<nat>, i: nat)
    requires |cuts| == |ts| + 1 && i < |ts|
  {
    cuts[i] <= cuts[i + 1] <= |d| && ts[i].data == d[cuts[i]..cuts[i + 1]]
  }

  /** Consecutive slices of a sequence concatenate to the slice they cover. */
  lemma {:induction false} CatSlices(ts: seq<Tensor>, d: seq<real>, cuts: seq<nat>)
    requires |cuts| == |ts| + 1 && ts != []
    requires forall i: nat | i < |ts| :: SliceAt(ts, d, cuts, i)
    ensures cuts[0] <= cuts[|ts|] <= |d| && CatData(ts) == d[cuts[0]..cuts[|ts|]]
  {
    hide Prod;
    assert SliceAt(ts, d, cuts, 0);
    if |ts| == 1 {
      assert CatData(ts[1..]) == [];
    } else {
      forall i: nat | i < |ts[1..]| ensures SliceAt(ts[1..], d, cuts[1..], i) {
        assert SliceAt(ts, d, cuts, i + 1);
      }
      CatSlices(ts[1..], d, cuts[1..]);
    }
  }

  lemma NarrowFlat(shape: seq<nat>, start: nat, idx: seq<nat>, len: nat)
    requires shape != [] && |idx| == |shape|
    ensures Flat(shape, idx[0 := start + idx[0]]) == start * Prod(shape[1..]) + Flat(shape[0 := len], idx)
  {
    hide Flat, Prod;
    var moved, cut := idx[0 := start + idx[0]], shape[0 := len];
    assert cut[1..] == shape[1..] && moved[1..] == idx[1..];
    FlatFirst(shape, moved);
    FlatFirst(cut, idx);
    AddMul(start, idx[0], Prod(shape[1..]));
  }

  lemma FlatFirst(shape: seq<nat>, idx: seq<nat>)
    requires shape != [] && |idx| == |shape|
    ensures Flat(shape, idx) == idx[0] * Prod(shape[1..]) + Flat(shape[1..], idx[1..])
  {
    hide Prod;
  }

  lemma NarrowDataAt(t: Tensor, start: nat, len: nat, f: nat)
    requires t.Valid() && t.shape != [] && start + len <= t.shape[0] && f < |Narrow(t, 0, start, len).data|
    ensures start * Prod(t.shape[1..]) + f < |t.data|
    ensures Narrow(t, 0, start, len).data[f] == t.data[start * Prod(t.shape[1..]) + f]
  {
    hide Narrow;
    var r := Narrow(t, 0, start, len);
    DataAt(r, f);
    var idx := Unflat(r.shape, f);
    UnflatInBounds(r.shape, f);
    NarrowFlat(t.shape, start, idx, len);
    FlatBound(t.shape, idx[0 := start + idx[0]]);
  }

  /** A piece along dimension 0 is a slice of the data. */
  lemma NarrowData(t: Tensor, start: nat, len: nat)
    requires t.Valid() && t.shape != [] && start + len <= t.shape[0]
    ensures var p := Prod(t.shape[1..]);
      && 0 <= start * p <= (start + len) * p <= |t.data|
      && Narrow(t, 0, start, len).data == t.data[start * p..(start + len) * p]
  {
    hide Narrow;
    var r := Narrow(t, 0, start, len);
    var p := Prod(t.shape[1..]);
    MulMono(start, start + len, p);
    MulMono(start + len, t.shape[0], p);
    assert r.shape[1..] == t.shape[1..];
    AddMul(start, len, p);
    forall f | 0 <= f < |r.data| ensures r.data[f] == t.data[start * p..(start + len) * p][f] {
      NarrowDataAt(t, start, len, f);
    }
  }

  function Cuts(sizes: seq<nat>, p: nat): (r: seq<nat>)
    ensures |r| == |sizes| + 1 && forall k | 0 <= k <= |sizes| :: r[k] == Offset(sizes, k) * p
  {
    seq(|sizes| + 1, k requires 0 <= k <= |sizes| => Offset(sizes, k) * p)
  }

  lemma PieceSlice(t: Tensor, sizes: seq<nat>, k: nat)
    requires t.Valid() && t.shape != [] && Sum(sizes) == t.shape[0] && k < |sizes|
    ensures SliceAt(Pieces(t, 0, sizes), t.data, Cuts(sizes, Prod(t.shape[1..])), k)
  {
    hide Narrow, Prod, Offset, Sum, Pieces, Cuts;
    OffsetFits(sizes, k);
    PieceIs(t, sizes, k);
    NarrowData(t, Offset(sizes, k), sizes[k]);
  }

  lemma PieceIs(t: Tensor, sizes: seq<nat>, k: nat)
    requires t.Valid() && t.shape != [] && Sum(sizes) == t.shape[0] && k < |sizes|
    ensures Offset(sizes, k) + sizes[k] <= t.shape[0]
    ensures Pieces(t, 0, sizes)[k] == Narrow(t, 0, Offset(sizes, k), sizes[k])
  {
    hide Narrow, Prod, Offset, Sum;
    OffsetFits(sizes, k);
  }

  /** Splitting along dimension 0 and concatenating the pieces gives the tensor back. */
  lemma CatPieces(t: Tensor, sizes: seq<nat>)
    requires t.Valid() && t.shape != [] && Sum(sizes) == t.shape[0] && sizes != []
    ensures Cat(Pieces(t, 0, sizes)) == Some(t)
  {
    hide Narrow, SliceAt, Offset, Prod, Sum, CatData;
    var ts := Pieces(t, 0, sizes);
    var p := Prod(t.shape[1..]);
    forall k: nat | k < |ts| ensures SliceAt(ts, t.data, Cuts(sizes, p), k) { PieceSlice(t, sizes, k); }
    CatSlices(ts, t.data, Cuts(sizes, p));
    CutEnds(sizes);
    assert Heads(ts) == sizes;
    assert forall k | 0 <= k < |ts| :: ts[k].shape != [] && ts[k].shape[1..] == t.shape[1..];
    assert t.shape == [t.shape[0]] + t.shape[1..];
    assert t.data[0..|t.data|] == t.data;
  }

  lemma CutEnds(sizes: seq<nat>)
    ensures Offset(sizes, 0) == 0 && Offset(sizes, |sizes|) == Sum(sizes)
  {
    assert sizes[..|sizes|] == sizes;
  }

  /** `torch.cat` undoes a row split of a matrix pair: both factors are restored. */
  lemma CatOfSplit(p: Lora, cut: Cut)
    requires p.Valid() && p.Leads() == 0 && SplitPair(p, cut, 0).Some? && SplitPair(p, cut, 0).value != []
    ensures CatPairs(SplitPair(p, cut, 0).value) == Some(p)
  {
    hide Prod, Cat, Pieces;
    var ps := SplitPair(p, cut, 0).value;
    var sizes := PieceSizes(cut, p.B.shape[0]).value;
    PieceSizesSum(cut, p.B.shape[0]);
    var b := Pieces(p.B, 0, sizes);
    SplitParts(p, cut, sizes, b);
    assert Bs(ps) == b;
    CatPieces(p.B, sizes);
  }

  lemma SplitParts(p: Lora, cut: Cut, sizes: seq<nat>, b: seq<Tensor>)
    requires p.Valid() && p.Leads() == 0 && SplitPair(p, cut, 0).Some?
    requires PieceSizes(cut, p.B.shape[0]) == Some(sizes) && Sum(sizes) == p.B.shape[0]
    requires b == Pieces(p.B, 0, sizes)
    ensures var ps := SplitPair(p, cut, 0).value;
      |ps| == |b| && forall k | 0 <= k < |ps| :: ps[k].A == p.A && ps[k].B == b[k]
  {
    hide Pieces, PieceSizes;
    assert Split(p.B, cut, -2) == Some(b);
    assert MakeAll(seq(|b|, _ => p.A), b).Some?;
  }

  /** Entry `f` of part `k` of a stack. */
  lemma {:induction false} StackDataAt(ts: seq<Tensor>, shape: seq<nat>, k: nat, f: nat)
    requires forall i | 0 <= i < |ts| :: ts[i].Valid() && ts[i].shape == shape
    requires k < |ts| && f < Prod(shape)
    ensures k * Prod(shape) + f < |CatData(ts)| && f < |ts[k].data|
    ensures CatData(ts)[k * Prod(shape) + f] == ts[k].data[f]
  {
    StackLength(ts, shape);
    MulStep(k, |ts|, Prod(shape));
    if k == 0 {
    } else {
      StackDataAt(ts[1..], shape, k - 1, f);
      AddMul(1, k - 1, Prod(shape));
    }
  }

  /** The selection made by a single integer on dimension 0. */
  function HeadSels(k: nat, shape: seq<nat>): (r: seq<Sel>)
    ensures |r| == |shape| + 1
  {
    [Pick(k)] + seq(|shape|, i requires 0 <= i < |shape| => Range(0, 1, shape[i]))
  }

  lemma HeadSelsAt(k: nat, shape: seq<nat>, idx: seq<nat>)
    ensures SelShape(HeadSels(k, shape)) == shape
    ensures |idx| == |shape| ==> Expand(HeadSels(k, shape), idx) == [k] + idx
  {
    var tail := HeadSels(k, shape)[1..];
    PlainSels(tail, idx);
    assert HeadSels(k, shape) == [Pick(k)] + tail;
    assert SelShape(tail) == shape;
    if |idx| == |shape| { assert Expand(tail, idx) == idx; }
  }

  lemma HeadResolve(t: Tensor, j: int, rest: seq<nat>)
    requires t.Valid() && t.shape != [] && t.shape[1..] == rest && -(t.shape[0] as int) <= j < t.shape[0]
    ensures var k := Wrap(j, t.shape[0]);
      AllFit(HeadSels(k, rest), t.shape) && Index(t, [Int(j)]) == Some(Select(t, HeadSels(k, rest)))
  {
    hide Select;
    var full := Pad([Int(j)], |t.shape|);
    assert full[0] == Int(j) && forall i | 1 <= i < |full| :: full[i] == ALL;
    assert forall i | 1 <= i < |full| :: t.shape[i] == rest[i - 1];
    forall i | 1 <= i < |full| ensures Resolve(full[i], t.shape[i]) == Some(Range(0, 1, t.shape[i])) {
    }
    assert Sels(full, t.shape) == HeadSels(Wrap(j, t.shape[0]), rest);
  }

  /** Indexing a stack gives back the stacked tensor. */
  lemma IndexOfStack(ts: seq<Tensor>, s: Tensor, j: int)
    requires forall i | 0 <= i < |ts| :: ts[i].Valid()
    requires Stack(ts) == Some(s) && -(|ts| as int) <= j < |ts|
    ensures Index(s, [Int(j)]) == Some(ts[Wrap(j, |ts|)])
  {
    hide Select, Index;
    var k := Wrap(j, |ts|);
    var shape := ts[0].shape;
    assert ts[k].shape == shape && s.shape[1..] == shape;
    HeadResolve(s, j, shape);
    var r := Select(s, HeadSels(k, shape));
    HeadSelsAt(k, shape, []);
    forall idx | InBounds(shape, idx) ensures r.At(idx) == ts[k].At(idx) {
      StackEntry(ts, s, k, shape, r, idx);
    }
    TensorsEqual(r, ts[k]);
  }

  lemma StackEntry(ts: seq<Tensor>, s: Tensor, k: nat, shape: seq<nat>, r: Tensor, idx: seq<nat>)
    requires forall i | 0 <= i < |ts| :: ts[i].Valid() && ts[i].shape == shape
    requires s == Tensor([|ts|] + shape, CatData(ts)) && s.Valid() && k < |ts|
    requires AllFit(HeadSels(k, shape), s.shape) && r == Select(s, HeadSels(k, shape)) && r.shape == shape
    requires InBounds(shape, idx)
    ensures r.At(idx) == ts[k].At(idx)
  {
    HeadSelsAt(k, shape, idx);
    assert r.At(idx) == s.At([k] + idx);
    StackedAt(ts, s, k, shape, idx);
  }

  lemma StackedAt(ts: seq<Tensor>, s: Tensor, k: nat, shape: seq<nat>, idx: seq<nat>)
    requires forall i | 0 <= i < |ts| :: ts[i].Valid() && ts[i].shape == shape
    requires s == Tensor([|ts|] + shape, CatData(ts)) && s.Valid() && k < |ts| && InBounds(shape, idx)
    requires InBounds(s.shape, [k] + idx)
    ensures s.At([k] + idx) == ts[k].At(idx)
  {
    hide CatData, Prod, Flat;
    FlatBound(shape, idx);
    StackDataAt(ts, shape, k, Flat(shape, idx));
    FlatFirst(s.shape, [k] + idx);
    assert s.shape[1..] == shape && ([k] + idx)[1..] == idx;
  }

  /** Indexing a stack of pairs by an integer, alone or in a tuple, gives back the pair. */
  lemma IndexOfStackedPairs(ps: seq<Lora>, j: int)
    requires forall i | 0 <= i < |ps| :: ps[i].Valid()
    requires StackPairs(ps).Some? && ps[0].Leads() == 0 && -(|ps| as int) <= j < |ps|
    ensures GetInt(StackPairs(ps).value, j) == Some(ps[Wrap(j, |ps|)])
    ensures GetItem(StackPairs(ps).value, [Int(j)]) == Some(ps[Wrap(j, |ps|)])
  {
    hide Index, Stack, AUnit, Pad;
    var s := StackPairs(ps).value;
    var k := Wrap(j, |ps|);
    IndexOfStack(As(ps), s.A, j);
    IndexOfStack(Bs(ps), s.B, j);
    IndexOfStack(As(ps), s.A, k);
    TupleOfStack(s, |ps|, j, k);
    StackedGets(s, ps[k], |ps|, j, k);
  }

  lemma StackedGets(s: Lora, p: Lora, n: nat, j: int, k: nat)
    requires s.Valid() && p.Valid() && |s.A.shape| == 3 && s.A.shape[0] == n > 0
    requires Index(s.A, [Int(j)]) == Some(p.A) && Index(s.B, [Int(j)]) == Some(p.B)
    requires Index(s.A, AUnit(s.A.shape[..1], [Int(j)]) + [ALL] + [ALL]) == Some(p.A)
    requires Index(s.B, [Int(j), ALL]) == Some(p.B) && Pad([Int(j)], 3) == [Int(j), ALL, ALL]
    ensures GetInt(s, j) == Some(p) && GetItem(s, [Int(j)]) == Some(p)
  {
    hide Index, AUnit, Pad;
    var full := [Int(j), ALL, ALL];
    assert full[..1] == [Int(j)] && full[..2] == [Int(j), ALL] && full[2] == ALL;
  }

  lemma TupleOfStack(s: Lora, n: nat, j: int, k: nat)
    requires s.Valid() && |s.A.shape| == 3 && s.A.shape[0] == n && -(n as int) <= j < n && k == Wrap(j, n)
    ensures Index(s.A, AUnit(s.A.shape[..1], [Int(j)]) + [ALL] + [ALL]) == Index(s.A, [Int(k)])
    ensures Index(s.B, [Int(j), ALL]) == Index(s.B, [Int(j)])
    ensures Pad([Int(j)], 3) == [Int(j), ALL, ALL]
  {
    assert j % n == k;
    assert Pad([Int(j)], 3) == [Int(j), ALL, ALL];
    assert Pad([Int(k)], 3) == [Int(k), ALL, ALL];
    assert Pad([Int(j), ALL], 3) == [Int(j), ALL, ALL];
    assert AUnit(s.A.shape[..1], [Int(j)]) + [ALL] + [ALL] == [Int(k), ALL, ALL];
    assert Pad([Int(k), ALL, ALL], 3) == [Int(k), ALL, ALL];
  }
}
