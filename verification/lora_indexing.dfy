/** Indexing and splitting the factors is indexing and splitting the dense product. */
module LoraIndexing {
  import opened Wrappers
  import opened Sequences
  import opened Tensors
  import opened TorchOps
  import opened LoraTensors

  /** The last two components are slices, so that the result is still a matrix. */
  predicate KeepsMatrix(ixs: seq<Ix>, rank: nat)
    requires |ixs| <= rank && rank >= 2
  {
    Pad(ixs, rank)[rank - 2].Slice? && Pad(ixs, rank)[rank - 1].Slice?
  }

  /** Selections of the batch dimensions of A: each keeps or drops a dimension of size 1. */
  function UnitSels(other: seq<Sel>): (lead: seq<Sel>)
    ensures |lead| == |other|
  {
    if other == [] then []
    else [if other[0].Pick? then Pick(0) else Range(0, 1, 1)] + UnitSels(other[1..])
  }

  lemma {:induction false} UnitSelsAt(other: seq<Sel>, i: nat)
    requires i < |other|
    ensures UnitSels(other)[i] == if other[i].Pick? then Pick(0) else Range(0, 1, 1)
  {
    if i > 0 { UnitSelsAt(other[1..], i - 1); }
  }

  lemma {:induction false} UnitSelsShape(other: seq<Sel>)
    ensures SelShape(UnitSels(other)) == Fills(|SelShape(other)|, 1)
  {
    if other == [] {
    } else {
      UnitSelsShape(other[1..]);
      assert UnitSels(other)[1..] == UnitSels(other[1..]);
    }
  }

  /** One batch dimension more, picked. */
  lemma UnitPick(other: seq<Sel>)
    requires other != [] && other[0].Pick? && |SelShape(UnitSels(other[1..]))| == |SelShape(other[1..])|
    ensures SelShape(other) == SelShape(other[1..]) && SelShape(UnitSels(other)) == SelShape(UnitSels(other[1..]))
    ensures Expand(UnitSels(other), Fills(|SelShape(other)|, 0))
            == [0] + Expand(UnitSels(other[1..]), Fills(|SelShape(other[1..])|, 0))
  {
    hide Fills;
    assert UnitSels(other)[0] == Pick(0) && UnitSels(other)[1..] == UnitSels(other[1..]);
  }

  /** One batch dimension more, kept. */
  lemma UnitKeep(other: seq<Sel>)
    requires other != [] && other[0].Range? && |SelShape(UnitSels(other[1..]))| == |SelShape(other[1..])|
    ensures |SelShape(other)| == |SelShape(other[1..])| + 1 == |SelShape(UnitSels(other))|
    ensures Expand(UnitSels(other), Fills(|SelShape(other)|, 0))
            == [0] + Expand(UnitSels(other[1..]), Fills(|SelShape(other[1..])|, 0))
  {
    var n := |SelShape(other[1..])|;
    assert UnitSels(other)[0] == Range(0, 1, 1) && UnitSels(other)[1..] == UnitSels(other[1..]);
    assert Fills(n + 1, 0) == [0] + Fills(n, 0);
    hide Fills;
    assert ([0] + Fills(n, 0))[1..] == Fills(n, 0);
  }

  lemma {:induction false} UnitSelsExpand(other: seq<Sel>)
    ensures |SelShape(UnitSels(other))| == |SelShape(other)|
    ensures Expand(UnitSels(other), Fills(|SelShape(other)|, 0)) == Fills(|other|, 0)
  {
    if other == [] {
    } else {
      UnitSelsExpand(other[1..]);
      UnitStep(other);
      assert Fills(|other|, 0) == [0] + Fills(|other[1..]|, 0);
    }
  }

  lemma UnitStep(other: seq<Sel>)
    requires other != [] && |SelShape(UnitSels(other[1..]))| == |SelShape(other[1..])|
    ensures |SelShape(UnitSels(other))| == |SelShape(other)|
    ensures Expand(UnitSels(other), Fills(|SelShape(other)|, 0))
            == [0] + Expand(UnitSels(other[1..]), Fills(|SelShape(other[1..])|, 0))
  {
    hide Expand, UnitSels, SelShape, Fills;
    if other[0].Pick? { UnitPick(other); } else { UnitKeep(other); }
  }

  /** Resolving a concatenation is resolving the parts. */
  lemma SelsLast(ixs: seq<Ix>, ix: Ix, shape: seq<nat>, n: nat)
    requires |ixs| == |shape|
    ensures Resolvable(ixs + [ix], shape + [n]) <==> Resolvable(ixs, shape) && Resolve(ix, n).Some?
    ensures Resolvable(ixs + [ix], shape + [n]) ==>
      Sels(ixs + [ix], shape + [n]) == Sels(ixs, shape) + [Resolve(ix, n).value]
  {
    var a, s := ixs + [ix], shape + [n];
    assert forall k | 0 <= k < |ixs| :: a[k] == ixs[k] && s[k] == shape[k];
    assert a[|ixs|] == ix && s[|ixs|] == n;
    if Resolvable(a, s) {
      forall k | 0 <= k < |ixs| ensures Resolve(ixs[k], shape[k]).Some? { assert Resolve(a[k], s[k]).Some?; }
    }
  }

  lemma SelShapeLast(sels: seq<Sel>, last: Sel)
    requires last.Range?
    ensures SelShape(sels + [last]) == SelShape(sels) + [last.len]
  {
    SelShapeConcat(sels, [last]);
    assert SelShape([last]) == [last.len] + SelShape([]);
  }

  lemma ExpandLast(sels: seq<Sel>, last: Sel, idx: seq<nat>, j: nat)
    requires last.Range? && |idx| == |SelShape(sels)|
    ensures |idx + [j]| == |SelShape(sels + [last])|
    ensures Expand(sels + [last], idx + [j]) == Expand(sels, idx) + [last.Source(j)]
  {
    SelShapeLast(sels, last);
    assert SelShape([last]) == [last.len] + SelShape([]);
    ExpandConcat(sels, [last], idx, [j]);
    assert Expand([last], [j]) == [last.Source(j)] + Expand([], []);
  }

  /** The batch components applied to A resolve, and select position 0 or everything. */
  lemma LeadSels(aLead: seq<nat>, lead: seq<Ix>, outer: seq<nat>)
    requires |aLead| == |lead| == |outer| && aLead == Fills(|lead|, 1)
    ensures forall i | 0 <= i < |lead| :: aLead[i] == 1
    ensures var ixs := AUnit(aLead, lead);
      && Resolvable(ixs, aLead)
      && (Resolvable(lead, outer) ==> Sels(ixs, aLead) == UnitSels(Sels(lead, outer)))
  {
    forall i | 0 <= i < |lead| ensures aLead[i] == 1 { FillsAt(|lead|, 1, i); }
    var ixs := AUnit(aLead, lead);
    forall i | 0 <= i < |lead|
      ensures Resolve(ixs[i], aLead[i]) == Some(if lead[i].Int? then Pick(0) else Range(0, 1, 1))
    {
    }
    if Resolvable(lead, outer) {
      var sels := Sels(lead, outer);
      forall i | 0 <= i < |lead| ensures Sels(ixs, aLead)[i] == UnitSels(sels)[i] { UnitSelsAt(sels, i); }
    }
  }

  /** How a tuple index `lead + [row] + [col]` resolves on W and on each factor. */
  lemma IndexParts(p: Lora, lead: seq<Ix>, row: Ix, col: Ix)
    requires p.Valid() && p.LeadOnes() && |lead| == p.Leads()
    ensures Resolvable(lead + [row] + [col], p.Shape())
      <==> Resolvable(lead + [row], p.Outer()) && Resolve(col, p.Cols()).Some?
    ensures Resolvable(lead + [row] + [ALL], p.B.shape) <==> Resolvable(lead + [row], p.Outer())
    ensures forall i | 0 <= i < p.Leads() :: p.A.shape[i] == 1
    ensures var ixs := AUnit(p.A.shape[..p.Leads()], lead) + [ALL] + [col];
      Resolvable(ixs, p.A.shape) <==> Resolve(col, p.Cols()).Some?
  {
    OnesBroadcast(p);
    SelsLast(lead + [row], col, p.Outer(), p.Cols());
    SelsLast(lead + [row], ALL, p.Outer(), p.Rank());
    LeadSels(p.A.shape[..p.Leads()], lead, p.Outer()[..p.Leads()]);
    var ixs := AUnit(p.A.shape[..p.Leads()], lead);
    SelsLast(ixs, ALL, p.A.shape[..p.Leads()], p.Rank());
    SelsLast(ixs + [ALL], col, p.A.shape[..p.Leads()] + [p.Rank()], p.Cols());
  }

  lemma IndexSels(p: Lora, lead: seq<Ix>, row: Ix, col: Ix) returns (qs: seq<Sel>, r: Sel, c: Sel)
    requires p.Valid() && p.LeadOnes() && |lead| == p.Leads()
    requires Resolvable(lead + [row] + [col], p.Shape())
    ensures (r.Pick? <==> row.Int?) && (c.Pick? <==> col.Int?) && AllFit(qs + [r], p.Outer()) && c.Fits(p.Cols())
    ensures Sels(lead + [row] + [col], p.Shape()) == qs + [r] + [c]
    ensures Resolvable(lead + [row] + [ALL], p.B.shape)
    ensures Sels(lead + [row] + [ALL], p.B.shape) == qs + [r] + [Range(0, 1, p.Rank())]
    ensures forall i | 0 <= i < p.Leads() :: p.A.shape[i] == 1
    ensures var ixs := AUnit(p.A.shape[..p.Leads()], lead) + [ALL] + [col];
      Resolvable(ixs, p.A.shape) && Sels(ixs, p.A.shape) == UnitSels(qs) + [Range(0, 1, p.Rank())] + [c]
  {
    OnesBroadcast(p);
    IndexParts(p, lead, row, col);
    var outer := p.Outer();
    assert outer == outer[..p.Leads()] + [outer[p.Leads()]];
    SelsLast(lead, row, outer[..p.Leads()], outer[p.Leads()]);
    qs := Sels(lead, outer[..p.Leads()]);
    r := Resolve(row, outer[p.Leads()]).value;
    c := Resolve(col, p.Cols()).value;
    SelsLast(lead + [row], col, outer, p.Cols());
    SelsLast(lead + [row], ALL, outer, p.Rank());
    assert Resolve(ALL, p.Rank()) == Some(Range(0, 1, p.Rank()));
    hide Resolve, AUnit, UnitSels, Fills;
    IndexSelsA(p, lead, col, outer[..p.Leads()]);
  }

  lemma IndexSelsA(p: Lora, lead: seq<Ix>, col: Ix, outer: seq<nat>)
    requires p.Valid() && p.LeadOnes() && |lead| == |outer| == p.Leads() && Resolvable(lead, outer)
    requires Resolve(col, p.Cols()).Some?
    ensures forall i | 0 <= i < p.Leads() :: p.A.shape[i] == 1
    ensures var ixs := AUnit(p.A.shape[..p.Leads()], lead) + [ALL] + [col];
      && Resolvable(ixs, p.A.shape)
      && Sels(ixs, p.A.shape)
         == UnitSels(Sels(lead, outer)) + [Range(0, 1, p.Rank())] + [Resolve(col, p.Cols()).value]
  {
    OnesBroadcast(p);
    LeadSels(p.A.shape[..p.Leads()], lead, outer);
    var ixs := AUnit(p.A.shape[..p.Leads()], lead);
    hide AUnit, UnitSels, Fills;
    assert Resolve(ALL, p.Rank()) == Some(Range(0, 1, p.Rank()));
    SelsLast(ixs, ALL, p.A.shape[..p.Leads()], p.Rank());
    SelsLast(ixs + [ALL], col, p.A.shape[..p.Leads()] + [p.Rank()], p.Cols());
  }

  lemma UnitSelsFit(p: Lora, qs: seq<Sel>)
    requires p.Valid() && p.LeadOnes() && |qs| == p.Leads()
    ensures AllFit(UnitSels(qs), p.A.shape[..p.Leads()])
  {
    forall i | 0 <= i < |qs| ensures UnitSels(qs)[i].Fits(p.A.shape[..p.Leads()][i]) {
      UnitSelsAt(qs, i);
      FillsAt(p.Leads(), 1, i);
    }
  }

  /** The selections made on the factors fit them, and yield a pair with unit batch dimensions again. */
  lemma SelectedFits(p: Lora, qs: seq<Sel>, r: Sel, c: Sel)
    requires p.Valid() && p.LeadOnes()
    requires AllFit(qs + [r], p.Outer()) && c.Fits(p.Cols())
    ensures var rank := Range(0, 1, p.Rank());
      AllFit(UnitSels(qs) + [rank] + [c], p.A.shape) && AllFit(qs + [r] + [rank], p.B.shape)
    ensures AllFit(qs + [r] + [c], p.Shape())
  {
    OnesBroadcast(p);
    UnitSelsFit(p, qs);
  }

  lemma SelectedShapes(qs: seq<Sel>, r: Sel, c: Sel, rank: nat)
    requires r.Range? && c.Range?
    ensures SelShape(UnitSels(qs) + [Range(0, 1, rank)] + [c]) == Fills(|SelShape(qs)|, 1) + [rank] + [c.len]
    ensures SelShape(qs + [r] + [Range(0, 1, rank)]) == SelShape(qs) + [r.len] + [rank]
    ensures SelShape(qs + [r] + [c]) == SelShape(qs) + [r.len] + [c.len]
  {
    UnitSelsShape(qs);
    SelShapeLast(UnitSels(qs), Range(0, 1, rank));
    SelShapeLast(UnitSels(qs) + [Range(0, 1, rank)], c);
    SelShapeLast(qs, r);
    SelShapeLast(qs + [r], Range(0, 1, rank));
    SelShapeLast(qs + [r], c);
  }

  /** A pair whose factors have the shapes of an unbatched A and a batched B. */
  lemma PairShape(s: Lora, lead: seq<nat>, rows: nat, rank: nat, cols: nat)
    requires s.A.Valid() && s.B.Valid()
    requires s.A.shape == Fills(|lead|, 1) + [rank] + [cols] && s.B.shape == lead + [rows] + [rank]
    ensures s.Valid() && s.LeadOnes() && s.Broadcasts()
    ensures s.Outer() == lead + [rows] && s.Leads() == |lead| && s.Rank() == rank && s.Cols() == cols
  {
    OnesBroadcast(s);
  }

  /** What it means for `s` to be the pair selected from `p` by rows `qs + [r]` and columns `c`. */
  predicate Selected(p: Lora, qs: seq<Sel>, r: Sel, c: Sel, s: Lora) {
    && p.Valid() && p.LeadOnes() && p.Broadcasts() && r.Range? && c.Range?
    && AllFit(qs + [r], p.Outer()) && c.Fits(p.Cols())
    && s.Valid() && s.LeadOnes() && s.Broadcasts() && s.Rank() == p.Rank() && s.Cols() == c.len
    && s.Outer() == SelShape(qs + [r]) && s.Leads() == |SelShape(qs)|
    && AllFit(UnitSels(qs) + [Range(0, 1, p.Rank())] + [c], p.A.shape)
    && AllFit(qs + [r] + [Range(0, 1, p.Rank())], p.B.shape)
    && s.A == Select(p.A, UnitSels(qs) + [Range(0, 1, p.Rank())] + [c])
    && s.B == Select(p.B, qs + [r] + [Range(0, 1, p.Rank())])
  }

  lemma SelectedBEntry(p: Lora, qs: seq<Sel>, r: Sel, c: Sel, s: Lora, q: seq<nat>, k: nat)
    requires Selected(p, qs, r, c, s) && InBounds(s.Outer(), q) && k < p.Rank()
    ensures InBounds(p.Outer(), Expand(qs + [r], q))
    ensures s.BAt(q, k) == p.BAt(Expand(qs + [r], q), k)
  {
    hide Flat, Prod, Expand, SelShape;
    ExpandInBounds(qs + [r], p.Outer(), q);
    ExpandLast(qs + [r], Range(0, 1, p.Rank()), q, k);
    assert InBounds(s.B.shape, q + [k]);
  }

  lemma SelectedAEntry(p: Lora, qs: seq<Sel>, r: Sel, c: Sel, s: Lora, q: seq<nat>, k: nat, j: nat)
    requires Selected(p, qs, r, c, s) && InBounds(s.Outer(), q) && k < p.Rank() && j < s.Cols()
    ensures InBounds(p.Outer(), Expand(qs + [r], q)) && c.Source(j) < p.Cols()
    ensures s.AAt(q, k, j) == p.AAt(Expand(qs + [r], q), k, c.Source(j))
  {
    ExpandInBounds(qs + [r], p.Outer(), q);
    SourceFits(c, p.Cols(), j);
    AAtOnes(s, q, k, j);
    AAtOnes(p, Expand(qs + [r], q), k, c.Source(j));
    ASource(p, qs, c, k, j);
    SelectAt(p.A, UnitSels(qs) + [Range(0, 1, p.Rank())] + [c], s.A,
      Fills(s.Leads(), 0) + [k] + [j], Fills(p.Leads(), 0) + [k] + [c.Source(j)]);
  }

  lemma SelectAt(t: Tensor, sels: seq<Sel>, s: Tensor, idx: seq<nat>, src: seq<nat>)
    requires t.Valid() && AllFit(sels, t.shape) && s == Select(t, sels) && InBounds(s.shape, idx)
    requires src == Expand(sels, idx)
    ensures InBounds(t.shape, src) && s.At(idx) == t.At(src)
  {
  }

  lemma ASource(p: Lora, qs: seq<Sel>, c: Sel, k: nat, j: nat)
    requires p.Valid() && c.Range?
    requires |qs| == p.Leads()
    ensures var z := Fills(|SelShape(qs)|, 0) + [k] + [j];
      && |z| == |SelShape(UnitSels(qs) + [Range(0, 1, p.Rank())] + [c])|
      && Expand(UnitSels(qs) + [Range(0, 1, p.Rank())] + [c], z) == Fills(p.Leads(), 0) + [k] + [c.Source(j)]
  {
    var rank := Range(0, 1, p.Rank());
    UnitSelsExpand(qs);
    ExpandLast(UnitSels(qs), rank, Fills(|SelShape(qs)|, 0), k);
    ExpandLast(UnitSels(qs) + [rank], c, Fills(|SelShape(qs)|, 0) + [k], j);
  }

  /** Selecting rows of B and columns of A selects from the dense product. */
  lemma SelectRefines(p: Lora, qs: seq<Sel>, r: Sel, c: Sel) returns (s: Lora)
    requires p.Valid() && p.LeadOnes() && p.Broadcasts() && r.Range? && c.Range?
    requires AllFit(qs + [r], p.Outer()) && c.Fits(p.Cols())
    ensures var rank := Range(0, 1, p.Rank());
      && AllFit(UnitSels(qs) + [rank] + [c], p.A.shape) && AllFit(qs + [r] + [rank], p.B.shape)
      && Make(Select(p.A, UnitSels(qs) + [rank] + [c]), Select(p.B, qs + [r] + [rank])) == Some(s)
    ensures s.Valid() && s.LeadOnes() && s.Broadcasts() && s.Rank() == p.Rank()
    ensures AllFit(qs + [r] + [c], p.Shape()) && s.Mat() == Select(p.Mat(), qs + [r] + [c])
  {
    hide Flat, Prod, Lora.Mat, Expand, UnitSels, SelShape, Fills;
    var rank := Range(0, 1, p.Rank());
    SelectedFits(p, qs, r, c);
    SelectedShapes(qs, r, c, p.Rank());
    s := Lora(Select(p.A, UnitSels(qs) + [rank] + [c]), Select(p.B, qs + [r] + [rank]));
    PairShape(s, SelShape(qs), r.len, p.Rank(), c.len);
    SelShapeLast(qs, r);
    var w := Select(p.Mat(), qs + [r] + [c]);
    forall idx | InBounds(s.Shape(), idx) ensures s.Mat().At(idx) == w.At(idx) {
      SplitIdx(s, idx);
      var q, j := idx[..|idx| - 1], idx[|idx| - 1];
      ExpandLast(qs + [r], c, q, j);
      SelectedAt(p, qs, r, c, s, q, j);
    }
    TensorsEqual(s.Mat(), w);
  }

  lemma SelectedAt(p: Lora, qs: seq<Sel>, r: Sel, c: Sel, s: Lora, q: seq<nat>, j: nat)
    requires Selected(p, qs, r, c, s) && InBounds(s.Outer(), q) && j < s.Cols()
    ensures InBounds(s.Shape(), q + [j]) && InBounds(p.Shape(), Expand(qs + [r], q) + [c.Source(j)])
    ensures s.Mat().At(q + [j]) == p.Mat().At(Expand(qs + [r], q) + [c.Source(j)])
  {
    ExpandInBounds(qs + [r], p.Outer(), q);
    SourceFits(c, p.Cols(), j);
    forall k: nat | k < p.Rank()
      ensures s.Terms(q, j)[k] == p.Terms(Expand(qs + [r], q), c.Source(j))[k]
    {
      SelectedBEntry(p, qs, r, c, s, q, k);
      SelectedAEntry(p, qs, r, c, s, q, k, j);
      TermSame(s, q, j, p, Expand(qs + [r], q), c.Source(j), k);
    }
    MatSame(s, q, j, p, Expand(qs + [r], q), c.Source(j));
  }

  /**
   Tuple indexing with slices on the last two dimensions: the factors accept exactly the
   indices the dense tensor accepts, and the result stands for the indexed dense tensor.
   */
  lemma GetItemRefines(p: Lora, ixs: seq<Ix>)
    requires p.Valid() && p.LeadOnes() && p.Broadcasts()
    requires ixs != [] && |ixs| <= |p.A.shape| && KeepsMatrix(ixs, |p.A.shape|)
    ensures GetItem(p, ixs).Some? <==> Index(p.Mat(), ixs).Some?
    ensures GetItem(p, ixs).Some? ==>
      var s := GetItem(p, ixs).value;
      s.LeadOnes() && s.Broadcasts() && s.Rank() == p.Rank() && Index(p.Mat(), ixs) == Some(s.Mat())
  {
    hide Flat, Prod, Select, Lora.Mat, UnitSels, SelShape, Fills, AllFit;
    var n := |p.A.shape|;
    var full := Pad(ixs, n);
    var lead, row, col := full[..n - 2], full[n - 2], full[n - 1];
    assert full == lead + [row] + [col] && full[..n - 1] == lead + [row];
    assert Pad(full[..n - 1], n) == lead + [row] + [ALL];
    IndexParts(p, lead, row, col);
    var aixs := AUnit(p.A.shape[..n - 2], lead) + [ALL] + [col];
    assert Pad(aixs, n) == aixs;
    if Resolvable(full, p.Shape()) {
      var qs, r, c := IndexSels(p, lead, row, col);
      assert r.Range? && c.Range?;
      var s := SelectRefines(p, qs, r, c);
    }
  }

  // ---------- split ----------

  /** Selecting one row and one column leaves both factors one dimension short. */
  lemma EntryShapes(qs: seq<Sel>, row: Sel, col: Sel, rank: nat)
    requires row.Pick? && col.Pick?
    ensures SelShape(UnitSels(qs) + [Range(0, 1, rank)] + [col]) == Fills(|SelShape(qs)|, 1) + [rank]
    ensures SelShape(qs + [row] + [Range(0, 1, rank)]) == SelShape(qs) + [rank]
    ensures SelShape(qs + [row] + [col]) == SelShape(qs)
  {
    UnitSelsShape(qs);
    SelShapeLast(UnitSels(qs), Range(0, 1, rank));
    SelShapeConcat(UnitSels(qs) + [Range(0, 1, rank)], [col]);
    SelShapeConcat(qs, [row]);
    SelShapeLast(qs + [row], Range(0, 1, rank));
    SelShapeConcat(qs + [row], [col]);
    assert SelShape([row]) == SelShape([]) == [] && SelShape([col]) == SelShape([]);
  }

  /**
   Integers on both matrix dimensions of a batch ask for single entries, which a pair cannot stand for.
   They are refused, unless the rank is 1 and a batch dimension is left: then the last batch dimension
   is taken for the rows, and the result has one dimension more than the dense one.
   */
  lemma EntriesOfRankOne(p: Lora, lead: seq<Ix>, i: int, j: int)
    requires p.Valid() && p.LeadOnes() && p.Broadcasts() && |lead| == p.Leads()
    requires Resolvable(lead + [Int(i)] + [Int(j)], p.Shape())
    ensures var ixs, w := lead + [Int(i)] + [Int(j)], Index(p.Mat(), lead + [Int(i)] + [Int(j)]);
      && w.Some?
      && (GetItem(p, ixs).Some? <==> p.Rank() == 1 && w.value.shape != [])
      && (GetItem(p, ixs).Some? ==> GetItem(p, ixs).value.Shape() == w.value.shape + [1])
  {
    hide Flat, Prod, Select, Lora.Mat, UnitSels, SelShape, AllFit;
    var n, ixs := |p.A.shape|, lead + [Int(i)] + [Int(j)];
    assert Pad(ixs, n) == ixs && ixs[..n - 2] == lead && ixs[..n - 1] == lead + [Int(i)];
    assert Pad(ixs[..n - 1], n) == lead + [Int(i)] + [ALL];
    var aixs := AUnit(p.A.shape[..n - 2], lead) + [ALL] + [Int(j)];
    assert Pad(aixs, n) == aixs;
    var qs, r, c := IndexSels(p, lead, Int(i), Int(j));
    EntryShapes(qs, r, c, p.Rank());
    var m := |SelShape(qs)|;
    if m > 0 { FillsAt(m, 1, m - 1); }
  }

  /** Selecting everything. */
  lemma SelectWhole(t: Tensor, sels: seq<Sel>)
    requires t.Valid() && |sels| == |t.shape| && forall k | 0 <= k < |sels| :: sels[k] == Range(0, 1, t.shape[k])
    ensures AllFit(sels, t.shape) && Select(t, sels) == t
  {
    hide Flat, Prod, SelShape, Expand, Tensor.At;
    PlainSels(sels, []);
    var s := Select(t, sels);
    assert s.shape == t.shape;
    forall idx | InBounds(t.shape, idx) ensures s.At(idx) == t.At(idx) {
      PlainSels(sels, idx);
      assert Expand(sels, idx) == idx;
    }
    TensorsEqual(s, t);
  }

  predicate Ranges(sels: seq<Sel>) {
    forall k | 0 <= k < |sels| :: sels[k].Range?
  }

  /** When no batch dimension is dropped, A's batch dimensions are all kept. */
  lemma UnitSelsWhole(qs: seq<Sel>)
    requires Ranges(qs)
    ensures forall k | 0 <= k < |qs| :: UnitSels(qs)[k] == Range(0, 1, 1)
  {
    forall k | 0 <= k < |qs| ensures UnitSels(qs)[k] == Range(0, 1, 1) { UnitSelsAt(qs, k); }
  }

  lemma ALeadWhole(p: Lora, qs: seq<Sel>, tail: seq<Sel>, k: nat)
    requires p.Valid() && p.LeadOnes() && |qs| == p.Leads() && Ranges(qs) && k < |qs|
    ensures (UnitSels(qs) + tail)[k] == Range(0, 1, p.A.shape[k])
  {
    UnitSelsWhole(qs);
    FillsAt(p.Leads(), 1, k);
    assert p.A.shape[..p.Leads()][k] == 1;
  }

  /** Selecting in the outer dimensions only leaves A as it is. */
  lemma SelectOuter(p: Lora, outer: seq<Sel>) returns (s: Lora)
    requires p.Valid() && p.LeadOnes() && p.Broadcasts() && AllFit(outer, p.Outer()) && Ranges(outer)
    ensures AllFit(outer + [Range(0, 1, p.Rank())], p.B.shape) && AllFit(outer + [Range(0, 1, p.Cols())], p.Shape())
    ensures s == Lora(p.A, Select(p.B, outer + [Range(0, 1, p.Rank())])) && Make(s.A, s.B) == Some(s)
    ensures s.Valid() && s.LeadOnes() && s.Broadcasts() && s.Rank() == p.Rank()
    ensures s.Mat() == Select(p.Mat(), outer + [Range(0, 1, p.Cols())])
  {
    hide Select, SelShape, Expand, UnitSels, Lora.Mat;
    var qs, r, c := outer[..p.Leads()], outer[p.Leads()], Range(0, 1, p.Cols());
    assert outer == qs + [r];
    s := SelectRefines(p, qs, r, c);
    var asels := UnitSels(qs) + [Range(0, 1, p.Rank())] + [c];
    forall k | 0 <= k < |asels| ensures asels[k] == Range(0, 1, p.A.shape[k]) {
      if k < p.Leads() { ALeadWhole(p, qs, [Range(0, 1, p.Rank())] + [c], k); }
    }
    SelectWhole(p.A, asels);
  }

  lemma NarrowSelsLast(shape: seq<nat>, x: nat, d: nat, start: nat, len: nat)
    requires d < |shape| && start + len <= shape[d]
    ensures NarrowSels(shape + [x], d, start, len) == NarrowSels(shape, d, start, len) + [Range(0, 1, x)]
  {
  }

  /** A piece of the outer dimensions is a piece of B. */
  lemma NarrowOuter(p: Lora, d: nat, start: nat, len: nat) returns (s: Lora)
    requires p.Valid() && p.LeadOnes() && p.Broadcasts() && d < |p.Outer()| && start + len <= p.Outer()[d]
    ensures s == Lora(p.A, Narrow(p.B, d, start, len)) && Make(s.A, s.B) == Some(s)
    ensures s.Valid() && s.LeadOnes() && s.Broadcasts() && s.Rank() == p.Rank()
    ensures s.Mat() == Narrow(p.Mat(), d, start, len)
  {
    hide Select, SelShape, Expand, Lora.Mat;
    var outer := NarrowSels(p.Outer(), d, start, len);
    assert p.B.shape == p.Outer() + [p.Rank()];
    NarrowSelsLast(p.Outer(), p.Rank(), d, start, len);
    NarrowSelsLast(p.Outer(), p.Cols(), d, start, len);
    s := SelectOuter(p, outer);
  }

  /** A piece of the last dimension is a piece of A. */
  lemma NarrowLast(p: Lora, start: nat, len: nat) returns (s: Lora)
    requires p.Valid() && p.LeadOnes() && p.Broadcasts() && start + len <= p.Cols()
    ensures s == Lora(Narrow(p.A, |p.A.shape| - 1, start, len), p.B) && Make(s.A, s.B) == Some(s)
    ensures s.Valid() && s.LeadOnes() && s.Broadcasts() && s.Rank() == p.Rank()
    ensures s.Mat() == Narrow(p.Mat(), |p.A.shape| - 1, start, len)
  {
    hide Select, SelShape, Expand, Lora.Mat, UnitSels;
    var n := |p.A.shape|;
    var outer := seq(|p.Outer()|, k requires 0 <= k < |p.Outer()| => Range(0, 1, p.Outer()[k]));
    var qs, r, c := outer[..p.Leads()], outer[p.Leads()], Range(start, 1, len);
    assert outer == qs + [r];
    assert NarrowSels(p.Shape(), n - 1, start, len) == qs + [r] + [c];
    s := SelectRefines(p, qs, r, c);
    SelectWhole(p.B, qs + [r] + [Range(0, 1, p.Rank())]);
    LastSels(p, qs, start, len);
  }

  lemma LastSels(p: Lora, qs: seq<Sel>, start: nat, len: nat)
    requires p.Valid() && p.LeadOnes() && start + len <= p.Cols() && |qs| == p.Leads() && Ranges(qs)
    ensures UnitSels(qs) + [Range(0, 1, p.Rank())] + [Range(start, 1, len)]
      == NarrowSels(p.A.shape, |p.A.shape| - 1, start, len)
  {
    var n := |p.A.shape|;
    var c := Range(start, 1, len);
    var asels := UnitSels(qs) + [Range(0, 1, p.Rank())] + [c];
    forall k | 0 <= k < n ensures asels[k] == NarrowSels(p.A.shape, n - 1, start, len)[k] {
      if k < p.Leads() { ALeadWhole(p, qs, [Range(0, 1, p.Rank())] + [c], k); }
    }
  }

  /** The pair stands for the dense piece, and keeps what every pair keeps. */
  predicate PieceOk(p: Lora, s: Lora, w: Tensor)
    requires p.Valid()
  {
    s.Valid() && s.LeadOnes() && s.Broadcasts() && s.Rank() == p.Rank() && s.Mat() == w
  }

  lemma PieceAt(t: Tensor, d: nat, sizes: seq<nat>, k: nat)
    requires t.Valid() && d < |t.shape| && Sum(sizes) == t.shape[d] && k < |sizes|
    ensures Offset(sizes, k) + sizes[k] <= t.shape[d]
    ensures Pieces(t, d, sizes)[k] == Narrow(t, d, Offset(sizes, k), sizes[k])
  {
    OffsetFits(sizes, k);
  }

  /** Piece `k` of a split of the pair. */
  lemma PieceRefines(p: Lora, d: nat, sizes: seq<nat>, k: nat)
    requires p.Valid() && p.LeadOnes() && p.Broadcasts() && d < |p.Shape()| && Sum(sizes) == p.Shape()[d]
    requires k < |sizes|
    ensures var a := if d == |p.A.shape| - 1 then Pieces(p.A, d, sizes)[k] else p.A;
      var b := if d == |p.A.shape| - 1 then p.B else Pieces(p.B, d, sizes)[k];
      Make(a, b) == Some(Lora(a, b)) && PieceOk(p, Lora(a, b), Pieces(p.Mat(), d, sizes)[k])
  {
    hide Lora.Mat, Lora.LeadOnes, Lora.Broadcasts, Narrow, Pieces, Make, Flat, Prod, Sum, Offset;
    OffsetFits(sizes, k);
    PieceAt(p.Mat(), d, sizes, k);
    PieceAt(if d == |p.A.shape| - 1 then p.A else p.B, d, sizes, k);
    if d == |p.A.shape| - 1 {
      var s := NarrowLast(p, Offset(sizes, k), sizes[k]);
    } else {
      var s := NarrowOuter(p, d, Offset(sizes, k), sizes[k]);
    }
  }

  /** What `split` returns once the piece sizes are known. */
  predicate PiecesRefine(p: Lora, d: nat, sizes: seq<nat>, s: seq<Lora>)
    requires p.Valid() && p.Broadcasts() && d < |p.Shape()| && Sum(sizes) == p.Shape()[d]
  {
    |s| == |sizes| && forall k | 0 <= k < |s| :: PieceOk(p, s[k], Pieces(p.Mat(), d, sizes)[k])
  }

  lemma MakePieces(p: Lora, d: nat, sizes: seq<nat>, a: seq<Tensor>, b: seq<Tensor>)
    requires p.Valid() && p.LeadOnes() && p.Broadcasts() && d < |p.Shape()| && Sum(sizes) == p.Shape()[d]
    requires |a| == |b| == |sizes| && forall k | 0 <= k < |a| :: a[k].Valid() && b[k].Valid()
    requires forall k | 0 <= k < |a| ::
      && a[k] == (if d == |p.A.shape| - 1 then Pieces(p.A, d, sizes)[k] else p.A)
      && b[k] == (if d == |p.A.shape| - 1 then p.B else Pieces(p.B, d, sizes)[k])
    ensures MakeAll(a, b).Some? && PiecesRefine(p, d, sizes, MakeAll(a, b).value)
  {
    hide Pieces, Lora.Mat, Flat, Prod, Sum, UnitSels, Fills, Make, PieceOk;
    forall k | 0 <= k < |a|
      ensures Make(a[k], b[k]) == Some(Lora(a[k], b[k]))
      ensures PieceOk(p, Lora(a[k], b[k]), Pieces(p.Mat(), d, sizes)[k])
    {
      PieceRefines(p, d, sizes, k);
    }
  }

  /**
   Splitting the pair along any dimension of the dense tensor: accepted exactly when the dense split is,
   into as many pieces, and every piece stands for the dense piece. What is accepted beyond that has a
   dimension number below minus the number of dimensions.
   */
  lemma SplitRefines(p: Lora, cut: Cut, dim: int)
    requires p.Valid() && p.LeadOnes() && p.Broadcasts()
    ensures Split(p.Mat(), cut, dim).Some? <==> SplitPair(p, cut, dim).Some? && dim >= -|p.A.shape|
    ensures Split(p.Mat(), cut, dim).Some? ==>
      var s, w := SplitPair(p, cut, dim).value, Split(p.Mat(), cut, dim).value;
      |s| == |w| && forall k | 0 <= k < |s| ::
        s[k].LeadOnes() && s[k].Broadcasts() && s[k].Rank() == p.Rank() && s[k].Mat() == w[k]
  {
    hide Pieces, MakeAll, Lora.Mat, Flat, Prod, Sum, Fills, PieceSizes;
    var n := |p.A.shape|;
    if -n <= dim < n {
      SplitInside(p, cut, dim);
    }
  }

  lemma SplitInside(p: Lora, cut: Cut, dim: int)
    requires p.Valid() && p.LeadOnes() && p.Broadcasts() && -|p.A.shape| <= dim < |p.A.shape|
    ensures SplitPair(p, cut, dim).Some? <==> Split(p.Mat(), cut, dim).Some?
    ensures SplitPair(p, cut, dim).Some? ==>
      var s, w := SplitPair(p, cut, dim).value, Split(p.Mat(), cut, dim).value;
      |s| == |w| && forall k | 0 <= k < |s| ::
        s[k].LeadOnes() && s[k].Broadcasts() && s[k].Rank() == p.Rank() && s[k].Mat() == w[k]
  {
    hide Pieces, MakeAll, Lora.Mat, Flat, Prod, Sum, Fills, PieceSizes;
    var n := |p.A.shape|;
    var d := Wrap(dim, n);
    var sizes := PieceSizes(cut, p.Shape()[d]);
    if sizes.Some? {
      PieceSizesSum(cut, p.Shape()[d]);
      if d == n - 1 {
        var a := Pieces(p.A, d, sizes.value);
        MakePieces(p, d, sizes.value, a, seq(|a|, _ => p.B));
      } else {
        if d < n - 2 {
          FillsAt(p.Leads(), 1, d);
          assert p.A.shape[..p.Leads()][d] == 1;
        }
        var b := Pieces(p.B, d, sizes.value);
        MakePieces(p, d, sizes.value, seq(|b|, _ => p.A), b);
      }
    }
  }

  /**
   Such numbers count twice from the end: below minus the number of dimensions torch refuses them, and
   the pair is split along the batch dimension they come to, or along the rows if the rank is 1.
   */
  lemma SplitBelowRank(p: Lora, cut: Cut, d: nat)
    requires p.Valid() && p.LeadOnes() && p.Broadcasts()
    requires d < p.Leads() || (d == p.Leads() && p.Rank() == 1)
    ensures var n := |p.A.shape|;
      SplitPair(p, cut, d - 2 * n) == SplitPair(p, cut, d) && Split(p.Mat(), cut, d - 2 * n).None?
  {
    hide Pieces, MakeAll, Lora.Mat, Flat, Prod, Sum, Fills, PieceSizes;
    if d < p.Leads() {
      FillsAt(p.Leads(), 1, d);
      assert p.A.shape[..p.Leads()][d] == 1;
    }
  }
}
