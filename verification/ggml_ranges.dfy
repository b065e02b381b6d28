/**
 Where the tensors of an accepted file lie, when the tensor loop ends, and a file on which 64-bit
 wrap-around keeps it going for ever.
 */
module GgmlRanges {
  import opened Bytes
  import opened Sequences
  import opened Wrappers
  import opened GgmlReader
  import opened GgmlRoundTrip

  /** No computation on the record's size wraps around. */
  predicate NoWrap(t: Tensor) {
    Fits(t) && t.start + TrueBytes(t) < TWO63
  }

  /** The length as computed, wrapped around or not, is no step back, and the end is an offset. */
  predicate Forward(t: Tensor) {
    t.len >= 0 && t.start + t.len < TWO63
  }

  const MAX_FILE: int := 0x4000_0000_0000_0000

  lemma ReadU32sInside(data: seq<Byte>, at: int, n: nat)
    requires ReadU32s(data, at, n).Success? && n > 0
    ensures at + 4 * n <= |data|
  {
  }

  /** Where a record's name ends, going by the lengths in its head. */
  function NameEnd(data: seq<Byte>, at: int): int
    requires ReadU32s(data, at, 3).Success?
  {
    var head := ReadU32s(data, at, 3).value;
    at + 12 + 4 * head[0] + head[1]
  }

  /**
   A record whose sizes do not wrap moves the offset by its true size, twelve bytes at least; between
   its name and its data lie fewer than 32 bytes of padding, none in the older formats.
   */
  lemma RecordAdvances(data: seq<Byte>, at: nat, padded: bool)
    requires at < |data| < MAX_FILE && ReadTensor(data, at, padded).Success?
    requires NoWrap(ReadTensor(data, at, padded).value.0)
    ensures var (t, next) := ReadTensor(data, at, padded).value;
      && at + 12 <= |data| && at + 12 + 4 * |t.dims| + |t.name| <= t.start
      && t.len == TrueBytes(t) >= 0 && next == t.start + t.len >= at + 12
      && ReadU32s(data, at, 3).Success?
      && (if padded then t.start % 32 == 0 && 0 <= t.start - NameEnd(data, at) < 32 else t.start == NameEnd(data, at))
  {
    hide ReadTensor, QuantSize, Prod, Wrap;
    var (t, next) := ReadTensor(data, at, padded).value;
    hide NBytes, TrueBytes, Fits;
    RecordShape(data, at, padded);
    TrueLength(t);
    NameLength(data, at, padded);
    WrapExact(t.start + t.len);
  }

  /** The new offset is that of the data's end, unless a computed length reaches 2^63. */
  lemma ForwardAdvances(data: seq<Byte>, at: nat, padded: bool)
    requires ReadTensor(data, at, padded).Success? && Forward(ReadTensor(data, at, padded).value.0)
    ensures var (t, next) := ReadTensor(data, at, padded).value;
      at + 12 <= t.start <= next == t.start + t.len && (padded ==> t.start % 32 == 0)
  {
    hide ReadTensor, NBytes, QuantSize, NameEnd;
    var (t, next) := ReadTensor(data, at, padded).value;
    RecordShape(data, at, padded);
    NameLength(data, at, padded);
    WrapExact(t.start + t.len);
  }

  /** The tensor loop gets on by the twelve bytes of a record's head exactly when the end as computed does. */
  lemma RecordGains(data: seq<Byte>, at: nat, padded: bool)
    requires at < |data| < MAX_FILE && ReadTensor(data, at, padded).Success?
    ensures var (t, next) := ReadTensor(data, at, padded).value;
      && (next >= at + 12 <==> at + 12 <= t.start + t.len < TWO63)
      && (Forward(t) <==> t.len >= 0 && next >= at + 12) && (NoWrap(t) ==> Forward(t))
  {
    hide ReadTensor, QuantSize, NameEnd, Fits, TrueBytes;
    var (t, next) := ReadTensor(data, at, padded).value;
    RecordShape(data, at, padded);
    NameLength(data, at, padded);
    StartBounded(data, at, padded);
    LengthBounded(t.dims, QuantSize(t.dtype).value);
    if NoWrap(t) { TrueLength(t); }
    hide NBytes;
    EndWraps(t.start + t.len);
  }

  lemma StartBounded(data: seq<Byte>, at: int, padded: bool)
    requires ReadTensor(data, at, padded).Success?
    ensures ReadTensor(data, at, padded).value.0.start <= at + 5000
  {
    hide Slice, QuantSize, NBytes, Wrap, ReadU32s;
  }

  lemma LengthBounded(dims: seq<nat>, quant: (nat, nat))
    requires quant.0 > 0
    ensures -TWO63 <= NBytes(dims, quant) < TWO63
  {
    hide Wrap, Prod;
    var x := Wrap(Wrap(Prod(dims)) * quant.1);
    QuotientBounded(x, quant.0);
  }

  lemma QuotientBounded(x: int, b: int)
    requires b > 0 && -TWO63 <= x < TWO63
    ensures -TWO63 <= x / b < TWO63
  {
    var q := x / b;
    assert q * b <= x < q * b + b;
    if q < -TWO63 { MulAtMost(q, -TWO63 - 1, b); MulAtLeast(b, TWO63); assert false; }
    if q >= TWO63 { MulAtMost(TWO63, q, b); MulAtLeast(b, TWO63); assert false; }
  }

  lemma EndWraps(end: int)
    requires -TWO63 <= end < 2 * TWO63
    ensures Wrap(end) == if end < TWO63 then end else end - 2 * TWO63
  {
  }

  lemma TrueLength(t: Tensor)
    requires Fits(t) && t.len == NBytes(t.dims, QuantSize(t.dtype).value)
    ensures t.len == TrueBytes(t) >= 0
  {
    hide QuantSize, Prod, Wrap;
    SizeExact(t.dims, t.dtype);
    QuotientPositive(Prod(t.dims) * QuantSize(t.dtype).value.1, QuantSize(t.dtype).value.0);
  }

  lemma RecordShape(data: seq<Byte>, at: int, padded: bool)
    requires ReadTensor(data, at, padded).Success?
    ensures var (t, next) := ReadTensor(data, at, padded).value;
      && QuantSize(t.dtype).Some? && t.len == NBytes(t.dims, QuantSize(t.dtype).value) && next == Wrap(t.start + t.len)
      && at + 12 <= |data| && ReadU32s(data, at, 3).Success?
      && (if padded then t.start % 32 == 0 && 0 <= t.start - NameEnd(data, at) < 32 else t.start == NameEnd(data, at))
  {
    hide Slice, QuantSize, NBytes, Wrap, ReadU32s;
    ReadU32sInside(data, at, 3);
  }

  lemma QuotientPositive(x: int, b: int)
    requires x >= 0 && b > 0
    ensures x / b >= 0
  {
  }

  lemma SliceLength(data: seq<Byte>, a: int, b: int)
    requires a <= b
    ensures |Slice(data, a, b)| <= b - a
  {
  }

  lemma NameLength(data: seq<Byte>, at: int, padded: bool)
    requires ReadTensor(data, at, padded).Success?
    ensures var t := ReadTensor(data, at, padded).value.0; at + 12 + 4 * |t.dims| + |t.name| <= t.start
  {
    hide Slice, QuantSize, NBytes, Wrap;
    var head := ReadU32s(data, at, 3).value;
    SliceLength(data, at + 12 + 4 * head[0], at + 12 + 4 * head[0] + head[1]);
  }

  function End(ts: seq<Tensor>, from: int): int {
    if ts == [] then from else ts[|ts| - 1].start + ts[|ts| - 1].len
  }

  /** Each record lies after the data before it; only the last one's data may pass the end of the file. */
  predicate Chain(ts: seq<Tensor>, from: int, size: int) {
    forall i | 0 <= i < |ts| ::
      && ts[i].start >= End(ts[..i], from) + 12 && ts[i].len >= 0
      && (i < |ts| - 1 ==> ts[i].start + ts[i].len < size)
  }

  predicate AllForward(ts: seq<Tensor>) {
    forall i | 0 <= i < |ts| :: Forward(ts[i])
  }

  predicate AllAligned(ts: seq<Tensor>) {
    forall i | 0 <= i < |ts| :: ts[i].start % 32 == 0
  }

  lemma ChainMore(ts: seq<Tensor>, t: Tensor, from: int, size: int)
    requires Chain(ts, from, size) && End(ts, from) < size && t.start >= End(ts, from) + 12 && t.len >= 0
    ensures Chain(ts + [t], from, size)
  {
    forall i | 0 <= i < |ts + [t]|
      ensures (ts + [t])[i].start >= End((ts + [t])[..i], from) + 12
    {
      if i < |ts| { assert (ts + [t])[..i] == ts[..i]; } else { assert (ts + [t])[..i] == ts; }
    }
    if ts != [] { assert End(ts, from) == ts[|ts| - 1].start + ts[|ts| - 1].len; }
  }

  /** The tensors a scan has read, if it was not ended by an exception. */
  function Read(s: Scan): (ts: seq<Tensor>)
    requires !s.Raised?
  {
    s.tensors
  }

  function Reached(s: Scan): int
    requires !s.Raised?
  {
    if s.Done? then s.end else s.at
  }

  /** Tensors already read stay read. */
  lemma {:induction false} ScanKeeps(data: seq<Byte>, at: int, padded: bool, turns: nat, ts: seq<Tensor>)
    requires !ScanTensors(data, at, padded, turns, ts).Raised?
    ensures ts <= Read(ScanTensors(data, at, padded, turns, ts))
    decreases turns
  {
    hide ReadTensor;
    if at < |data| && turns > 0 {
      var (t, next) := ReadTensor(data, at, padded).value;
      ScanKeeps(data, next, padded, turns - 1, ts + [t]);
    }
  }

  /** The loop invariant of the tensor loop, as long as no computed length is a step back. */
  lemma {:induction false} ScanChain(data: seq<Byte>, at: int, padded: bool, turns: nat, ts: seq<Tensor>, from: nat)
    requires |data| < MAX_FILE && at == End(ts, from) && Chain(ts, from, |data|) && (padded ==> AllAligned(ts))
    requires at >= from + 12 * |ts|
    requires !ScanTensors(data, at, padded, turns, ts).Raised?
    requires AllForward(Read(ScanTensors(data, at, padded, turns, ts)))
    ensures var s := ScanTensors(data, at, padded, turns, ts);
      && Chain(Read(s), from, |data|) && Reached(s) == End(Read(s), from) >= from + 12 * |Read(s)|
      && (padded ==> AllAligned(Read(s)))
      && (s.Running? ==> s.at < |data| && |s.tensors| == |ts| + turns)
    decreases turns
  {
    hide ReadTensor, Chain, End, Forward;
    if at < |data| && turns > 0 {
      var (t, next) := ReadTensor(data, at, padded).value;
      ScanKeeps(data, next, padded, turns - 1, ts + [t]);
      assert Forward(t) by { assert Read(ScanTensors(data, at, padded, turns, ts))[|ts|] == t; }
      ForwardAdvances(data, at, padded);
      ChainMore(ts, t, from, |data|);
      EndMore(ts, t, from);
      ScanChain(data, next, padded, turns - 1, ts + [t], from);
    }
  }

  lemma EndMore(ts: seq<Tensor>, t: Tensor, from: int)
    ensures End(ts + [t], from) == t.start + t.len
  {
  }

  lemma {:induction false} ChainApart(ts: seq<Tensor>, from: int, size: int, i: nat, j: nat)
    requires Chain(ts, from, size) && i < j < |ts|
    ensures ts[i].start + ts[i].len + 12 <= ts[j].start && ts[i].start + ts[i].len < size
    decreases j
  {
    assert End(ts[..j], from) == ts[j - 1].start + ts[j - 1].len;
    if i < j - 1 {
      ChainApart(ts, from, size, i, j - 1);
    }
  }

  /** How a finished loop ended: at the offset its last record computed. */
  lemma {:induction false} ScanEnd(data: seq<Byte>, at: int, padded: bool, turns: nat, ts: seq<Tensor>)
    requires ScanTensors(data, at, padded, turns, ts).Done?
    ensures var s := ScanTensors(data, at, padded, turns, ts);
      && ts <= s.tensors && s.end >= |data|
      && (at < |data| ==> s.tensors != [] && LastEnds(s.tensors[|s.tensors| - 1], s.end, |data|))
    decreases turns
  {
    hide ReadTensor, LastEnds;
    if at < |data| {
      var (t, next) := ReadTensor(data, at, padded).value;
      ScanEnd(data, next, padded, turns - 1, ts + [t]);
      RecordEnds(data, at, padded);
      if next >= |data| { assert (ts + [t])[|ts + [t]| - 1] == t; }
    }
  }

  predicate LastEnds(t: Tensor, end: int, size: nat) {
    end == Wrap(t.start + t.len) && t.start <= size + 5000 && t.len < TWO63
  }

  lemma RecordEnds(data: seq<Byte>, at: int, padded: bool)
    requires at < |data| && ReadTensor(data, at, padded).Success?
    ensures var (t, next) := ReadTensor(data, at, padded).value; LastEnds(t, next, |data|)
  {
    hide ReadTensor, QuantSize, NameEnd, Wrap;
    RecordShape(data, at, padded);
    StartBounded(data, at, padded);
    var t := ReadTensor(data, at, padded).value.0;
    LengthBounded(t.dims, QuantSize(t.dtype).value);
    hide NBytes;
  }

  /** In a finished loop, records in order have computed no length past 2^63, the last one included. */
  lemma ChainForward(data: seq<Byte>, at: int, padded: bool, turns: nat)
    requires |data| < MAX_FILE && ScanTensors(data, at, padded, turns, []).Done?
    requires Chain(ScanTensors(data, at, padded, turns, []).tensors, at, |data|)
    ensures AllForward(ScanTensors(data, at, padded, turns, []).tensors)
  {
    hide ScanTensors;
    ScanEnd(data, at, padded, turns, []);
    var s := ScanTensors(data, at, padded, turns, []);
    forall i | 0 <= i < |s.tensors| ensures Forward(s.tensors[i]) {
      if i == |s.tensors| - 1 {
        NonePast(data, at, padded, turns);
        EndInside(s.tensors[i], s.end, |data|);
      }
    }
  }

  lemma NonePast(data: seq<Byte>, at: int, padded: bool, turns: nat)
    requires ScanTensors(data, at, padded, turns, []).Done? && ScanTensors(data, at, padded, turns, []).tensors != []
    ensures at < |data|
  {
  }

  lemma EndInside(t: Tensor, end: int, size: nat)
    requires LastEnds(t, end, size) && size < MAX_FILE && end >= size && t.len >= 0
    ensures t.start + t.len < TWO63
  {
    if t.start + t.len >= TWO63 { EndWraps(t.start + t.len); }
  }

  /** A padded format starts all data at multiples of 32. */
  lemma {:induction false} ScanAligned(data: seq<Byte>, at: int, turns: nat, ts: seq<Tensor>)
    requires AllAligned(ts) && !ScanTensors(data, at, true, turns, ts).Raised?
    ensures AllAligned(Read(ScanTensors(data, at, true, turns, ts)))
    decreases turns
  {
    hide ReadTensor;
    if at < |data| && turns > 0 {
      var (t, next) := ReadTensor(data, at, true).value;
      RecordShape(data, at, true);
      ScanAligned(data, next, turns - 1, ts + [t]);
    }
  }

  /**
   Of every file the tensor loop gets through: each record lies after the data before it, inside the
   file but for the last one's data, if and only if no computed length is negative or ends past 2^63.
   Data ranges are then increasing and disjoint. A padded format starts them at multiples of 32 anyway.
   */
  lemma RangesDisjoint(data: seq<Byte>, at: nat, padded: bool, turns: nat)
    requires |data| < MAX_FILE && ScanTensors(data, at, padded, turns, []).Done?
    ensures var ts := ScanTensors(data, at, padded, turns, []).tensors;
      && (AllForward(ts) <==> Chain(ts, at, |data|))
      && (AllForward(ts) ==> InOrder(ts, |data|))
      && (padded ==> AllAligned(ts))
  {
    hide ScanTensors, AllForward, Chain, InOrder, AllAligned;
    var ts := ScanTensors(data, at, padded, turns, []).tensors;
    EmptyChain(at, |data|);
    if AllForward(ts) {
      ScanChain(data, at, padded, turns, [], at);
      ChainInOrder(ts, at, |data|);
    }
    if Chain(ts, at, |data|) { ChainForward(data, at, padded, turns); }
    if padded { ScanAligned(data, at, turns, []); }
  }

  lemma EmptyChain(from: int, size: int)
    ensures Chain([], from, size) && AllAligned([]) && End([], from) == from
  {
  }

  /** Data ranges in increasing order, disjoint, and all but the last inside the file. */
  predicate InOrder(ts: seq<Tensor>, size: nat) {
    forall i, j | 0 <= i < j < |ts| :: ts[i].start + ts[i].len < ts[j].start && ts[i].start + ts[i].len < size
  }

  lemma ChainInOrder(ts: seq<Tensor>, from: int, size: nat)
    requires Chain(ts, from, size)
    ensures InOrder(ts, size)
  {
    forall i, j | 0 <= i < j < |ts| ensures ts[i].start + ts[i].len < ts[j].start && ts[i].start + ts[i].len < size {
      ChainApart(ts, from, size, i, j);
    }
  }

  /** A loop that goes on for a turn every twelve bytes of the file has met a length computed below 0 or past 2^63. */
  lemma EndlessWraps(data: seq<Byte>, at: nat, padded: bool, turns: nat)
    requires |data| < MAX_FILE && 12 * turns + at >= |data|
    requires ScanTensors(data, at, padded, turns, []).Running?
    ensures !AllForward(ScanTensors(data, at, padded, turns, []).tensors)
  {
    hide ReadTensor;
    if AllForward(ScanTensors(data, at, padded, turns, []).tensors) {
      assert Chain([], at, |data|);
      ScanChain(data, at, padded, turns, [], at);
    }
  }

  // ---------- a file that is read for ever ----------

  const HUGE: seq<nat> := [2147483645, 2147483651]

  /** An unpadded, unquantised file of 68 bytes whose only record claims a size of 2^64 - 36 bytes. */
  function EndlessFile(): (r: seq<Byte>)
    ensures |r| == 68
  {
    M_GGML + PutU32s([0, 0, 0, 0, 0, 0, 0]) + (PutU32s([2, 16, 0]) + PutU32s(HUGE) + Zeros(16))
  }

  lemma HugeBytes()
    ensures NBytes(HUGE, (1, 4)) == -36
  {
    ProdPair(2147483645, 2147483651);
    assert Prod(HUGE) == TWO63 / 2 - 9;
  }

  /** Reading that record leaves the offset where it was. */
  lemma EndlessRecord()
    ensures ReadTensor(EndlessFile(), 32, false) == Success((Tensor(Zeros(16), HUGE, 0, 68, -36), 32))
  {
    hide ReadU32s, PutU32s, NBytes, Slice, Prod;
    var file := EndlessFile();
    var head, dims := PutU32s([2, 16, 0]), PutU32s(HUGE);
    assert file[32..68] == head + dims + Zeros(16);
    AtSplit(file, 32, head + dims, Zeros(16));
    AtSplit(file, 32, head, dims);
    ReadPut(file, 32, [2, 16, 0]);
    ReadPut(file, 44, HUGE);
    SliceAt(file, 52, Zeros(16));
    HugeBytes();
    WrapExact(32);
  }

  lemma {:induction false} EndlessScan(turns: nat, ts: seq<Tensor>)
    ensures ScanTensors(EndlessFile(), 32, false, turns, ts).Running?
    decreases turns
  {
    hide ReadTensor, EndlessFile;
    if turns > 0 {
      EndlessRecord();
      EndlessScan(turns - 1, ts + [ReadTensor(EndlessFile(), 32, false).value.0]);
    }
  }

  /** However many turns it is given, `load` does not come to an end on that file. */
  lemma LoadsForEver(turns: nat)
    ensures Load(EndlessFile(), 0, turns) == Loops
  {
    hide ReadU32s, PutU32s, ScanTensors, Slice;
    var file := EndlessFile();
    var zeros := [0, 0, 0, 0, 0, 0, 0];
    assert file[0..4] == M_GGML;
    SliceAt(file, 0, M_GGML);
    assert file[4..32] == PutU32s(zeros);
    ReadPut(file, 4, zeros);
    MagicsDiffer();
    EndlessScan(turns, []);
  }

  // ---------- a file with a negative range ----------

  /**
   An unquantised file of 83 bytes whose only record claims a name of 4095 bytes, far past the end, and
   the size of 2^64 - 36 bytes. The name read is what is left of the file, the one `load` asks for.
   */
  function BackwardFile(): (r: seq<Byte>)
    ensures |r| == 83
  {
    M_GGML + PutU32s([0, 0, 0, 0, 0, 0, 0]) + (PutU32s([2, 4095, 0]) + PutU32s(HUGE) + FF_NAME)
  }

  const BACKWARD := Tensor(FF_NAME, HUGE, 0, 4147, -36)

  lemma BackwardRecord()
    ensures ReadTensor(BackwardFile(), 32, false) == Success((BACKWARD, 4111))
  {
    hide ReadU32s, PutU32s, NBytes, Slice, Prod;
    var file := BackwardFile();
    var head, dims := PutU32s([2, 4095, 0]), PutU32s(HUGE);
    assert file[32..83] == head + dims + FF_NAME;
    AtSplit(file, 32, head + dims, FF_NAME);
    AtSplit(file, 32, head, dims);
    ReadPut(file, 32, [2, 4095, 0]);
    ReadPut(file, 44, HUGE);
    SliceToEnd(file, 52, 4147);
    assert file[52..] == file[52..83] == FF_NAME;
    HugeBytes();
    WrapExact(4111);
  }

  lemma SliceToEnd(data: seq<Byte>, a: nat, b: nat)
    requires a <= |data| <= b
    ensures Slice(data, a, b) == data[a..]
  {
  }

  /** `load` accepts that file, and the tensor it hands on ends before it starts. */
  lemma BackwardLoads(turns: nat)
    requires turns > 0
    ensures var m := Load(BackwardFile(), 0, turns);
      && m.Loaded? && m.model.tensors == [BACKWARD] && m.model.end == 4111
      && !Chain(m.model.tensors, 32, 83) && !AllForward(m.model.tensors)
  {
    hide ReadU32s, PutU32s, ReadTensor, Slice;
    var file := BackwardFile();
    var zeros := [0, 0, 0, 0, 0, 0, 0];
    assert file[0..4] == M_GGML;
    SliceAt(file, 0, M_GGML);
    assert file[4..32] == PutU32s(zeros);
    ReadPut(file, 4, zeros);
    MagicsDiffer();
    BackwardRecord();
    assert [] + [BACKWARD] == [BACKWARD];
    assert ScanTensors(file, 32, false, turns, []) == Done([BACKWARD], 4111);
    BackwardSize();
    assert [BACKWARD][0].len == -36;
  }

  lemma BackwardSize()
    ensures FfSize([BACKWARD]) == Success(HUGE[1])
  {
    assert [BACKWARD][..0] == [];
    assert TensorMap([BACKWARD]) == map[FF_NAME := 0];
  }
}
