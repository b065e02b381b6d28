/**
 The reader of legacy GGML model files: everything is found by an offset into the file's bytes, slices
 follow Python's rules, and sizes are computed in 64-bit signed integers that wrap around.
 */
module GgmlReader {
  import opened Bytes
  import opened Sequences
  import opened Wrappers

  datatype Format = GGML | GGMF | GGJT

  datatype Error =
    | ShortRead | AlreadyGguf | BadMagic | BadVersion | BadFtype | NotEligible | AbsurdItem
    | BadDims | AbsurdName | BadType | MissingFf | NoSecondDim

  // ---------- slices and numbers ----------

  /** `data[a:b]` */
  function Slice(data: seq<Byte>, a: int, b: int): seq<Byte> {
    var lo, hi := Bound(a, |data|), Bound(b, |data|);
    if lo <= hi then data[lo..hi] else []
  }

  /** `struct.unpack('<nI', data[at:at + 4 * n])` */
  function ReadU32s(data: seq<Byte>, at: int, n: nat): (r: Result<seq<nat>, Error>)
    ensures r.Success? ==> |r.value| == n && forall i | 0 <= i < n :: r.value[i] < LIMIT
    ensures r.Failure? ==> r.error == ShortRead
  {
    var s := Slice(data, at, at + 4 * n);
    if |s| != 4 * n then Failure(ShortRead) else Success(Words(s, n))
  }

  function Words(s: seq<Byte>, n: nat): (r: seq<nat>)
    requires |s| == 4 * n
    ensures |r| == n && forall i | 0 <= i < n :: r[i] < LIMIT && r[i] == Le32(s, 4 * i)
  {
    seq(n, i requires 0 <= i < n => Le32(s, 4 * i))
  }

  const TWO63: int := 0x8000_0000_0000_0000

  /** The value of a 64-bit signed integer. */
  function Wrap(x: int): (r: int)
    ensures -TWO63 <= r < TWO63
  {
    (x + TWO63) % (2 * TWO63) - TWO63
  }

  /** Block size and bytes per block of a tensor type. */
  function QuantSize(dtype: nat): (r: Option<(nat, nat)>)
    ensures r.Some? ==> 1 <= r.value.0 <= 256 && 1 <= r.value.1 <= 292
  {
    match dtype
    case 0 => Some((1, 4)) case 1 => Some((1, 2))
    case 2 => Some((32, 18)) case 3 => Some((32, 20))
    case 6 => Some((32, 22)) case 7 => Some((32, 24))
    case 8 => Some((32, 34)) case 9 => Some((32, 40))
    case 10 => Some((256, 84)) case 11 => Some((256, 110))
    case 12 => Some((256, 144)) case 13 => Some((256, 176))
    case 14 => Some((256, 210)) case 15 => Some((256, 292))
    case 16 => Some((256, 66)) case 17 => Some((256, 74))
    case 18 => Some((256, 98)) case 19 => Some((256, 50))
    case 20 => Some((32, 18)) case 21 => Some((256, 110))
    case 22 => Some((256, 82)) case 23 => Some((256, 136))
    case 24 => Some((1, 1)) case 25 => Some((1, 2))
    case 26 => Some((1, 4)) case 27 => Some((1, 8))
    case 28 => Some((1, 8)) case 29 => Some((256, 56))
    case 30 => Some((1, 2)) case 34 => Some((256, 54))
    case 35 => Some((256, 66)) case 39 => Some((32, 17))
    case 40 => Some((64, 36)) case 41 => Some((128, 18))
    case _ => None
  }

  // ---------- the parts of a file ----------

  const M_GGUF: seq<Byte> := [0x47, 0x47, 0x55, 0x46]
  const M_GGML: seq<Byte> := [0x6C, 0x6D, 0x67, 0x67]
  const M_GGMF: seq<Byte> := [0x66, 0x6D, 0x67, 0x67]
  const M_GGJT: seq<Byte> := [0x74, 0x6A, 0x67, 0x67]

  datatype Header = Header(format: Format, version: nat, size: nat)

  /** `validate_header` */
  function ReadHeader(data: seq<Byte>, at: int): Result<Header, Error> {
    var magic := Slice(data, at, at + 4);
    if magic == M_GGUF then Failure(AlreadyGguf)
    else if magic == M_GGML then Success(Header(GGML, 1, 4))
    else
      match ReadU32s(data, at + 4, 1)
      case Failure(e) => Failure(e)
      case Success(v) =>
        if magic == M_GGMF then (if v[0] != 1 then Failure(BadVersion) else Success(Header(GGMF, v[0], 8)))
        else if magic == M_GGJT then
          (if v[0] < 1 || v[0] > 3 then Failure(BadVersion) else Success(Header(GGJT, v[0], 8)))
        else Failure(BadMagic)
  }

  datatype Hyper = Hyper(nVocab: nat, nEmbd: nat, nMult: nat, nHead: nat, nLayer: nat, nRot: nat, ftype: nat)

  predicate KnownFtype(f: nat) {
    f <= 4 || 7 <= f <= 18
  }

  /** `Hyperparameters.load` */
  function ReadHyper(data: seq<Byte>, at: int): Result<Hyper, Error> {
    match ReadU32s(data, at, 7)
    case Failure(e) => Failure(e)
    case Success(v) =>
      if !KnownFtype(v[6]) then Failure(BadFtype)
      else Success(Hyper(v[0], v[1], v[2], v[3], v[4], v[5], v[6]))
  }

  /** `validate_conversion`: quantised files only from GGJT version 2, and Q4 and Q8 only from version 3. */
  predicate Eligible(format: Format, version: nat, ftype: nat) {
    if format != GGJT || version < 2 then ftype == 0 || ftype == 1
    else version == 2 ==> ftype != 2 && ftype != 3 && ftype != 4 && ftype != 7
  }

  /** A vocabulary item; `score` are the bytes of its float, none when the format has no scores. */
  datatype Item = Item(text: seq<Byte>, score: seq<Byte>)

  function ReadItem(data: seq<Byte>, at: int, scores: bool): Result<(Item, int), Error> {
    match ReadU32s(data, at, 1)
    case Failure(e) => Failure(e)
    case Success(v) =>
      if v[0] >= 4096 then Failure(AbsurdItem)
      else
        var text := Slice(data, at + 4, at + 4 + v[0]);
        var next := at + 4 + v[0];
        if !scores then Success((Item(text, []), next))
        else
          var score := Slice(data, next, next + 4);
          if |score| != 4 then Failure(ShortRead) else Success((Item(text, score), next + 4))
  }

  /** The loop of `Vocab.load`, after the items in `items`. */
  function ReadVocab(data: seq<Byte>, at: int, n: nat, scores: bool, items: seq<Item>): Result<(seq<Item>, int), Error>
    decreases n
  {
    if n == 0 then Success((items, at))
    else
      match ReadItem(data, at, scores)
      case Failure(e) => Failure(e)
      case Success(p) => ReadVocab(data, p.1, n - 1, scores, items + [p.0])
  }

  /** A tensor record; its data is at `start` and `len` bytes long. */
  datatype Tensor = Tensor(name: seq<Byte>, dims: seq<nat>, dtype: nat, start: int, len: int)

  /** `(offset + 31) & ~31` */
  function Aligned(at: int): (r: int)
    ensures r % 32 == 0 && 0 <= r - at <= 31
  {
    at + 31 - (at + 31) % 32
  }

  /** The data length as the reader computes it. */
  function NBytes(dims: seq<nat>, quant: (nat, nat)): int
    requires quant.0 > 0
  {
    Wrap(Wrap(Prod(dims)) * quant.1) / quant.0
  }

  /** `Tensor.load`: the record and the offset after it. */
  function ReadTensor(data: seq<Byte>, at: int, padded: bool): Result<(Tensor, int), Error> {
    match ReadU32s(data, at, 3)
    case Failure(e) => Failure(e)
    case Success(head) =>
      var nDims, nameLen, dtype := head[0], head[1], head[2];
      if nDims > 4 then Failure(BadDims)
      else if nameLen >= 4096 then Failure(AbsurdName)
      else if QuantSize(dtype).None? then Failure(BadType)
      else
        match ReadU32s(data, at + 12, nDims)
        case Failure(e) => Failure(e)
        case Success(dims) =>
          var end := at + 12 + 4 * nDims + nameLen;
          var name := Slice(data, at + 12 + 4 * nDims, end);
          var start := if padded then Aligned(end) else end;
          var len := NBytes(dims, QuantSize(dtype).value);
          Success((Tensor(name, dims, dtype, start, len), Wrap(start + len)))
  }

  /** The tensor loop after some turns: finished, ended by an exception, or still going. */
  datatype Scan =
    | Done(tensors: seq<Tensor>, end: int)
    | Raised(error: Error)
    | Running(tensors: seq<Tensor>, at: int)

  /** The tensor loop of `load`, for at most `turns` turns. */
  function ScanTensors(data: seq<Byte>, at: int, padded: bool, turns: nat, ts: seq<Tensor>): Scan
    decreases turns
  {
    if at >= |data| then Done(ts, at)
    else if turns == 0 then Running(ts, at)
    else
      match ReadTensor(data, at, padded)
      case Failure(e) => Raised(e)
      case Success(p) => ScanTensors(data, p.1, padded, turns - 1, ts + [p.0])
  }

  /** Enough turns to tell whether the tensor loop ends. */
  function Turns(data: seq<Byte>): nat {
    2 * |data| + 1
  }

  /** Each name's last tensor. */
  function TensorMap(ts: seq<Tensor>): map<seq<Byte>, nat> {
    if ts == [] then map[]
    else TensorMap(ts[..|ts| - 1])[ts[|ts| - 1].name := |ts| - 1]
  }

  /** `layers.0.feed_forward.w1.weight` */
  const FF_NAME: seq<Byte> := [0x6C, 0x61, 0x79, 0x65, 0x72, 0x73, 0x2E, 0x30, 0x2E, 0x66, 0x65, 0x65, 0x64, 0x5F,
    0x66, 0x6F, 0x72, 0x77, 0x61, 0x72, 0x64, 0x2E, 0x77, 0x31, 0x2E, 0x77, 0x65, 0x69, 0x67, 0x68, 0x74]

  /** `set_n_ff` */
  function FfSize(ts: seq<Tensor>): Result<nat, Error> {
    var m := TensorMap(ts);
    if FF_NAME !in m then Failure(MissingFf)
    else
      MapLast(ts);
      var t := ts[m[FF_NAME]];
      if |t.dims| < 2 then Failure(NoSecondDim) else Success(t.dims[1])
  }

  /** The map knows exactly the names read, and sends each to the last tensor that has it. */
  lemma {:induction false} MapLast(ts: seq<Tensor>)
    ensures forall i | 0 <= i < |ts| :: ts[i].name in TensorMap(ts)
    ensures forall name | name in TensorMap(ts) ::
      var k := TensorMap(ts)[name];
      k < |ts| && ts[k].name == name && forall i | k < i < |ts| :: ts[i].name != name
  {
    if ts == [] {
    } else {
      MapLast(ts[..|ts| - 1]);
    }
  }

  datatype Model = Model(header: Header, hyper: Hyper, items: seq<Item>, tensors: seq<Tensor>, end: int, nFf: nat)

  datatype Outcome = Loaded(model: Model) | Fails(error: Error) | Loops

  /** `load`, giving the tensor loop at most `turns` turns. */
  function Load(data: seq<Byte>, at: int, turns: nat): Outcome {
    match ReadHeader(data, at)
    case Failure(e) => Fails(e)
    case Success(header) =>
      match ReadHyper(data, at + header.size)
      case Failure(e) => Fails(e)
      case Success(hyper) =>
        if !Eligible(header.format, header.version, hyper.ftype) then Fails(NotEligible)
        else LoadBody(data, at + header.size + 28, header, hyper, turns)
  }

  /** `load` from the vocabulary on. */
  function LoadBody(data: seq<Byte>, at: int, header: Header, hyper: Hyper, turns: nat): Outcome {
    match ReadVocab(data, at, hyper.nVocab, header.format != GGML, [])
    case Failure(e) => Fails(e)
    case Success(v) =>
      match ScanTensors(data, v.1, header.format == GGJT, turns, [])
      case Raised(e) => Fails(e)
      case Running(_, _) => Loops
      case Done(ts, end) =>
        match FfSize(ts)
        case Failure(e) => Fails(e)
        case Success(nFf) => Loaded(Model(header, hyper, v.0, ts, end, nFf))
  }

  // ---------- sizes ----------

  /** The number of bytes the dimensions stand for. */
  function TrueBytes(t: Tensor): int
    requires QuantSize(t.dtype).Some?
  {
    Prod(t.dims) * QuantSize(t.dtype).value.1 / QuantSize(t.dtype).value.0
  }

  /** The product of dimensions and block bytes fits a signed 64-bit integer. */
  predicate Fits(t: Tensor) {
    QuantSize(t.dtype).Some? && Prod(t.dims) * QuantSize(t.dtype).value.1 < TWO63
  }

  lemma WrapCongruent(x: int, k: int)
    ensures Wrap(x + k * (2 * TWO63)) == Wrap(x)
  {
    ModShift(x + TWO63, k, 2 * TWO63);
  }

  lemma ModShift(x: int, k: int, m: int)
    requires m > 0
    ensures (x + k * m) % m == x % m
  {
    var q, r := x / m, x % m;
    assert x + k * m == (q + k) * m + r;
    ModOf(q + k, m, r);
  }

  lemma ModOf(q: int, m: int, r: int)
    requires 0 <= r < m
    ensures (q * m + r) % m == r
  {
    var a, b := (q * m + r) / m, (q * m + r) % m;
    assert (a - q) * m == r - b;
    if a > q { MulAtLeast(a - q, m); }
    if a < q { MulAtLeast(q - a, m); }
  }

  lemma MulAtLeast(a: int, m: int)
    requires a >= 1 && m > 0
    ensures a * m >= m
  {
  }

  /** Wrapping the product first changes nothing. */
  lemma WrapProduct(p: nat, s: nat)
    ensures Wrap(Wrap(p) * s) == Wrap(p * s)
  {
    var k := (p + TWO63) / (2 * TWO63);
    assert Wrap(p) == p - k * (2 * TWO63);
    assert Wrap(p) * s == p * s + (-(k * s)) * (2 * TWO63);
    WrapCongruent(p * s, -(k * s));
  }

  lemma WrapExact(x: int)
    requires x >= 0
    ensures Wrap(x) == x <==> x < TWO63
    ensures x >= TWO63 ==> Wrap(x) <= x - 2 * TWO63
  {
  }

  /**
   The length the reader computes is the true one exactly when the product of all dimensions and the
   bytes of a block is below 2^63.
   */
  lemma SizeExact(dims: seq<nat>, dtype: nat)
    requires QuantSize(dtype).Some?
    ensures NBytes(dims, QuantSize(dtype).value) == Prod(dims) * QuantSize(dtype).value.1 / QuantSize(dtype).value.0
      <==> Prod(dims) * QuantSize(dtype).value.1 < TWO63
  {
    hide QuantSize, Wrap, Prod;
    var b, s := QuantSize(dtype).value.0, QuantSize(dtype).value.1;
    WrapProduct(Prod(dims), s);
    var x := Prod(dims) * s;
    WrapExact(x);
    if x >= TWO63 { QuotientDiffers(Wrap(x), x, b); }
  }

  lemma QuotientDiffers(x: int, y: int, b: int)
    requires 1 <= b <= 256 && x + b <= y
    ensures x / b < y / b
  {
    MulAtMost(y / b, x / b, b);
    assert y < y / b * b + b && x / b * b <= x;
  }

  lemma MulAtMost(a: int, c: int, b: int)
    requires b >= 0
    ensures a <= c ==> a * b <= c * b
  {
  }
}
