/** What the reader takes out of a file, said by the bytes: which number is which field, and what is refused. */
module GgmlFields {
  import opened Bytes
  import opened Sequences
  import opened Wrappers
  import opened GgmlReader

  /** The unsigned number in the four bytes from `at`, least significant first. */
  function Number(data: seq<Byte>, at: nat): int
    requires at + 4 <= |data|
  {
    data[at] as int + 0x100 * data[at + 1] as int + 0x1_0000 * data[at + 2] as int + 0x100_0000 * data[at + 3] as int
  }

  lemma NumbersAt(data: seq<Byte>, at: nat, n: nat)
    ensures ReadU32s(data, at, n).Success? <==> at + 4 * n <= |data| || n == 0
    ensures at + 4 * n <= |data| ==>
      forall i | 0 <= i < n :: ReadU32s(data, at, n).value[i] == Number(data, at + 4 * i)
  {
    if at + 4 * n <= |data| {
      var s := Slice(data, at, at + 4 * n);
      assert s == data[at..at + 4 * n];
      forall i | 0 <= i < n ensures ReadU32s(data, at, n).value[i] == Number(data, at + 4 * i) {
        NumberAt(data, at, s, i);
      }
    }
  }

  lemma NumberAt(data: seq<Byte>, at: nat, s: seq<Byte>, i: nat)
    requires at + |s| <= |data| && s == data[at..at + |s|] && 4 * i + 4 <= |s|
    ensures Le32(s, 4 * i) == Number(data, at + 4 * i)
  {
    var k := 4 * i;
    assert s[k] == data[at + k] && s[k + 1] == data[at + k + 1];
    assert s[k + 2] == data[at + k + 2] && s[k + 3] == data[at + k + 3];
  }

  // ---------- header and hyperparameters ----------

  /** The five headers accepted: `lmgg`, `fmgg` with version 1, and `tjgg` with versions 1 to 3. */
  lemma HeadersAccepted(data: seq<Byte>, at: nat)
    requires at + 8 <= |data|
    ensures var magic, version := data[at..at + 4], Number(data, at + 4);
      ReadHeader(data, at) ==
      if magic == [71, 71, 85, 70] then Failure(AlreadyGguf)
      else if magic == [108, 109, 103, 103] then Success(Header(GGML, 1, 4))
      else if magic == [102, 109, 103, 103] then
        (if version == 1 then Success(Header(GGMF, 1, 8)) else Failure(BadVersion))
      else if magic == [116, 106, 103, 103] then
        (if version in {1, 2, 3} then Success(Header(GGJT, version, 8)) else Failure(BadVersion))
      else Failure(BadMagic)
  {
    hide ReadU32s;
    NumbersAt(data, at + 4, 1);
    assert Slice(data, at, at + 4) == data[at..at + 4];
  }

  /** The seven hyperparameters in their order; any file type but the ones removed from the format is known. */
  lemma HyperFields(data: seq<Byte>, at: nat)
    requires at + 28 <= |data|
    ensures var ftype := Number(data, at + 24);
      ReadHyper(data, at) ==
      if ftype in {0, 1, 2, 3, 4, 7, 8, 9, 10, 11, 12, 13, 14, 15, 16, 17, 18} then
        Success(Hyper(Number(data, at), Number(data, at + 4), Number(data, at + 8), Number(data, at + 12),
                      Number(data, at + 16), Number(data, at + 20), ftype))
      else Failure(BadFtype)
  {
    hide ReadU32s;
    NumbersAt(data, at, 7);
    var v := ReadU32s(data, at, 7).value;
    assert v[0] == Number(data, at + 4 * 0) && v[1] == Number(data, at + 4 * 1) && v[2] == Number(data, at + 4 * 2);
    assert v[3] == Number(data, at + 4 * 3) && v[4] == Number(data, at + 4 * 4) && v[5] == Number(data, at + 4 * 5);
    assert v[6] == Number(data, at + 4 * 6);
  }

  /**
   Unquantised files can be converted in every format; quantised ones only from the third format on, from
   its version 2, and in that version not the types Q4_0, Q4_1, Q4_1 with F16, and Q8_0.
   */
  lemma EligibleFiles(format: Format, version: nat, ftype: nat)
    ensures Eligible(format, version, ftype) <==>
      || ftype in {0, 1}
      || (format == GGJT && version >= 2 && (version == 2 ==> ftype !in {2, 3, 4, 7}))
  {
  }

  /** Block sizes are 1, 32 or 256 in the types of legacy files, and bytes those of scales, high bits and values. */
  lemma LegacyBlocks()
    ensures QuantSize(0) == Some((1, 4)) && QuantSize(1) == Some((1, 2))
    ensures QuantSize(2) == Some((32, 2 + 32 / 2)) && QuantSize(3) == Some((32, 2 + 2 + 32 / 2))
    ensures QuantSize(6) == Some((32, 2 + 32 / 8 + 32 / 2)) && QuantSize(7) == Some((32, 2 + 2 + 32 / 8 + 32 / 2))
    ensures QuantSize(8) == Some((32, 2 + 32)) && QuantSize(9) == Some((32, 4 + 4 + 32))
    ensures QuantSize(10) == Some((256, 2 + 2 + 256 / 16 + 256 / 4))
    ensures QuantSize(11) == Some((256, 2 + 256 / 4 + 256 / 8 + 12))
    ensures QuantSize(12) == Some((256, 2 + 2 + 256 / 2 + 12))
    ensures QuantSize(13) == Some((256, 2 + 2 + 256 / 2 + 256 / 8 + 12))
    ensures QuantSize(14) == Some((256, 2 + 256 / 2 + 256 / 4 + 256 / 16))
    ensures QuantSize(15) == Some((256, 4 + 256 + 256 / 8))
    ensures QuantSize(4) == None && QuantSize(5) == None
  {
  }

  // ---------- items and records ----------

  /** The bytes from `a` to `b`, as far as the file goes. */
  function Part(data: seq<Byte>, a: nat, b: nat): seq<Byte> {
    if |data| <= a || b <= a then [] else if |data| < b then data[a..] else data[a..b]
  }

  lemma SlicePart(data: seq<Byte>, a: nat, b: nat)
    ensures Slice(data, a, b) == Part(data, a, b)
  {
  }

  /** A vocabulary item: its length, below 4096, its text, and four bytes of score if there are scores. */
  lemma ItemFields(data: seq<Byte>, at: nat, scores: bool)
    requires at + 4 <= |data|
    ensures var len := Number(data, at);
      var next := at + 4 + len;
      ReadItem(data, at, scores) ==
      if len > 4095 then Failure(AbsurdItem)
      else if !scores then Success((Item(Part(data, at + 4, next), []), next))
      else if |data| < next + 4 then Failure(ShortRead)
      else Success((Item(Part(data, at + 4, next), data[next..next + 4]), next + 4))
  {
    hide ReadU32s, Slice, Part;
    NumbersAt(data, at, 1);
    var next := at + 4 + ReadU32s(data, at, 1).value[0];
    SlicePart(data, at + 4, next);
    SlicePart(data, next, next + 4);
    ScoreBytes(data, next);
  }

  lemma ScoreBytes(data: seq<Byte>, at: nat)
    ensures |Part(data, at, at + 4)| == 4 <==> at + 4 <= |data|
    ensures at + 4 <= |data| ==> Part(data, at, at + 4) == data[at..at + 4]
  {
  }

  /**
   A tensor record: number of dimensions, length of the name, type, dimensions, name, and in the padded
   format its data from the next multiple of 32.
   */
  lemma RecordFields(data: seq<Byte>, at: nat, padded: bool)
    requires at + 12 <= |data|
    ensures var n, len, dtype := Number(data, at), Number(data, at + 4), Number(data, at + 8);
      var r := ReadTensor(data, at, padded);
      var names := at + 12 + 4 * n;
      && n >= 0 && len >= 0 && dtype >= 0
      && (r.Success? <==> n <= 4 && len <= 4095 && QuantSize(dtype).Some? && names <= |data|)
      && (r.Success? ==>
            var t := r.value.0;
            && |t.dims| == n && (forall i | 0 <= i < n :: t.dims[i] == Number(data, at + 12 + 4 * i))
            && t.name == Part(data, names, names + len) && t.dtype == dtype
            && names + len <= t.start && (if padded then t.start % 32 == 0 && t.start < names + len + 32
                                          else t.start == names + len))
  {
    hide ReadU32s, Slice, QuantSize, NBytes, Wrap, Part;
    NumbersAt(data, at, 3);
    var v := ReadU32s(data, at, 3).value;
    assert v[0] == Number(data, at + 4 * 0) && v[1] == Number(data, at + 4 * 1) && v[2] == Number(data, at + 4 * 2);
    NumbersAt(data, at + 12, v[0]);
    SlicePart(data, at + 12 + 4 * v[0], at + 12 + 4 * v[0] + v[1]);
  }

  /** Scores are read in all formats but the first, and padding in the last one only. */
  lemma LoadedLayout(data: seq<Byte>, at: nat, turns: nat)
    requires Load(data, at, turns).Loaded?
    ensures var m := Load(data, at, turns).model;
      var start := at + m.header.size + 28;
      var v := ReadVocab(data, start, m.hyper.nVocab, m.header.format in {GGMF, GGJT}, []);
      && ReadHeader(data, at) == Success(m.header) && ReadHyper(data, at + m.header.size) == Success(m.hyper)
      && v.Success? && v.value.0 == m.items
      && ScanTensors(data, v.value.1, m.header.format in {GGJT}, turns, []) == Done(m.tensors, m.end)
      && FfSize(m.tensors) == Success(m.nFf)
  {
    hide ReadHeader, ReadHyper, ReadVocab, ScanTensors, FfSize;
    var f := ReadHeader(data, at).value.format;
    assert f in {GGMF, GGJT} <==> f != GGML;
  }

  /** The feed-forward size is the second dimension of the last tensor with the name, if it has two. */
  lemma FfSizeIs(ts: seq<Tensor>, k: nat)
    requires k < |ts| && ts[k].name == FF_NAME && forall i | k < i < |ts| :: ts[i].name != FF_NAME
    ensures FfSize(ts) == if |ts[k].dims| >= 2 then Success(ts[k].dims[1]) else Failure(NoSecondDim)
  {
    hide TensorMap;
    MapLast(ts);
    var m := TensorMap(ts)[FF_NAME];
    assert m == k by { if m < k { assert ts[k].name == FF_NAME; } }
  }

  lemma FfSizeMissing(ts: seq<Tensor>)
    requires forall i | 0 <= i < |ts| :: ts[i].name != FF_NAME
    ensures FfSize(ts) == Failure(MissingFf)
  {
    hide TensorMap;
    MapLast(ts);
  }
}
