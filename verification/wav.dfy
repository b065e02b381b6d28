/**
 The recorder's 16-bit PCM WAV files: samples as exact reals, the bytes written for them, and the
 reader that walks the chunks back to samples.
 */
module Wav {
  import opened Bytes
  import opened Wrappers

  const RIFF: seq<Byte> := [0x52, 0x49, 0x46, 0x46]
  const WAVE: seq<Byte> := [0x57, 0x41, 0x56, 0x45]
  const FMT: seq<Byte> := [0x66, 0x6D, 0x74, 0x20]
  const DATA: seq<Byte> := [0x64, 0x61, 0x74, 0x61]

  // ---------- samples ----------

  function Clip(x: real): (r: real)
    ensures -32768.0 <= r <= 32767.0
  {
    if x < -32768.0 then -32768.0 else if x > 32767.0 then 32767.0 else x
  }

  /** Conversion to an integer type drops the fraction. */
  function Truncate(x: real): int {
    if x >= 0.0 then x.Floor else -((-x).Floor)
  }

  type Pcm = v: int | -32768 <= v <= 32767

  function ToPcm(x: real): Pcm {
    Truncate(Clip(x * 32767.0))
  }

  function FromPcm(v: Pcm): real {
    v as real / 32767.0
  }

  /** The least sample of a 16-bit file. */
  const LOWEST: real := -32768.0 / 32767.0

  function AllPcm(xs: seq<real>): (r: seq<Pcm>)
    ensures |r| == |xs|
  {
    seq(|xs|, i requires 0 <= i < |xs| => ToPcm(xs[i]))
  }

  function AllReal(vs: seq<Pcm>): (r: seq<real>)
    ensures |r| == |vs|
  {
    seq(|vs|, i requires 0 <= i < |vs| => FromPcm(vs[i]))
  }

  /** A sample that is not clipped comes back within one quantisation step, and never further from zero. */
  lemma SampleError(x: real)
    requires LOWEST <= x <= 1.0
    ensures var y := FromPcm(ToPcm(x));
      -1.0 / 32767.0 < y - x < 1.0 / 32767.0 && (x >= 0.0 ==> 0.0 <= y <= x) && (x <= 0.0 ==> x <= y <= 0.0)
  {
    var v := ToPcm(x);
    assert Clip(x * 32767.0) == x * 32767.0;
    if x >= 0.0 {
      assert v as real <= x * 32767.0 < v as real + 1.0;
    } else {
      assert v as real - 1.0 < x * 32767.0 <= v as real;
    }
  }

  /** The 16-bit value of a sample: 32767 times it without the fraction, or the nearest value there is. */
  lemma PcmValue(x: real)
    ensures var v := ToPcm(x);
      && (x > 1.0 ==> v == 32767) && (x < LOWEST ==> v == -32768)
      && (0.0 <= x <= 1.0 ==> v as real <= 32767.0 * x < v as real + 1.0)
      && (LOWEST <= x <= 0.0 ==> v as real - 1.0 < 32767.0 * x <= v as real)
    ensures forall v: Pcm :: 32767.0 * FromPcm(v) == v as real
  {
  }

  /** A value read from a file is written back as itself. */
  lemma SampleStable(v: Pcm)
    ensures ToPcm(FromPcm(v)) == v
  {
    assert FromPcm(v) * 32767.0 == v as real;
  }

  // ---------- bytes ----------

  function I16(v: Pcm): (r: seq<Byte>)
    ensures |r| == 2
  {
    U16(if v < 0 then v + 0x1_0000 else v)
  }

  /** The bytes of the samples, little-endian. */
  function Encode(vs: seq<Pcm>): (r: seq<Byte>)
    ensures |r| == 2 * |vs|
  {
    if vs == [] then [] else I16(vs[0]) + Encode(vs[1..])
  }

  function Decode(b: seq<Byte>): (r: seq<Pcm>)
    requires |b| % 2 == 0
    ensures |r| == |b| / 2
  {
    if b == [] then []
    else
      var u := Le16(b, 0);
      [if u >= 0x8000 then u - 0x1_0000 else u] + Decode(b[2..])
  }

  lemma {:induction false} DecodeEncode(vs: seq<Pcm>)
    ensures Decode(Encode(vs)) == vs
  {
    if vs == [] {
    } else {
      var b := I16(vs[0]) + Encode(vs[1..]);
      assert b[2..] == Encode(vs[1..]);
      assert b[0] == I16(vs[0])[0] && b[1] == I16(vs[0])[1];
      DecodeEncode(vs[1..]);
    }
  }

  /** `struct.pack` raises when a field is out of range. */
  predicate Packs(channels: nat, rate: nat, size: nat) {
    36 + size < LIMIT && channels * 2 < 0x1_0000 && rate * channels * 2 < LIMIT && rate < LIMIT
  }

  function Format(channels: nat, rate: nat): (r: seq<Byte>)
    requires channels * 2 < 0x1_0000 && rate * channels * 2 < LIMIT && rate < LIMIT
    ensures |r| == 20
  {
    U32(16) + U16(1) + U16(channels) + U32(rate) + U32(rate * channels * 2) + U16(channels * 2) + U16(16)
  }

  function File(channels: nat, rate: nat, data: seq<Byte>): (r: seq<Byte>)
    requires Packs(channels, rate, |data|)
    ensures |r| == 44 + |data|
  {
    RIFF + U32(36 + |data|) + WAVE + FMT + Format(channels, rate) + DATA + U32(|data|) + data
  }

  /** `_write_wav`: the bytes that reach the file, all of them unless packing a size raises. */
  method WriteWav(pcm: seq<real>, rate: nat) returns (file: seq<Byte>, raised: bool)
    ensures raised <==> !Packs(1, rate, 2 * |pcm|)
    ensures !raised ==> file == File(1, rate, Encode(AllPcm(pcm)))
    ensures raised <==> 36 + 2 * |pcm| > 0xFFFF_FFFF || 2 * rate > 0xFFFF_FFFF
  {
    file, raised := WriteFile(1, rate, Encode(AllPcm(pcm)));
  }

  method WriteFile(channels: nat, rate: nat, data: seq<Byte>) returns (file: seq<Byte>, raised: bool)
    requires 0 < channels * 2 < 0x1_0000
    ensures raised <==> !Packs(channels, rate, |data|)
    ensures !raised ==> file == File(channels, rate, data)
  {
    file := RIFF;
    if 36 + |data| >= LIMIT { return file, true; }
    file := file + U32(36 + |data|);
    file := file + WAVE;
    file := file + FMT;
    if rate >= LIMIT || rate * channels * 2 >= LIMIT { return file, true; }
    file := file + Format(channels, rate);
    file := file + DATA;
    file := file + U32(|data|);
    file := file + data;
    return file, false;
  }

  /** Left and right samples taking turns. */
  function Woven(l: seq<Pcm>, r: seq<Pcm>): (s: seq<Pcm>)
    requires |l| == |r|
    ensures |s| == 2 * |l|
  {
    if l == [] then [] else [l[0], r[0]] + Woven(l[1..], r[1..])
  }

  lemma {:induction false} WovenAt(l: seq<Pcm>, r: seq<Pcm>, i: nat)
    requires |l| == |r| && i < |l|
    ensures Woven(l, r)[2 * i] == l[i] && Woven(l, r)[2 * i + 1] == r[i]
  {
    if i > 0 {
      WovenAt(l[1..], r[1..], i - 1);
    }
  }

  /** `_write_stereo_wav`: the longer channel is cut to the shorter one. */
  method WriteStereoWav(left: seq<real>, right: seq<real>, rate: nat) returns (file: seq<Byte>, raised: bool)
    ensures var n := if |left| < |right| then |left| else |right|;
      && (raised <==> !Packs(2, rate, 4 * n))
      && (raised <==> 36 + 4 * n > 0xFFFF_FFFF || 4 * rate > 0xFFFF_FFFF)
      && (!raised ==> file == File(2, rate, Encode(Woven(AllPcm(left[..n]), AllPcm(right[..n])))))
  {
    var n := if |left| < |right| then |left| else |right|;
    var l16, r16 := AllPcm(left[..n]), AllPcm(right[..n]);
    var stereo := new Pcm[n * 2];
    var i := 0;
    while i < n
      invariant i <= n && forall j | 0 <= j < i :: stereo[2 * j] == l16[j]
    {
      stereo[2 * i] := l16[i];
      i := i + 1;
    }
    i := 0;
    while i < n
      invariant i <= n && forall j | 0 <= j < n :: stereo[2 * j] == l16[j]
      invariant forall j | 0 <= j < i :: stereo[2 * j + 1] == r16[j]
    {
      stereo[2 * i + 1] := r16[i];
      i := i + 1;
    }
    forall k | 0 <= k < 2 * n ensures stereo[k] == Woven(l16, r16)[k] { WovenAt(l16, r16, k / 2); }
    assert stereo[..] == Woven(l16, r16);
    file, raised := WriteFile(2, rate, Encode(stereo[..]));
  }

  // ---------- reading ----------

  /** Channels and bytes per sample. */
  datatype Shape = Shape(channels: nat, width: nat) {
    function Frame(): nat {
      channels * width
    }
  }

  /** Every `n`-th element, from the first. */
  function Every<T>(s: seq<T>, n: nat): seq<T>
    requires n > 0
    decreases |s|
  {
    if s == [] then [] else [s[0]] + Every(if |s| < n then [] else s[n..], n)
  }

  function Samples(raw: seq<Byte>, channels: nat): Option<seq<real>> {
    if |raw| % 2 != 0 then None
    else if channels > 1 then Some(AllReal(Every(Decode(raw), channels)))
    else Some(AllReal(Decode(raw)))
  }

  /** The `fmt ` chunk at `at`; only plain PCM is read. */
  function ReadFormat(f: seq<Byte>, at: nat): Option<Shape>
    requires at + 8 <= |f|
  {
    if Le32(f, at + 4) < 16 || |f| < at + 24 || Le16(f, at + 8) != 1 then None
    else
      var channels, width := Le16(f, at + 10), (Le16(f, at + 22) + 7) / 8;
      if channels == 0 || width == 0 then None else Some(Shape(channels, width))
  }

  /** The whole frames of a data chunk, as far as the file goes. */
  function ReadData(f: seq<Byte>, at: nat, size: nat, shape: Shape): Option<seq<real>>
    requires at + 8 <= |f|
  {
    if shape.Frame() == 0 then None
    else
      var end := at + 8 + Whole(size, shape.Frame());
      Samples(f[at + 8..if end < |f| then end else |f|], shape.channels)
  }

  function Whole(size: nat, frame: nat): (r: nat)
    requires frame > 0
  {
    size - size % frame
  }

  /** Chunks are skipped until the data chunk; `shape` is what the format chunk said, if one was seen. */
  function Walk(f: seq<Byte>, at: nat, shape: Option<Shape>): Option<seq<real>>
    decreases |f| - at
  {
    if |f| < at + 8 then None
    else
      var size := Le32(f, at + 4);
      var name := f[at..at + 4];
      if name == DATA then
        if shape.None? then None else ReadData(f, at, size, shape.value)
      else if name == FMT then
        var found := ReadFormat(f, at);
        if found.None? then None else Walk(f, at + 8 + size + size % 2, found)
      else Walk(f, at + 8 + size + size % 2, shape)
  }

  /** `_read_wav_mono`: the first channel, or nothing when anything raises. */
  function ReadWavMono(file: seq<Byte>): Option<seq<real>> {
    if |file| < 12 || file[..4] != RIFF || file[8..12] != WAVE then None
    else
      var end := 8 + Le32(file, 4);
      Walk(file[..if end < |file| then end else |file|], 12, None)
  }

  /** Samples a 16-bit file can hold exactly. */
  predicate Quantised(xs: seq<real>) {
    forall i | 0 <= i < |xs| :: xs[i] == FromPcm(ToPcm(xs[i]))
  }

  lemma RealQuantised(vs: seq<Pcm>)
    ensures Quantised(AllReal(vs))
  {
    forall i | 0 <= i < |vs| ensures FromPcm(ToPcm(FromPcm(vs[i]))) == FromPcm(vs[i]) { SampleStable(vs[i]); }
  }

  lemma {:induction false} WalkQuantised(f: seq<Byte>, at: nat, shape: Option<Shape>)
    requires Walk(f, at, shape).Some?
    ensures Quantised(Walk(f, at, shape).value)
    decreases |f| - at
  {
    hide Quantised, Le32, Le16;
    var size := Le32(f, at + 4);
    var name := f[at..at + 4];
    if name == DATA {
      DataQuantised(f, at, size, shape.value);
    } else {
      WalkQuantised(f, at + 8 + size + size % 2, if name == FMT then ReadFormat(f, at) else shape);
    }
  }

  lemma DataQuantised(f: seq<Byte>, at: nat, size: nat, shape: Shape)
    requires at + 8 <= |f| && ReadData(f, at, size, shape).Some?
    ensures Quantised(ReadData(f, at, size, shape).value)
  {
    hide Quantised, Decode, Every;
    var end := at + 8 + Whole(size, shape.Frame());
    var raw := f[at + 8..if end < |f| then end else |f|];
    RealQuantised(if shape.channels > 1 then Every(Decode(raw), shape.channels) else Decode(raw));
  }

  /** Whatever file is read, its samples are ones a file can hold. */
  lemma ReadQuantised(file: seq<Byte>)
    requires ReadWavMono(file).Some?
    ensures Quantised(ReadWavMono(file).value)
  {
    hide Walk, Quantised, Le32;
    var end := 8 + Le32(file, 4);
    WalkQuantised(file[..if end < |file| then end else |file|], 12, None);
  }

  // ---------- writing and reading together ----------

  /** Where the parts of a written file are. */
  lemma Layout(channels: nat, rate: nat, data: seq<Byte>)
    requires Packs(channels, rate, |data|)
    ensures var f := File(channels, rate, data);
      && f[..4] == RIFF && f[4..8] == U32(36 + |data|) && f[8..12] == WAVE
      && f[12..16] == FMT && f[16..20] == U32(16) && f[20..22] == U16(1) && f[22..24] == U16(channels)
      && f[34..36] == U16(16) && f[36..40] == DATA && f[40..44] == U32(|data|) && f[44..] == data
      && f[16..36] == Format(channels, rate)
  {
    hide U16, U32;
    var f := File(channels, rate, data);
    assert f[16..36] == Format(channels, rate);
    var g := Format(channels, rate);
    assert f[16..20] == g[..4] && f[20..22] == g[4..6] && f[22..24] == g[6..8] && f[34..36] == g[18..20];
  }

  /** The chunk walk of a written file ends at its data. */
  lemma WalkFile(channels: nat, rate: nat, data: seq<Byte>)
    requires Packs(channels, rate, |data|) && 0 < channels && |data| % (2 * channels) == 0
    ensures ReadWavMono(File(channels, rate, data)) == Samples(data, channels)
  {
    hide File, U16, U32, Samples, Le32, Le16;
    var f := File(channels, rate, data);
    Layout(channels, rate, data);
    U32Read(36 + |data|, f, 4);
    assert f[..|f|] == f;
    U32Read(16, f, 16);
    U32Read(|data|, f, 40);
    FormatRead(f, channels);
    assert Walk(f, 36, Some(Shape(channels, 2))) == ReadData(f, 36, |data|, Shape(channels, 2));
    assert Walk(f, 12, None) == Walk(f, 36, Some(Shape(channels, 2)));
  }

  lemma FormatRead(f: seq<Byte>, channels: nat)
    requires |f| >= 44 && 0 < channels && channels * 2 < 0x1_0000
    requires f[16..20] == U32(16) && f[20..22] == U16(1) && f[22..24] == U16(channels) && f[34..36] == U16(16)
    ensures ReadFormat(f, 12) == Some(Shape(channels, 2))
  {
    U32Read(16, f, 16);
    U16Read(1, f, 20);
    U16Read(channels, f, 22);
    U16Read(16, f, 34);
  }

  /** A mono file reads back as its quantised samples, each within one step if it was in [-1, 1]. */
  lemma MonoRoundTrip(xs: seq<real>, rate: nat)
    requires Packs(1, rate, 2 * |xs|)
    ensures var back := ReadWavMono(File(1, rate, Encode(AllPcm(xs))));
      && back.Some? && |back.value| == |xs|
      && (forall i | 0 <= i < |xs| :: back.value[i] == FromPcm(ToPcm(xs[i])))
      && (forall i | 0 <= i < |xs| && -1.0 <= xs[i] <= 1.0 ::
            -1.0 / 32767.0 < back.value[i] - xs[i] < 1.0 / 32767.0)
  {
    WalkFile(1, rate, Encode(AllPcm(xs)));
    DecodeEncode(AllPcm(xs));
    forall i | 0 <= i < |xs| && -1.0 <= xs[i] <= 1.0
      ensures -1.0 / 32767.0 < FromPcm(ToPcm(xs[i])) - xs[i] < 1.0 / 32767.0
    {
      SampleError(xs[i]);
    }
  }

  /** Writing what was read gives the same file, whatever was written first. */
  lemma RewriteStable(xs: seq<real>, rate: nat)
    requires Packs(1, rate, 2 * |xs|)
    ensures var file := File(1, rate, Encode(AllPcm(xs)));
      var back := ReadWavMono(file);
      back.Some? && Packs(1, rate, 2 * |back.value|) && File(1, rate, Encode(AllPcm(back.value))) == file
  {
    WalkFile(1, rate, Encode(AllPcm(xs)));
    DecodeEncode(AllPcm(xs));
    var back := AllReal(AllPcm(xs));
    forall i | 0 <= i < |xs| ensures AllPcm(back)[i] == AllPcm(xs)[i] { SampleStable(AllPcm(xs)[i]); }
    assert AllPcm(back) == AllPcm(xs);
  }

  lemma {:induction false} EveryOther(l: seq<Pcm>, r: seq<Pcm>)
    requires |l| == |r|
    ensures Every(Woven(l, r), 2) == l
  {
    if l == [] {
    } else {
      assert Woven(l, r)[2..] == Woven(l[1..], r[1..]);
      EveryOther(l[1..], r[1..]);
    }
  }

  /** A stereo file reads back as its left channel. */
  lemma StereoReadsLeft(l: seq<Pcm>, r: seq<Pcm>, rate: nat)
    requires |l| == |r| && Packs(2, rate, 4 * |l|)
    ensures ReadWavMono(File(2, rate, Encode(Woven(l, r)))) == Some(AllReal(l))
  {
    WalkFile(2, rate, Encode(Woven(l, r)));
    DecodeEncode(Woven(l, r));
    EveryOther(l, r);
  }

  /**
   The size fields count what follows them: the RIFF chunk the rest of the file, the data chunk its
   samples, which fill whole frames.
   */
  lemma SizesMatch(channels: nat, rate: nat, data: seq<Byte>)
    requires Packs(channels, rate, |data|)
    ensures var f := File(channels, rate, data);
      && Le32(f, 4) == |f| - 8 && Le32(f, 16) == 16 && Le32(f, 40) == |f| - 44
      && Le16(f, 32) == channels * 2 && Le32(f, 28) == rate * Le16(f, 32) && Le32(f, 24) == rate
  {
    hide File, U16, U32, Le16, Le32;
    Layout(channels, rate, data);
    var f := File(channels, rate, data);
    U32Read(36 + |data|, f, 4);
    U32Read(16, f, 16);
    U32Read(|data|, f, 40);
    FormatRates(f, U32(16) + U16(1) + U16(channels), rate, rate * channels * 2, channels * 2);
    U32Read(rate, f, 24);
    U32Read(rate * channels * 2, f, 28);
    U16Read(channels * 2, f, 32);
  }

  /** The chunks have their names, and the format is PCM of 16 bits, sample after sample. */
  lemma NamesMatch(channels: nat, rate: nat, data: seq<Byte>)
    requires Packs(channels, rate, |data|)
    ensures var f := File(channels, rate, data);
      && f[..4] == [82, 73, 70, 70] && f[8..12] == [87, 65, 86, 69]
      && f[12..16] == [102, 109, 116, 32] && f[36..40] == [100, 97, 116, 97]
      && Le16(f, 20) == 1 && Le16(f, 22) == channels && Le16(f, 34) == 16 && f[44..] == data
  {
    hide File, U16, U32, Le16, Packs, Format;
    Layout(channels, rate, data);
    var f := File(channels, rate, data);
    U16Read(1, f, 20);
    ChannelsRead(f, channels, rate, |data|);
    U16Read(16, f, 34);
  }

  lemma ChannelsRead(f: seq<Byte>, channels: nat, rate: nat, size: nat)
    requires Packs(channels, rate, size) && |f| >= 24 && f[22..24] == U16(channels)
    ensures Le16(f, 22) == channels
  {
    U16Read(channels, f, 22);
  }

  /** Samples are two bytes each, least significant first, negative ones counted down from 65536. */
  lemma {:induction false} SampleBytes(vs: seq<Pcm>, i: nat)
    requires i < |vs|
    ensures var b := Encode(vs);
      b[2 * i] as int + 0x100 * b[2 * i + 1] as int == if vs[i] < 0 then vs[i] as int + 0x1_0000 else vs[i]
  {
    if i > 0 {
      SampleBytes(vs[1..], i - 1);
    }
  }

  /** Where the rates are in a format chunk. */
  lemma FormatRates(f: seq<Byte>, start: seq<Byte>, rate: nat, bytes: nat, align: nat)
    requires |start| == 8 && rate < LIMIT && bytes < LIMIT && align < 0x1_0000
    requires |f| >= 36 && f[16..36] == start + U32(rate) + U32(bytes) + U16(align) + U16(16)
    ensures f[24..28] == U32(rate) && f[28..32] == U32(bytes) && f[32..34] == U16(align)
  {
    hide U16, U32;
    var g := f[16..36];
    assert g[8..12] == U32(rate) && g[12..16] == U32(bytes);
    assert g == (start + U32(rate) + U32(bytes)) + (U16(align) + U16(16));
    assert g[16..18] == U16(align);
    assert f[24..28] == g[8..12] && f[28..32] == g[12..16] && f[32..34] == g[16..18];
  }
}
