/**
 The merged replay of a recorded session: the chunks' audio laid back to back in two channels, and the
 slideshow of the user's frames over the same timeline. Times and samples are exact reals.
 */
module Replay {
  import opened Bytes
  import opened Wrappers
  import opened Wav

  const RATE: nat := 16000
  const AI_RATE: nat := 24000

  // ---------- resampling ----------

  /** Linear interpolation at position `x` among samples at 0, 1, 2, ... */
  function Interpolated(xs: seq<real>, x: real): real
    requires xs != [] && 0.0 <= x <= (|xs| - 1) as real
  {
    var i := x.Floor;
    if i == |xs| - 1 then xs[i] else xs[i] + (xs[i + 1] - xs[i]) * (x - i as real)
  }

  /** The share i / n of `len`. */
  function Portion(i: nat, n: nat, len: real): (x: real)
    requires i <= n && n > 0 && len >= 0.0
    ensures 0.0 <= x <= len
  {
    var q := i as real / n as real;
    assert 0.0 <= q <= 1.0;
    Share(q, len);
    q * len
  }

  /** Where output sample `i` of `n` looks, spread evenly over `len` input samples. */
  function Position(i: nat, n: nat, len: nat): (x: real)
    requires i < n && len > 0
    ensures 0.0 <= x <= (len - 1) as real
  {
    if n == 1 then 0.0 else Portion(i, n - 1, (len - 1) as real)
  }

  lemma Share(q: real, len: real)
    requires 0.0 <= q <= 1.0 && len >= 0.0
    ensures 0.0 <= q * len <= len
  {
    Product(q, len);
    Product(1.0 - q, len);
    assert len - q * len == (1.0 - q) * len;
  }

  lemma Product(a: real, b: real)
    ensures a >= 0.0 && b >= 0.0 ==> a * b >= 0.0
  {
  }

  function NewLength(len: nat, source: nat, target: nat): nat
    requires source > 0
  {
    len * target / source
  }

  lemma Quotients(x: nat, m: nat)
    requires m > 0
    ensures x / m * m <= x < (x / m + 1) * m
  {
  }

  /** `_resample_linear` */
  function Resampled(pcm: seq<real>, source: nat, target: nat): seq<real>
    requires source > 0
  {
    if source == target || pcm == [] then pcm
    else
      var n := NewLength(|pcm|, source, target);
      seq(n, i requires 0 <= i < n => Interpolated(pcm, Position(i, n, |pcm|)))
  }

  predicate Within(xs: seq<real>, low: real, high: real) {
    forall i | 0 <= i < |xs| :: low <= xs[i] <= high
  }

  lemma Between(a: real, b: real, t: real, low: real, high: real)
    requires 0.0 <= t <= 1.0 && low <= a <= high && low <= b <= high
    ensures low <= a + (b - a) * t <= high
  {
    Product(high - a, 1.0 - t);
    Product(high - b, t);
    Product(a - low, 1.0 - t);
    Product(b - low, t);
    assert high - (a + (b - a) * t) == (high - a) * (1.0 - t) + (high - b) * t;
    assert a + (b - a) * t - low == (a - low) * (1.0 - t) + (b - low) * t;
  }

  lemma InterpolatedWithin(pcm: seq<real>, x: real, low: real, high: real)
    requires pcm != [] && 0.0 <= x <= (|pcm| - 1) as real && Within(pcm, low, high)
    ensures low <= Interpolated(pcm, x) <= high
  {
    var i := x.Floor;
    if i < |pcm| - 1 {
      Between(pcm[i], pcm[i + 1], x - i as real, low, high);
    }
  }

  /** Resampling never leaves the range of its input, and keeps the first and the last sample. */
  lemma ResampledWithin(pcm: seq<real>, source: nat, target: nat, low: real, high: real)
    requires source > 0 && Within(pcm, low, high)
    ensures var r := Resampled(pcm, source, target);
      Within(r, low, high) && (r != [] ==> r[0] == pcm[0]) && (|r| > 1 ==> r[|r| - 1] == pcm[|pcm| - 1])
  {
    hide Position, Interpolated, NewLength;
    var r := Resampled(pcm, source, target);
    if source != target && pcm != [] {
      var n := NewLength(|pcm|, source, target);
      forall i | 0 <= i < n ensures low <= r[i] <= high {
        InterpolatedWithin(pcm, Position(i, n, |pcm|), low, high);
      }
      if n > 0 { FirstSample(pcm, n); }
      if n > 1 { LastSample(pcm, n); }
    }
  }

  /** How long resampled audio is: the new rate's share of the old length, rounded down. */
  lemma ResampledLength(pcm: seq<real>, source: nat, target: nat)
    requires source > 0
    ensures |Resampled(pcm, source, target)| * source <= |pcm| * target
              < (|Resampled(pcm, source, target)| + 1) * source
  {
    if source == target || pcm == [] {
      assert (|pcm| + 1) * source == |pcm| * source + source;
    } else {
      Quotients(|pcm| * target, source);
    }
  }

  /** How far output sample `i` of `n` is past input sample `k` of `len`, on its way to the next. */
  function Past(i: nat, n: nat, len: nat, k: nat): real
    requires n > 1
  {
    (i * (len - 1) - k * (n - 1)) as real / (n - 1) as real
  }

  /**
   What each resampled sample is: spread evenly from the first to the last input sample, it lies on the
   line between the two input samples around it, as far along as it is past the first of them.
   */
  lemma ResampledOnLine(pcm: seq<real>, source: nat, target: nat, i: nat, k: nat)
    requires source > 0 && source != target
    requires var n := |Resampled(pcm, source, target)|;
      i < n && n > 1 && k < |pcm| && k * (n - 1) <= i * (|pcm| - 1) < (k + 1) * (n - 1)
    ensures var r := Resampled(pcm, source, target);
      var w := Past(i, |r|, |pcm|, k);
      && 0.0 <= w < 1.0
      && r[i] == if k == |pcm| - 1 then pcm[k] else (1.0 - w) * pcm[k] + w * pcm[k + 1]
  {
    hide NewLength, Past, Interpolated, Position;
    var n := |Resampled(pcm, source, target)|;
    PositionPast(i, n, |pcm|, k);
    OnLine(pcm, Position(i, n, |pcm|), k, Past(i, n, |pcm|, k));
  }

  lemma PositionPast(i: nat, n: nat, len: nat, k: nat)
    requires i < n && n > 1 && len > 0 && k * (n - 1) <= i * (len - 1) < (k + 1) * (n - 1)
    ensures 0.0 <= Past(i, n, len, k) < 1.0 && Position(i, n, len) == k as real + Past(i, n, len, k)
  {
    var m, l := (n - 1) as real, (len - 1) as real;
    var q, d := i as real / m, (i * (len - 1) - k * (n - 1)) as real;
    OneMore(k, n - 1);
    assert 0.0 <= d < m;
    Fraction(d, m);
    AsReal(i, len - 1);
    AsReal(k, n - 1);
    assert d == (i * (len - 1)) as real - (k * (n - 1)) as real;
    hide *;
    Scaled(i as real, l, m, k as real, d);
  }

  lemma OneMore(k: nat, m: nat)
    ensures (k + 1) * m == k * m + m
  {
  }

  lemma AsReal(a: nat, b: nat)
    ensures (a * b) as real == a as real * b as real
  {
  }

  lemma Fraction(d: real, m: real)
    requires 0.0 <= d < m
    ensures 0.0 <= d / m < 1.0
  {
  }

  lemma Scaled(i: real, l: real, m: real, k: real, d: real)
    requires m > 0.0 && i * l == k * m + d
    ensures i / m * l == k + d / m
  {
    assert i / m * l == (i * l) / m;
    assert (k * m + d) / m == k + d / m;
  }

  lemma OnLine(pcm: seq<real>, x: real, k: nat, w: real)
    requires k < |pcm| && 0.0 <= w < 1.0 && x == k as real + w && 0.0 <= x <= (|pcm| - 1) as real
    ensures Interpolated(pcm, x) == if k == |pcm| - 1 then pcm[k] else (1.0 - w) * pcm[k] + w * pcm[k + 1]
  {
    assert x.Floor == k;
    if k < |pcm| - 1 { LineForms(pcm[k], pcm[k + 1], w); }
  }

  lemma LineForms(a: real, b: real, w: real)
    ensures a + (b - a) * w == (1.0 - w) * a + w * b
  {
  }

  lemma FirstSample(pcm: seq<real>, n: nat)
    requires n > 0 && pcm != []
    ensures Interpolated(pcm, Position(0, n, |pcm|)) == pcm[0]
  {
    assert Position(0, n, |pcm|) == 0.0;
  }

  lemma LastSample(pcm: seq<real>, n: nat)
    requires n > 1 && pcm != []
    ensures Interpolated(pcm, Position(n - 1, n, |pcm|)) == pcm[|pcm| - 1]
  {
    assert (n - 1) as real / (n - 1) as real == 1.0;
    assert Position(n - 1, n, |pcm|) == (|pcm| - 1) as real;
  }

  // ---------- the two channels ----------

  /** One recorded chunk, its audio read back and resampled; either part can be missing. */
  datatype Chunk = Chunk(user: Option<seq<real>>, ai: Option<seq<real>>)

  function Pcm(x: Option<seq<real>>): seq<real> {
    if x.Some? then x.value else []
  }

  /** Every chunk lasts as long as its longer audio, and a second at least. */
  function Length(c: Chunk): (n: nat)
    ensures n >= RATE && n >= |Pcm(c.user)| && n >= |Pcm(c.ai)|
  {
    var m := if |Pcm(c.user)| > |Pcm(c.ai)| then |Pcm(c.user)| else |Pcm(c.ai)|;
    if m > RATE then m else RATE
  }

  /** And no longer than one of the three. */
  lemma LengthIsOne(c: Chunk)
    ensures Length(c) == RATE || Length(c) == |Pcm(c.user)| || Length(c) == |Pcm(c.ai)|
  {
  }

  /** Where chunk `k` starts. */
  function Offset(cs: seq<Chunk>, k: nat): (r: nat)
    requires k <= |cs|
    ensures r >= k * RATE
  {
    if k == 0 then 0 else Offset(cs, k - 1) + Length(cs[k - 1])
  }

  function Channel(c: Chunk, left: bool): seq<real> {
    if left then Pcm(c.user) else Pcm(c.ai)
  }

  function Zeros(n: nat): (r: seq<real>)
    ensures |r| == n
  {
    seq(n, _ => 0.0)
  }

  /** One channel of the first `k` chunks, each padded with silence to its length. */
  function Laid(cs: seq<Chunk>, left: bool, k: nat): (r: seq<real>)
    requires k <= |cs|
    ensures |r| == Offset(cs, k)
  {
    if k == 0 then []
    else
      var xs := Channel(cs[k - 1], left);
      Laid(cs, left, k - 1) + xs + Zeros(Length(cs[k - 1]) - |xs|)
  }

  lemma {:induction false} OffsetsGrow(cs: seq<Chunk>, j: nat, k: nat)
    requires j <= k <= |cs|
    ensures Offset(cs, j) <= Offset(cs, k)
  {
    if j < k {
      OffsetsGrow(cs, j, k - 1);
    }
  }

  lemma LaidLast(cs: seq<Chunk>, left: bool, k: nat, j: nat)
    requires k < |cs| && j < Length(cs[k])
    ensures Laid(cs, left, k + 1)[Offset(cs, k) + j]
            == if j < |Channel(cs[k], left)| then Channel(cs[k], left)[j] else 0.0
  {
    hide Length;
    var before, xs := Laid(cs, left, k), Channel(cs[k], left);
    assert Laid(cs, left, k + 1) == before + (xs + Zeros(Length(cs[k]) - |xs|));
  }

  /** Every chunk is found at its own offset, followed by silence up to the next. */
  lemma {:induction false} LaidAt(cs: seq<Chunk>, left: bool, k: nat, i: nat, j: nat)
    requires i < k <= |cs| && j < Length(cs[i])
    ensures Offset(cs, i) + j < Offset(cs, k)
    ensures Laid(cs, left, k)[Offset(cs, i) + j]
            == if j < |Channel(cs[i], left)| then Channel(cs[i], left)[j] else 0.0
  {
    hide Length, Channel;
    OffsetsGrow(cs, i + 1, k);
    if i < k - 1 {
      LaidAt(cs, left, k - 1, i, j);
    } else {
      LaidLast(cs, left, i, j);
    }
  }

  /** Nothing but silence from `off` on. */
  ghost predicate Silent(a: array<real>, off: nat)
    reads a
  {
    forall j | off <= j < a.Length :: a[j] == 0.0
  }

  /** `left[off:off + len(xs)] = xs`, where the array is still silent. */
  method Put(a: array<real>, off: nat, xs: seq<real>)
    requires off + |xs| <= a.Length && Silent(a, off)
    modifies a
    ensures a[..off] == old(a[..off]) && a[off..off + |xs|] == xs && Silent(a, off + |xs|)
  {
    var i := 0;
    while i < |xs|
      invariant i <= |xs| && a[..off] == old(a[..off]) && a[off..off + i] == xs[..i] && Silent(a, off + i)
    {
      a[off + i] := xs[i];
      i := i + 1;
    }
  }

  /** `right[off:off + len(xs)] += xs`, likewise. */
  method AddTo(a: array<real>, off: nat, xs: seq<real>)
    requires off + |xs| <= a.Length && Silent(a, off)
    modifies a
    ensures a[..off] == old(a[..off]) && a[off..off + |xs|] == xs && Silent(a, off + |xs|)
  {
    var i := 0;
    while i < |xs|
      invariant i <= |xs| && a[..off] == old(a[..off]) && a[off..off + i] == xs[..i] && Silent(a, off + i)
    {
      a[off + i] := a[off + i] + xs[i];
      i := i + 1;
    }
  }

  /** The array holds the first `k` chunks and silence after them. */
  ghost predicate Filled(a: array<real>, cs: seq<Chunk>, left: bool, k: nat)
    requires k <= |cs|
    reads a
  {
    Offset(cs, k) <= a.Length && a[..Offset(cs, k)] == Laid(cs, left, k) && Silent(a, Offset(cs, k))
  }

  lemma Padded(s: seq<real>, off: nat, xs: seq<real>, n: nat)
    requires off + n <= |s| && |xs| <= n && s[off..off + |xs|] == xs
    requires forall j | off + |xs| <= j < off + n :: s[j] == 0.0
    ensures s[..off + n] == s[..off] + xs + Zeros(n - |xs|)
  {
    assert s[..off + n] == s[..off] + s[off..off + |xs|] + s[off + |xs|..off + n];
    assert s[off + |xs|..off + n] == Zeros(n - |xs|);
  }

  /** Start and end of a chunk in seconds. */
  function Interval(cs: seq<Chunk>, k: nat): (real, real)
    requires k < |cs|
  {
    (Offset(cs, k) as real / RATE as real, Offset(cs, k + 1) as real / RATE as real)
  }

  function Intervals(cs: seq<Chunk>, k: nat): (r: seq<(real, real)>)
    requires k <= |cs|
    ensures |r| == k && forall i | 0 <= i < k :: r[i] == Interval(cs, i)
  {
    if k == 0 then [] else Intervals(cs, k - 1) + [Interval(cs, k - 1)]
  }

  method SumLengths(cs: seq<Chunk>) returns (total: nat)
    ensures total == Offset(cs, |cs|)
  {
    hide Length;
    total := 0;
    var k := 0;
    while k < |cs|
      invariant k <= |cs| && total == Offset(cs, k)
    {
      total := total + Length(cs[k]);
      k := k + 1;
    }
  }

  /**
   `_stitch_merged_replay` once the chunks are read: the two channels, and the interval of every chunk.
   */
  method StitchChannels(cs: seq<Chunk>) returns (left: array<real>, right: array<real>, logical: seq<(real, real)>)
    ensures left[..] == Laid(cs, true, |cs|) && right[..] == Laid(cs, false, |cs|)
    ensures logical == Intervals(cs, |cs|)
  {
    hide Length, Laid, Filled;
    var total := SumLengths(cs);
    left := new real[total](_ => 0.0);
    right := new real[total](_ => 0.0);
    logical := [];
    FilledNone(left, cs, true);
    FilledNone(right, cs, false);
    var off, k := 0, 0;
    while k < |cs|
      invariant k <= |cs| && off == Offset(cs, k) && left != right && left.Length == right.Length == Offset(cs, |cs|)
      invariant Filled(left, cs, true, k) && Filled(right, cs, false, k)
      invariant logical == Intervals(cs, k)
      modifies left, right
    {
      OffsetsGrow(cs, k + 1, |cs|);
      LayChunk(cs, k, off, left, true);
      LayChunk(cs, k, off, right, false);
      var n := Length(cs[k]);
      logical := logical + [(off as real / RATE as real, (off + n) as real / RATE as real)];
      off := off + n;
      k := k + 1;
    }
    FilledAll(left, cs, true);
    FilledAll(right, cs, false);
  }

  lemma FilledNone(a: array<real>, cs: seq<Chunk>, left: bool)
    requires Silent(a, 0)
    ensures Filled(a, cs, left, 0)
  {
  }

  lemma FilledAll(a: array<real>, cs: seq<Chunk>, left: bool)
    requires Filled(a, cs, left, |cs|) && a.Length == Offset(cs, |cs|)
    ensures a[..] == Laid(cs, left, |cs|)
  {
    hide Laid, Offset;
    assert a[..] == a[..a.Length];
  }

  /** The audio of chunk `k` goes into one channel. */
  method LayChunk(cs: seq<Chunk>, k: nat, off: nat, a: array<real>, left: bool)
    requires k < |cs| && off == Offset(cs, k) && Offset(cs, k + 1) <= a.Length && Filled(a, cs, left, k)
    modifies a
    ensures Filled(a, cs, left, k + 1)
  {
    hide Length, Laid;
    if left {
      if cs[k].user.Some? { Put(a, off, cs[k].user.value); }
    } else {
      if cs[k].ai.Some? { AddTo(a, off, cs[k].ai.value); }
    }
    FilledMore(a, cs, left, k);
  }

  lemma FilledMore(a: array<real>, cs: seq<Chunk>, left: bool, k: nat)
    requires k < |cs| && Offset(cs, k + 1) <= a.Length
    requires var off, xs := Offset(cs, k), Channel(cs[k], left);
      && |xs| <= Length(cs[k])
      && a[..off] == Laid(cs, left, k) && a[off..off + |xs|] == xs && Silent(a, off + |xs|)
    ensures Filled(a, cs, left, k + 1)
  {
    hide Length, Channel, Laid;
    var off, xs := Offset(cs, k), Channel(cs[k], left);
    assert a[..][..off] == a[..off] && a[..][off..off + |xs|] == a[off..off + |xs|];
    LaidMore(a[..], cs, left, k);
    assert a[..][..off + Length(cs[k])] == a[..off + Length(cs[k])];
  }

  lemma LaidMore(s: seq<real>, cs: seq<Chunk>, left: bool, k: nat)
    requires k < |cs| && Offset(cs, k + 1) <= |s|
    requires var off, xs := Offset(cs, k), Channel(cs[k], left);
      && |xs| <= Length(cs[k])
      && s[..off] == Laid(cs, left, k) && s[off..off + |xs|] == xs && forall j | off + |xs| <= j < |s| :: s[j] == 0.0
    ensures s[..Offset(cs, k + 1)] == Laid(cs, left, k + 1)
  {
    hide Length, Channel;
    Padded(s, Offset(cs, k), Channel(cs[k], left), Length(cs[k]));
  }

  /** Intervals follow each other without a gap, each a second long at least, from 0 to the end. */
  lemma IntervalsTile(cs: seq<Chunk>, k: nat)
    requires k < |cs|
    ensures Interval(cs, k).1 - Interval(cs, k).0 >= 1.0
    ensures k == 0 ==> Interval(cs, k).0 == 0.0
    ensures k + 1 < |cs| ==> Interval(cs, k).1 == Interval(cs, k + 1).0
    ensures k + 1 == |cs| ==> Interval(cs, k).1 == |Laid(cs, true, |cs|)| as real / RATE as real
  {
    var a, n := Offset(cs, k), Length(cs[k]);
    assert Interval(cs, k).1 - Interval(cs, k).0 == n as real / RATE as real;
  }

  // ---------- the recorded files ----------

  /** The bytes of a chunk's two files; none where no path was recorded or nothing is found at it. */
  datatype Recorded = Recorded(user: Option<seq<Byte>>, ai: Option<seq<Byte>>)

  function ReadFile(file: Option<seq<Byte>>): Option<seq<real>> {
    if file.None? then None else ReadWavMono(file.value)
  }

  /** A chunk as it is laid: the user's audio as read, the model's brought to the replay's rate. */
  function ReadChunk(c: Recorded): Chunk {
    var raw := ReadFile(c.ai);
    Chunk(ReadFile(c.user), if raw.None? then None else Some(Resampled(raw.value, AI_RATE, RATE)))
  }

  function ReadAll(rs: seq<Recorded>, k: nat): (cs: seq<Chunk>)
    requires k <= |rs|
    ensures |cs| == k && forall i | 0 <= i < k :: cs[i] == ReadChunk(rs[i])
  {
    if k == 0 then [] else ReadAll(rs, k - 1) + [ReadChunk(rs[k - 1])]
  }

  method ReadChunks(rs: seq<Recorded>) returns (cs: seq<Chunk>)
    ensures cs == ReadAll(rs, |rs|)
  {
    hide Resampled, ReadWavMono;
    cs := [];
    var k := 0;
    while k < |rs|
      invariant k <= |rs| && cs == ReadAll(rs, k)
    {
      var user, ai := None, None;
      if rs[k].user.Some? { user := ReadWavMono(rs[k].user.value); }
      if rs[k].ai.Some? {
        var raw := ReadWavMono(rs[k].ai.value);
        if raw.Some? { ai := Some(Resampled(raw.value, AI_RATE, RATE)); }
      }
      cs := cs + [Chunk(user, ai)];
      k := k + 1;
    }
  }

  lemma UserQuantised(c: Recorded)
    ensures Quantised(Pcm(ReadChunk(c).user))
  {
    hide ReadWavMono, Quantised, Resampled;
    if ReadFile(c.user).Some? {
      ReadQuantised(c.user.value);
    } else {
      RealQuantised([]);
    }
  }

  lemma AiRead(c: Recorded)
    ensures Pcm(ReadChunk(c).ai) == Resampled(Pcm(ReadFile(c.ai)), 24000, 16000)
  {
    hide ReadWavMono;
  }

  lemma QuantisedWithin(xs: seq<real>)
    requires Quantised(xs)
    ensures Within(xs, LOWEST, 1.0)
  {
  }

  /** The model's audio, resampled, is still never clipped. */
  lemma AiWithin(c: Recorded)
    ensures Within(Pcm(ReadChunk(c).ai), LOWEST, 1.0)
  {
    hide ReadWavMono, Quantised, Resampled;
    var raw := ReadFile(c.ai);
    if raw.Some? {
      ReadQuantised(c.ai.value);
      QuantisedWithin(raw.value);
      ResampledWithin(raw.value, AI_RATE, RATE, LOWEST, 1.0);
    }
  }

  // ---------- the replay's file ----------

  lemma {:induction false} LaidQuantised(cs: seq<Chunk>, left: bool, k: nat)
    requires k <= |cs| && forall i | 0 <= i < |cs| :: Quantised(Channel(cs[i], left))
    ensures Quantised(Laid(cs, left, k))
  {
    if k == 0 {
    } else {
      LaidQuantised(cs, left, k - 1);
      SampleStable(0);
    }
  }

  lemma QuantisedStays(xs: seq<real>)
    requires Quantised(xs)
    ensures AllReal(AllPcm(xs)) == xs
  {
  }

  /** The replay's samples: user and model taking turns. */
  function Merged(cs: seq<Chunk>): (r: seq<Pcm16>)
    ensures |r| == 2 * Offset(cs, |cs|)
  {
    Woven(AllPcm(Laid(cs, true, |cs|)), AllPcm(Laid(cs, false, |cs|)))
  }

  type Pcm16 = Wav.Pcm

  lemma MergedAt(cs: seq<Chunk>, i: nat, j: nat)
    requires i < |cs| && j < Length(cs[i])
    ensures var p := Offset(cs, i) + j;
      && p < Offset(cs, |cs|)
      && Merged(cs)[2 * p] == (if j < |Pcm(cs[i].user)| then ToPcm(Pcm(cs[i].user)[j]) else 0)
      && Merged(cs)[2 * p + 1] == (if j < |Pcm(cs[i].ai)| then ToPcm(Pcm(cs[i].ai)[j]) else 0)
  {
    hide Laid, Woven, Length, Offset, ToPcm;
    LaidAt(cs, true, |cs|, i, j);
    LaidAt(cs, false, |cs|, i, j);
    WovenAt(AllPcm(Laid(cs, true, |cs|)), AllPcm(Laid(cs, false, |cs|)), Offset(cs, i) + j);
    SilenceIsZero();
  }

  lemma SilenceIsZero()
    ensures ToPcm(0.0) == 0
  {
  }

  /**
   The replay of recorded files holds each chunk at its offset: on the left exactly the samples read from the
   user's file, on the right those of the model's file resampled, within one step; silence after them.
   */
  lemma ReplayHolds(rs: seq<Recorded>, i: nat, j: nat)
    requires i < |rs| && j < Length(ReadChunk(rs[i]))
    ensures var cs := ReadAll(rs, |rs|);
      var p, user := Offset(cs, i) + j, Pcm(ReadFile(rs[i].user));
      var ai := Resampled(Pcm(ReadFile(rs[i].ai)), 24000, 16000);
      && p < Offset(cs, |cs|)
      && FromPcm(Merged(cs)[2 * p]) == (if j < |user| then user[j] else 0.0)
      && (if j < |ai| then -1.0 / 32767.0 < FromPcm(Merged(cs)[2 * p + 1]) - ai[j] < 1.0 / 32767.0
          else Merged(cs)[2 * p + 1] == 0)
  {
    hide Merged, Length, Offset, Resampled, ReadWavMono, ToPcm;
    var cs := ReadAll(rs, |rs|);
    MergedAt(cs, i, j);
    UserQuantised(rs[i]);
    AiWithin(rs[i]);
    AiRead(rs[i]);
    if j < |Pcm(cs[i].ai)| { SampleError(Pcm(cs[i].ai)[j]); }
  }

  /**
   `_stitch_merged_replay`: no chunks, no file; a size that does not fit its field raises. Read back, the
   replay is the user's channel, sample for sample.
   */
  method StitchMergedReplay(rs: seq<Recorded>)
    returns (file: Option<seq<Byte>>, raised: bool, logical: seq<(real, real)>)
    ensures rs == [] ==> file.None? && !raised
    ensures var cs := ReadAll(rs, |rs|);
      && (raised <==> rs != [] && 36 + 4 * Offset(cs, |cs|) > 0xFFFF_FFFF)
      && logical == Intervals(cs, |cs|)
      && (rs != [] && !raised ==> file == Some(File(2, RATE, Encode(Merged(cs)))))
      && (rs != [] && !raised ==> ReadWavMono(file.value) == Some(Laid(cs, true, |cs|)))
  {
    hide Laid, Packs, ReadWavMono, File, Encode, Woven, Offset;
    if rs == [] { return None, false, []; }
    var cs := ReadChunks(rs);
    var left, right;
    left, right, logical := StitchChannels(cs);
    var bytes;
    bytes, raised := WriteStereoWav(left[..], right[..], RATE);
    file := Some(bytes);
    var l, r := Laid(cs, true, |cs|), Laid(cs, false, |cs|);
    assert l[..|l|] == l && r[..|l|] == r;
    if !raised { ReadsUser(rs); }
  }

  lemma ReadsUser(rs: seq<Recorded>)
    requires var cs := ReadAll(rs, |rs|); Packs(2, RATE, 4 * Offset(cs, |cs|))
    ensures var cs := ReadAll(rs, |rs|);
      ReadWavMono(File(2, RATE, Encode(Merged(cs)))) == Some(Laid(cs, true, |cs|))
  {
    hide Laid, Packs, ReadWavMono, File, Encode, Woven, Offset, Quantised;
    var cs := ReadAll(rs, |rs|);
    var l, r := Laid(cs, true, |cs|), Laid(cs, false, |cs|);
    StereoReadsLeft(AllPcm(l), AllPcm(r), RATE);
    forall i | 0 <= i < |cs| ensures Quantised(Channel(cs[i], true)) { UserQuantised(rs[i]); }
    LaidQuantised(cs, true, |cs|);
    QuantisedStays(l);
  }

  // ---------- the slideshow ----------

  /** Start and duration of a frame. */
  type Frame = (real, real)

  /** A chunk's interval, or one second a frame when there is none. */
  function FrameTime(logical: seq<(real, real)>, i: nat, shown: nat): (real, real) {
    if i < |logical| then logical[i] else (shown as real, (shown + 1) as real)
  }

  function Frames(logical: seq<(real, real)>, present: seq<bool>, n: nat): (r: seq<Frame>)
    requires n <= |present|
  {
    if n == 0 then []
    else
      var fs := Frames(logical, present, n - 1);
      if !present[n - 1] then fs
      else
        var t := FrameTime(logical, n - 1, |fs|);
        fs + [(t.0, t.1 - t.0)]
  }

  /** A frame is shown until the next one starts, the last one as long as its chunk; never under 0.04 s. */
  function Duration(fs: seq<Frame>, i: nat): real
    requires i < |fs|
  {
    var d := if i < |fs| - 1 then fs[i + 1].0 - fs[i].0 else fs[i].1;
    if d < 0.04 then 0.04 else d
  }

  /** The frame times and durations of `_stitch_merged_video`. */
  method Slideshow(logical: seq<(real, real)>, present: seq<bool>) returns (durations: seq<real>)
    ensures var fs := Frames(logical, present, |present|);
      |durations| == |fs| && forall i | 0 <= i < |fs| :: durations[i] == Duration(fs, i)
  {
    var frames: seq<Frame> := [];
    var i := 0;
    while i < |present|
      invariant i <= |present| && frames == Frames(logical, present, i)
    {
      if present[i] {
        var start, end;
        if i < |logical| {
          start, end := logical[i].0, logical[i].1;
        } else {
          start, end := |frames| as real, (|frames| + 1) as real;
        }
        frames := frames + [(start, end - start)];
      }
      i := i + 1;
    }
    durations := [];
    i := 0;
    while i < |frames|
      invariant i <= |frames| == |Frames(logical, present, |present|)| && |durations| == i
      invariant forall j | 0 <= j < i :: durations[j] == Duration(frames, j)
    {
      var dur := frames[i].1;
      if i < |frames| - 1 { dur := frames[i + 1].0 - frames[i].0; }
      durations := durations + [if dur < 0.04 then 0.04 else dur];
      i := i + 1;
    }
  }

  /** Frame `i` of those shown without intervals: the second from `i` on. */
  predicate Plain(fs: seq<Frame>) {
    forall i: nat | i < |fs| :: fs[i].0 == i as real && fs[i].1 == 1.0
  }

  lemma {:induction false} PlainFrames(logical: seq<(real, real)>, present: seq<bool>, n: nat)
    requires logical == [] && n <= |present|
    ensures Plain(Frames(logical, present, n))
  {
    if n == 0 {
    } else {
      PlainFrames(logical, present, n - 1);
      PlainMore(Frames(logical, present, n - 1));
    }
  }

  lemma PlainMore(fs: seq<Frame>)
    requires Plain(fs)
    ensures Plain(fs + [(|fs| as real, (|fs| + 1) as real - |fs| as real)])
  {
  }

  /** Without intervals every frame is shown for a second, and no duration is ever under 0.04 s. */
  lemma PlainSlideshow(present: seq<bool>, fs: seq<Frame>)
    requires fs == Frames([], present, |present|)
    ensures forall i: nat | i < |fs| :: Duration(fs, i) == 1.0
    ensures forall any: seq<Frame>, i: nat | i < |any| :: Duration(any, i) >= 0.04
  {
    PlainFrames([], present, |present|);
    forall i: nat | i < |fs| ensures Duration(fs, i) == 1.0 {
      if i < |fs| - 1 { assert fs[i + 1].0 == (i + 1) as real == i as real + 1.0; }
    }
  }

  /** The chunks with a frame, among the first `n`. */
  function Framed(present: seq<bool>, n: nat): (r: seq<nat>)
    requires n <= |present|
    ensures forall i | 0 <= i < |r| :: r[i] < n && present[r[i]]
    ensures forall i, j | 0 <= i < j < |r| :: r[i] < r[j]
    ensures forall k | 0 <= k < n && present[k] :: k in r
  {
    if n == 0 then [] else if present[n - 1] then Framed(present, n - 1) + [n - 1] else Framed(present, n - 1)
  }

  predicate Timed(cs: seq<Chunk>, logical: seq<(real, real)>) {
    |logical| == |cs| && forall i | 0 <= i < |cs| :: logical[i] == Interval(cs, i)
  }

  lemma {:induction false} FramesAre(cs: seq<Chunk>, logical: seq<(real, real)>, present: seq<bool>, n: nat)
    requires Timed(cs, logical) && n <= |present| == |cs|
    ensures Match(cs, Frames(logical, present, n), Framed(present, n))
  {
    hide FrameOf, Match, Timed;
    if n == 0 {
      assert Match(cs, [], []) by { EmptyMatch(cs); }
    } else {
      FramesAre(cs, logical, present, n - 1);
      if present[n - 1] { MatchMore(cs, logical, Frames(logical, present, n - 1), Framed(present, n - 1), n - 1); }
    }
  }

  lemma EmptyMatch(cs: seq<Chunk>)
    ensures Match(cs, [], [])
  {
  }

  function FrameOf(cs: seq<Chunk>, k: nat): Frame
    requires k < |cs|
  {
    (Interval(cs, k).0, Interval(cs, k).1 - Interval(cs, k).0)
  }

  predicate Match(cs: seq<Chunk>, fs: seq<Frame>, ks: seq<nat>) {
    |fs| == |ks| && forall i | 0 <= i < |ks| :: ks[i] < |cs| && fs[i] == FrameOf(cs, ks[i])
  }

  lemma MatchMore(cs: seq<Chunk>, logical: seq<(real, real)>, fs: seq<Frame>, ks: seq<nat>, k: nat)
    requires Match(cs, fs, ks) && Timed(cs, logical) && k < |cs|
    ensures var t := FrameTime(logical, k, |fs|); Match(cs, fs + [(t.0, t.1 - t.0)], ks + [k])
  {
  }

  /** Chunks apart in the session are a second apart at least in the replay. */
  lemma IntervalsApart(cs: seq<Chunk>, j: nat, k: nat)
    requires j < k < |cs|
    ensures Interval(cs, k).0 - Interval(cs, j).0 >= 1.0
  {
    OffsetsGrow(cs, j + 1, k);
    IntervalsTile(cs, j);
    var a, b := Offset(cs, j + 1), Offset(cs, k);
    assert b as real / RATE as real >= a as real / RATE as real;
  }

  function Sum(xs: seq<real>): real {
    if xs == [] then 0.0 else Sum(xs[..|xs| - 1]) + xs[|xs| - 1]
  }

  lemma {:induction false} SumTelescopes(fs: seq<Frame>, ds: seq<real>, n: nat)
    requires n < |fs| == |ds| && forall i | 0 <= i < |fs| - 1 :: ds[i] == fs[i + 1].0 - fs[i].0
    ensures Sum(ds[..n]) == fs[n].0 - fs[0].0
  {
    if n == 0 {
    } else {
      SumTelescopes(fs, ds, n - 1);
      assert ds[..n][..n - 1] == ds[..n - 1];
    }
  }

  /**
   Over the intervals of the stitched replay the floor is never used, and the frames together last from
   the start of the first framed chunk to the end of the last.
   */
  lemma SlideshowTiles(cs: seq<Chunk>, logical: seq<(real, real)>, present: seq<bool>, ds: seq<real>)
    requires Timed(cs, logical) && |present| == |cs| && Framed(present, |cs|) != []
    requires var fs := Frames(logical, present, |present|);
      |ds| == |fs| && forall i | 0 <= i < |fs| :: ds[i] == Duration(fs, i)
    ensures var ks := Framed(present, |cs|);
      && |ds| == |ks|
      && (forall i | 0 <= i < |ks| :: ds[i] >= 1.0 && ds[i] ==
            (if i < |ks| - 1 then Interval(cs, ks[i + 1]).0 else Interval(cs, ks[i]).1) - Interval(cs, ks[i]).0)
      && Sum(ds) == Interval(cs, ks[|ks| - 1]).1 - Interval(cs, ks[0]).0
  {
    hide Interval, Framed, Frames;
    FramesAre(cs, logical, present, |cs|);
    var fs, ks := Frames(logical, present, |cs|), Framed(present, |cs|);
    forall i | 0 <= i < |ks|
      ensures ds[i] >= 1.0 && ds[i] == (if i < |ks| - 1 then fs[i + 1].0 - fs[i].0 else fs[i].1)
    {
      IntervalsTile(cs, ks[i]);
      if i < |ks| - 1 { IntervalsApart(cs, ks[i], ks[i + 1]); }
    }
    var n := |ks| - 1;
    SumTelescopes(fs, ds, n);
    assert ds[..|ds| - 1] == ds[..n];
  }
}
