/** Which frames of a video are looked at: about one a second, thinned out evenly to a maximum. */
module FrameSampler {
  import opened Arithmetic
  import opened Wrappers

  datatype Error = ZeroDivision | IndexError

  /** Python's `round`: to the nearest integer, halves to the even one. */
  function Round(x: real): int {
    var n := x.Floor;
    var rest := x - n as real;
    if rest < 0.5 then n
    else if rest > 0.5 then n + 1
    else if n % 2 == 0 then n else n + 1
  }

  lemma RoundNearest(x: real)
    ensures -0.5 <= x - Round(x) as real <= 0.5
    ensures (x - Round(x) as real == 0.5 || x - Round(x) as real == -0.5) ==> Round(x) % 2 == 0
  {
  }

  function Step(fps: real): (n: nat)
    ensures n >= 1 && (fps <= 0.5 ==> n == 1) && (fps > 0.5 ==> -0.5 <= fps - n as real <= 0.5)
    ensures fps > 0.5 && (fps - n as real == 0.5 || fps - n as real == -0.5) ==> n % 2 == 0
  {
    if Round(fps) < 1 then 1 else Round(fps)
  }

  /** How many multiples of the step, from 0, are below the total. */
  function Ceil(total: int, step: nat): (n: nat)
    requires step > 0
    ensures if total <= 0 then n == 0 else (n - 1) * step < total <= n * step
  {
    if total <= 0 then 0 else Quotient(total + step - 1, step)
  }

  /** `range(0, total, step)` */
  function Range(total: int, step: nat): (r: seq<nat>)
    requires step > 0
    ensures |r| == Ceil(total, step) && forall k | 0 <= k < |r| :: r[k] == k * step
  {
    seq(Ceil(total, step), k requires 0 <= k < Ceil(total, step) => k * step)
  }

  /** The middle of part `i` of `n` equal parts of `0 .. len`. */
  function Middle(i: nat, len: nat, n: nat): (m: nat)
    requires n > 0
    ensures m * (2 * n) <= (2 * i + 1) * len < (m + 1) * (2 * n)
  {
    Quotient((2 * i + 1) * len, 2 * n)
  }

  lemma MiddleInside(i: nat, len: nat, n: nat)
    requires i < n && len > 0
    ensures Middle(i, len, n) < len
  {
    hide Quotient;
    MulMono(2 * i + 1, 2 * n - 1, len);
    assert (2 * n - 1) * len == len * (2 * n) - len;
    MulMono(len, Middle(i, len, n), 2 * n);
  }

  /** `_uniform_sample` */
  function UniformSample(s: seq<nat>, n: int): Result<seq<nat>, Error> {
    if n == 0 then Failure(ZeroDivision)
    else if n < 0 then Success([])
    else if s == [] then Failure(IndexError)
    else Success(seq(n, i requires 0 <= i < n => MiddleInside(i, |s|, n); s[Middle(i, |s|, n)]))
  }

  /** `_sample_frame_indices` */
  function SampleFrames(total: int, fps: real, max: int): Result<seq<nat>, Error> {
    var all := Range(total, Step(fps));
    if |all| > max then UniformSample(all, max) else Success(all)
  }

  /** Between neighbours lie the quotient of lengths, rounded down or up. */
  lemma MiddleStep(i: nat, len: nat, n: nat)
    requires n > 0
    ensures Quotient(len, n) <= Middle(i + 1, len, n) - Middle(i, len, n) <= Quotient(len, n) + 1
  {
    hide Quotient;
    HalfQuotient(len, n);
    NextMiddle(i, len);
    SumQuotient((2 * i + 1) * len, 2 * len, 2 * n);
  }

  lemma NextMiddle(i: nat, len: nat)
    ensures (2 * (i + 1) + 1) * len == (2 * i + 1) * len + 2 * len
  {
    AddMul(2 * i + 1, 2, len);
  }

  lemma HalfQuotient(len: nat, n: nat)
    requires n > 0
    ensures Quotient(2 * len, 2 * n) == Quotient(len, n)
  {
    hide Quotient;
    var q := Quotient(len, n);
    assert q * (2 * n) == 2 * (q * n);
    QuotientUnique(2 * len, q, 2 * n);
  }

  lemma QuotientAtLeastOne(len: nat, n: nat)
    requires 0 < n <= len
    ensures Quotient(len, n) >= 1
  {
    hide Quotient;
    ZeroMul(n, Quotient(len, n));
  }

  lemma RangeInside(total: int, step: nat, k: nat)
    requires step > 0 && k < Ceil(total, step)
    ensures k * step < total
  {
    hide Quotient;
    MulStep(k, Ceil(total, step), step);
  }

  /** Multiples of the step, strictly increasing, below the total. */
  predicate Sampled(r: seq<nat>, total: int, step: nat) {
    && (forall i | 0 <= i < |r| :: r[i] < total && step > 0 && r[i] % step == 0)
    && (forall i | 0 <= i < |r| - 1 :: r[i] < r[i + 1])
  }

  /**
   Sampling fails exactly when there are frames and none may be taken. Otherwise it takes as many
   frames as there are multiples of the step, or the maximum if that is fewer and not negative.
   */
  lemma SampleCounts(total: int, fps: real, max: int)
    ensures var r := SampleFrames(total, fps, max);
      && (r.Failure? <==> total > 0 && max == 0)
      && (r.Success? && total > 0 ==>
            |r.value| == if max < 0 then 0 else if max < Ceil(total, Step(fps)) then max else Ceil(total, Step(fps)))
      && (r.Success? && total <= 0 ==> r.value == [])
  {
    if total > 0 { CeilPositive(total, Step(fps)); }
  }

  lemma CeilPositive(total: int, step: nat)
    requires total > 0 && step > 0
    ensures Ceil(total, step) > 0
  {
    QuotientAtLeastOne(total + step - 1, step);
  }

  /** What is sampled are increasing multiples of the step, each the one that holds the middle of its part. */
  lemma SampleIsSpread(total: int, fps: real, max: int)
    requires SampleFrames(total, fps, max).Success?
    ensures var r, step := SampleFrames(total, fps, max).value, Step(fps);
      var len := Ceil(total, step);
      && Sampled(r, total, step)
      && (0 < max < len ==> forall i | 0 <= i < |r| :: Middle(i, len, max) < len && r[i] == Middle(i, len, max) * step)
      && (0 < max < len ==> forall i | 0 <= i < |r| - 1 ::
            Quotient(len, max) * step <= r[i + 1] - r[i] <= (Quotient(len, max) + 1) * step)
      && (max >= len ==> forall i | 0 <= i < |r| :: r[i] == i * step)
  {
    var r, step := SampleFrames(total, fps, max).value, Step(fps);
    var len := Ceil(total, step);
    if 0 < max < len {
      forall i | 0 <= i < |r|
        ensures Middle(i, len, max) < len && r[i] == Middle(i, len, max) * step && r[i] < total && r[i] % step == 0
      {
        MiddleInside(i, len, max);
        RangeInside(total, step, Middle(i, len, max));
        DivUnique(r[i], Middle(i, len, max), step, 0);
      }
      forall i | 0 <= i < |r| - 1
        ensures r[i] < r[i + 1] && Quotient(len, max) * step <= r[i + 1] - r[i] <= (Quotient(len, max) + 1) * step
      {
        MiddleStep(i, len, max);
        QuotientAtLeastOne(len, max);
        Spread(Middle(i, len, max), Middle(i + 1, len, max), Quotient(len, max), step);
      }
    } else {
      forall i | 0 <= i < |r| ensures r[i] == i * step && r[i] < total && r[i] % step == 0 {
        RangeInside(total, step, i);
        DivUnique(r[i], i, step, 0);
      }
      forall i | 0 <= i < |r| - 1 ensures r[i] < r[i + 1] { MulStep(i, i + 1, step); }
    }
  }

  lemma Spread(a: nat, b: nat, q: nat, step: nat)
    requires step > 0 && q >= 1 && q <= b - a <= q + 1
    ensures a * step < b * step && q * step <= b * step - a * step <= (q + 1) * step
  {
    MulMono(q, b - a, step);
    MulMono(b - a, q + 1, step);
    MulMono(1, q, step);
    assert (b - a) * step == b * step - a * step;
  }
}
