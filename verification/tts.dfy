/**
 Speech-token generation of the TTS model: one chunk against a key/value cache, and the interleaved
 generation of many chunks under the three attention types.
 */
module Tts {
  import opened Arithmetic
  import opened Sequences

  type Token = nat

  /** One cached position: an embedding of the condition, or of a generated audio token. */
  datatype Embed = Text(id: nat) | Code(token: Token)

  function Codes(ts: seq<Token>): (r: seq<Embed>)
    ensures |r| == |ts|
  {
    seq(|ts|, i requires 0 <= i < |ts| => Code(ts[i]))
  }

  /** Consecutive position ids. */
  function From(start: nat, n: nat): (r: seq<nat>)
    ensures |r| == n
  {
    seq(n, i requires 0 <= i < n => start + i)
  }

  lemma FromSplit(start: nat, n: nat, m: nat)
    ensures From(start, n + m) == From(start, n) + From(start + n, m)
  {
  }

  /** Number of tokens a chunk returns: the last token sampled, end token or not, is never among them. */
  predicate StopsAt(draw: nat -> Token, eos: Token, maxNew: nat, n: nat) {
    n < maxNew && (n == maxNew - 1 || draw(n) == eos) && forall i: nat | i < n :: draw(i) != eos
  }

  lemma StopUnique(draw: nat -> Token, eos: Token, maxNew: nat, n: nat, m: nat)
    requires StopsAt(draw, eos, maxNew, n) && StopsAt(draw, eos, maxNew, m)
    ensures n == m
  {
  }

  /**
   `generate_chunk`. `draw(t)` is the token sampled at step t; below `minNew` the end token is masked,
   so it is not drawn there. Returns the tokens, the extended cache and the position ids used.
   */
  method GenerateChunk(inputs: seq<Embed>, maxNew: nat, minNew: nat, past: seq<Embed>, eos: Token,
                       textStartPos: nat, draw: nat -> Token)
    returns (tokens: seq<Token>, kv: seq<Embed>, positions: seq<nat>)
    requires maxNew > 0 && forall t: nat | t < minNew :: draw(t) != eos
    ensures StopsAt(draw, eos, maxNew, |tokens|) && tokens == Drawn(draw, |tokens|)
    ensures minNew >= maxNew ==> |tokens| == maxNew - 1
    ensures kv == past + inputs + Codes(tokens)
    ensures positions == From(textStartPos, |inputs| + |tokens|)
  {
    var newTokens := new Token[maxNew];
    kv, positions := past, [];
    var finish := false;
    var t := 0;
    while true
      invariant t < maxNew && !finish
      invariant forall i | 0 <= i < t :: newTokens[i] == draw(i) && draw(i) != eos
      invariant t == 0 ==> kv == past && positions == []
      invariant t > 0 ==> kv == past + inputs + Codes(Drawn(draw, t - 1))
      invariant t > 0 ==> positions == From(textStartPos, |inputs| + t - 1)
      decreases maxNew - t
    {
      if t == 0 {
        kv := kv + inputs;
        positions := positions + From(textStartPos, |inputs|);
        assert kv == past + inputs + Codes(Drawn(draw, 0));
      } else {
        kv := kv + [Code(newTokens[t - 1])];
        assert Codes(Drawn(draw, t)) == Codes(Drawn(draw, t - 1)) + [Code(draw(t - 1))];
        positions := positions + [textStartPos + |inputs| + t - 1];
        FromSplit(textStartPos, |inputs| + t - 1, 1);
        assert From(textStartPos + |inputs| + t - 1, 1) == [textStartPos + |inputs| + t - 1];
      }
      var next := draw(t);
      finish := next == eos;
      newTokens[t] := next;
      if finish || t == maxNew - 1 { break; }
      t := t + 1;
    }
    tokens := newTokens[..t];
    assert tokens == Drawn(draw, t);
  }

  // ---------- interleaved generation ----------

  datatype Attention = FullAttention | SlidingWindow | SlidingRecompute(window: nat, recomputed: nat)

  /** Chunks lo .. hi (exclusive) of the interleaving C0 T0 C1 T1 ... */
  function Interleave(conds: seq<seq<Embed>>, tokens: seq<seq<Token>>, lo: nat, hi: nat): seq<Embed>
    requires lo <= hi <= |conds| && hi <= |tokens|
    decreases hi
  {
    if lo == hi then [] else Interleave(conds, tokens, lo, hi - 1) + conds[hi - 1] + Codes(tokens[hi - 1])
  }

  /** How many chunks the cache holds after chunk `i`. */
  function Held(i: nat, w: nat, c: nat): nat
    requires c < w
  {
    if i < w then i + 1 else c + 1 + (i - c) % (w - c)
  }

  lemma ModStep(x: nat, m: nat)
    requires m > 0 && x > 0 && x % m != 0
    ensures x % m == (x - 1) % m + 1
  {
    DivUnique(x - 1, x / m, m, x % m - 1);
  }

  /** The cache never holds more chunks than the window, and grows by one or falls back to the recomputed ones. */
  lemma HeldStep(i: nat, w: nat, c: nat)
    requires c < w
    ensures 0 < Held(i, w, c) <= w && Held(i, w, c) <= i + 1
    ensures i >= w && (i - c) % (w - c) == 0 ==> Held(i, w, c) == c + 1 <= i
    ensures i > 0 && !(i >= w && (i - c) % (w - c) == 0) ==> Held(i, w, c) == Held(i - 1, w, c) + 1
  {
    if i >= w {
      if i == w { DivUnique(w - c, 1, w - c, 0); }
      if (i - c) % (w - c) != 0 { ModStep(i - c, w - c); }
      ModSmall(i - c, w - c);
    }
  }

  lemma ModSmall(x: nat, m: nat)
    requires m > 0
    ensures x % m <= x
  {
    DivBound(x, x + 1, m) by { MulMono(1, m, x + 1); }
    MulMono(0, x / m, m);
  }

  lemma {:induction false} InterleaveSplit(conds: seq<seq<Embed>>, tokens: seq<seq<Token>>, lo: nat, mid: nat, hi: nat)
    requires lo <= mid <= hi <= |conds| && hi <= |tokens|
    ensures Interleave(conds, tokens, lo, hi) == Interleave(conds, tokens, lo, mid) + Interleave(conds, tokens, mid, hi)
    decreases hi
  {
    if mid == hi {
    } else {
      InterleaveSplit(conds, tokens, lo, mid, hi - 1);
      var a, b := Interleave(conds, tokens, lo, mid), Interleave(conds, tokens, mid, hi - 1);
      assert (a + b) + conds[hi - 1] + Codes(tokens[hi - 1]) == a + (b + conds[hi - 1] + Codes(tokens[hi - 1]));
    }
  }

  /** Chunks generated later do not change the interleaving of earlier ones. */
  lemma {:induction false} InterleaveExtend(conds: seq<seq<Embed>>, tokens: seq<seq<Token>>, t: seq<Token>,
                                            lo: nat, hi: nat)
    requires lo <= hi <= |conds| && hi <= |tokens|
    ensures Interleave(conds, tokens + [t], lo, hi) == Interleave(conds, tokens, lo, hi)
    decreases hi
  {
    if lo == hi {
    } else {
      InterleaveExtend(conds, tokens, t, lo, hi - 1);
    }
  }

  /** The condition prefilled when the window is recomputed. */
  method RecomputeCondition(conds: seq<seq<Embed>>, tokens: seq<seq<Token>>, idx: nat, c: nat)
    returns (condition: seq<Embed>)
    requires c <= idx < |conds| && |tokens| == idx
    ensures condition == Interleave(conds, tokens, idx - c, idx) + conds[idx]
  {
    var parts: seq<Embed> := [];
    var i := 0;
    while i < c
      invariant i <= c && parts == Interleave(conds, tokens, idx - c, idx - c + i)
    {
      parts := parts + conds[idx - c + i];
      parts := parts + Codes(tokens[|tokens| - c + i]);
      i := i + 1;
    }
    condition := parts + conds[idx];
  }

  /** What the cache and the next position are expected to be after chunk `i`. */
  ghost predicate CacheAfter(mode: Attention, conds: seq<seq<Embed>>, tokens: seq<seq<Token>>, i: nat,
                             cache: seq<Embed>, pos: nat)
    requires i < |conds| && i < |tokens| && (mode.SlidingRecompute? ==> mode.recomputed < mode.window)
  {
    match mode
    case FullAttention => cache == Interleave(conds, tokens, 0, i + 1) && pos == |cache|
    case SlidingWindow => cache == Interleave(conds, tokens, i, i + 1) && pos == |Interleave(conds, tokens, 0, i + 1)|
    case SlidingRecompute(w, c) =>
      HeldStep(i, w, c);
      cache == Interleave(conds, tokens, i + 1 - Held(i, w, c), i + 1) && pos == |cache|
  }

  lemma CacheAfterExtend(mode: Attention, conds: seq<seq<Embed>>, tokens: seq<seq<Token>>, t: seq<Token>,
                         i: nat, cache: seq<Embed>, pos: nat)
    requires i < |conds| && i < |tokens| && (mode.SlidingRecompute? ==> mode.recomputed < mode.window)
    requires CacheAfter(mode, conds, tokens, i, cache, pos)
    ensures CacheAfter(mode, conds, tokens + [t], i, cache, pos)
  {
    InterleaveExtend(conds, tokens, t, 0, i + 1);
    InterleaveExtend(conds, tokens, t, i, i + 1);
    if mode.SlidingRecompute? {
      HeldStep(i, mode.window, mode.recomputed);
      InterleaveExtend(conds, tokens, t, i + 1 - Held(i, mode.window, mode.recomputed), i + 1);
    }
  }

  /** The cache grows by one chunk that continues where it ended. */
  lemma Continue(mode: Attention, conds: seq<seq<Embed>>, tokens: seq<seq<Token>>, i: nat, cache: seq<Embed>, pos: nat)
    requires 0 < i < |conds| && i < |tokens| && (mode.SlidingRecompute? ==> mode.recomputed < mode.window)
    requires CacheAfter(mode, conds, tokens, i - 1, cache, pos)
    ensures var kv := cache + conds[i] + Codes(tokens[i]);
      match mode
      case FullAttention => CacheAfter(mode, conds, tokens, i, kv, pos + |conds[i]| + |tokens[i]|)
      case SlidingWindow => CacheAfter(mode, conds, tokens, i, kv[|cache|..], pos + |conds[i]| + |tokens[i]|)
      case SlidingRecompute(w, c) =>
        !(i >= w && (i - c) % (w - c) == 0) ==> CacheAfter(mode, conds, tokens, i, kv, pos + |conds[i]| + |tokens[i]|)
  {
    match mode {
      case FullAttention =>
      case SlidingWindow => assert Interleave(conds, tokens, i, i) == [];
      case SlidingRecompute(w, c) =>
        HeldStep(i, w, c);
        HeldStep(i - 1, w, c);
    }
  }

  /** The chunks at which the window is recomputed. */
  predicate Recomputes(mode: Attention, idx: nat)
    requires mode.SlidingRecompute? ==> mode.recomputed < mode.window
  {
    match mode
    case SlidingRecompute(w, c) => idx >= w && (idx - c) % (w - c) == 0
    case _ => false
  }

  /** The state between chunks: nothing yet, or the cache and position left by the last one. */
  ghost predicate Between(mode: Attention, conds: seq<seq<Embed>>, tokens: seq<seq<Token>>, idx: nat,
                          past: seq<Embed>, pos: nat)
    requires idx <= |conds| && idx == |tokens| && (mode.SlidingRecompute? ==> mode.recomputed < mode.window)
  {
    if idx == 0 then past == [] && pos == 0 else CacheAfter(mode, conds, tokens, idx - 1, past, pos)
  }

  /** What a chunk leaves in the cache: a sliding window forgets everything before the chunk. */
  function Remaining(mode: Attention, idx: nat, past: seq<Embed>, condition: seq<Embed>, codes: seq<Embed>)
    : seq<Embed>
  {
    if mode.SlidingWindow? && idx >= 1 then (past + condition + codes)[|past|..] else past + condition + codes
  }

  lemma RemainingIs(mode: Attention, idx: nat, past: seq<Embed>, condition: seq<Embed>, codes: seq<Embed>)
    requires idx == 0 ==> past == []
    ensures var kv := past + condition + codes;
      Remaining(mode, idx, past, condition, codes) == if mode.SlidingWindow? && idx >= 1 then kv[|past|..] else kv
    ensures mode.SlidingWindow? ==> |Remaining(mode, idx, past, condition, codes)| == |condition| + |codes|
  {
  }

  /** The caches left by earlier chunks are still the promised ones. */
  lemma EarlierStay(mode: Attention, conds: seq<seq<Embed>>, tokens: seq<seq<Token>>, t: seq<Token>,
                    caches: seq<seq<Embed>>, starts: seq<nat>)
    requires |tokens| == |caches| == |starts| <= |conds| && (mode.SlidingRecompute? ==> mode.recomputed < mode.window)
    requires forall i | 0 <= i < |tokens| :: CacheAfter(mode, conds, tokens, i, caches[i], starts[i])
    ensures forall i | 0 <= i < |tokens| :: CacheAfter(mode, conds, tokens + [t], i, caches[i], starts[i])
  {
    hide CacheAfter;
    forall i | 0 <= i < |tokens| ensures CacheAfter(mode, conds, tokens + [t], i, caches[i], starts[i]) {
      CacheAfterExtend(mode, conds, tokens, t, i, caches[i], starts[i]);
    }
  }

  lemma RecomputedCache(w: nat, c: nat, conds: seq<seq<Embed>>, tokens: seq<seq<Token>>, t: seq<Token>, idx: nat)
    requires idx < |conds| && idx == |tokens| && c < w && idx >= w && (idx - c) % (w - c) == 0
    ensures var kv := Interleave(conds, tokens, idx - c, idx) + conds[idx] + Codes(t);
      CacheAfter(SlidingRecompute(w, c), conds, tokens + [t], idx, kv, |kv|)
  {
    HeldStep(idx, w, c);
    InterleaveExtend(conds, tokens, t, idx - c, idx);
  }

  lemma NothingBefore(mode: Attention, idx: nat, past: seq<Embed>, condition: seq<Embed>, codes: seq<Embed>)
    requires past == []
    ensures Remaining(mode, idx, past, condition, codes) == condition + codes
  {
    assert past + condition == condition;
  }

  lemma AfterRecompute(mode: Attention, conds: seq<seq<Embed>>, tokens: seq<seq<Token>>, t: seq<Token>, idx: nat,
                       past: seq<Embed>, pos: nat, condition: seq<Embed>)
    requires idx < |conds| && idx == |tokens| && (mode.SlidingRecompute? ==> mode.recomputed < mode.window)
    requires Recomputes(mode, idx) && past == [] && pos == 0 && mode.recomputed <= idx
    requires condition == Interleave(conds, tokens, idx - mode.recomputed, idx) + conds[idx]
    ensures CacheAfter(mode, conds, tokens + [t], idx, Remaining(mode, idx, past, condition, Codes(t)),
                       pos + |condition| + |t|)
  {
    hide Interleave, CacheAfter, Codes, Remaining;
    RecomputedCache(mode.window, mode.recomputed, conds, tokens, t, idx);
    NothingBefore(mode, idx, past, condition, Codes(t));
  }

  lemma FirstCache(mode: Attention, conds: seq<seq<Embed>>, t: seq<Token>)
    requires conds != [] && (mode.SlidingRecompute? ==> mode.recomputed < mode.window)
    ensures var kv := conds[0] + Codes(t); CacheAfter(mode, conds, [t], 0, kv, |kv|)
  {
    assert Interleave(conds, [t], 0, 0) == [];
    assert Interleave(conds, [t], 0, 1) == [] + conds[0] + Codes(t);
    if mode.SlidingRecompute? { HeldStep(0, mode.window, mode.recomputed); }
  }

  lemma AfterFirst(mode: Attention, conds: seq<seq<Embed>>, tokens: seq<seq<Token>>, t: seq<Token>,
                   past: seq<Embed>, pos: nat)
    requires conds != [] && tokens == [] && (mode.SlidingRecompute? ==> mode.recomputed < mode.window)
    requires past == [] && pos == 0
    ensures CacheAfter(mode, conds, tokens + [t], 0, Remaining(mode, 0, past, conds[0], Codes(t)),
                       pos + |conds[0]| + |t|)
  {
    hide Interleave, CacheAfter, Codes, Remaining;
    FirstCache(mode, conds, t);
    NothingBefore(mode, 0, past, conds[0], Codes(t));
    assert tokens + [t] == [t];
  }

  lemma AfterLater(mode: Attention, conds: seq<seq<Embed>>, tokens: seq<seq<Token>>, t: seq<Token>, idx: nat,
                   past: seq<Embed>, pos: nat)
    requires 0 < idx < |conds| && idx == |tokens| && (mode.SlidingRecompute? ==> mode.recomputed < mode.window)
    requires !Recomputes(mode, idx) && CacheAfter(mode, conds, tokens, idx - 1, past, pos)
    ensures CacheAfter(mode, conds, tokens + [t], idx, Remaining(mode, idx, past, conds[idx], Codes(t)),
                       pos + |conds[idx]| + |t|)
  {
    hide Interleave, CacheAfter, Codes;
    CacheAfterExtend(mode, conds, tokens, t, idx - 1, past, pos);
    Continue(mode, conds, tokens + [t], idx, past, pos);
  }

  /** One chunk takes the cache from what it should be before to what it should be after. */
  lemma AfterChunk(mode: Attention, conds: seq<seq<Embed>>, tokens: seq<seq<Token>>, t: seq<Token>, idx: nat,
                   past: seq<Embed>, pos: nat, condition: seq<Embed>)
    requires idx < |conds| && idx == |tokens| && (mode.SlidingRecompute? ==> mode.recomputed < mode.window)
    requires if Recomputes(mode, idx)
             then past == [] && pos == 0 && mode.recomputed <= idx
                  && condition == Interleave(conds, tokens, idx - mode.recomputed, idx) + conds[idx]
             else condition == conds[idx] && Between(mode, conds, tokens, idx, past, pos)
    ensures CacheAfter(mode, conds, tokens + [t], idx, Remaining(mode, idx, past, condition, Codes(t)),
                       pos + |condition| + |t|)
  {
    hide Interleave, CacheAfter, Codes, Remaining;
    if Recomputes(mode, idx) {
      AfterRecompute(mode, conds, tokens, t, idx, past, pos, condition);
    } else if idx == 0 {
      AfterFirst(mode, conds, tokens, t, past, pos);
    } else {
      AfterLater(mode, conds, tokens, t, idx, past, pos);
    }
  }

  /** Position ids that end right before `end`. */
  predicate EndsAt(ids: seq<nat>, end: nat) {
    |ids| <= end && ids == From(end - |ids|, |ids|)
  }

  /** One turn of the loop of `interleaved_generate`, for chunk `idx`. */
  method NextChunk(conds: seq<seq<Embed>>, generated: seq<seq<Token>>, mode: Attention, eos: Token, draw: nat -> Token,
                   before: seq<Embed>, start: nat, lastWindowSize: nat)
    returns (newTokens: seq<Token>, past: seq<Embed>, textStartPos: nat, positions: seq<nat>)
    requires |generated| < |conds| && (mode.SlidingRecompute? ==> mode.recomputed < mode.window)
    requires Between(mode, conds, generated, |generated|, before, start) && (generated == [] ==> before == [])
    requires mode.SlidingWindow? && generated != [] ==> lastWindowSize == |before|
    ensures StopsAt(draw, eos, MAX_CHUNK_TOKENS, |newTokens|) && newTokens == Drawn(draw, |newTokens|)
    ensures CacheAfter(mode, conds, generated + [newTokens], |generated|, past, textStartPos)
    ensures EndsAt(positions, textStartPos)
    ensures mode.SlidingWindow? ==> |past| == |conds[|generated|]| + |newTokens|
  {
    hide Interleave, CacheAfter, StopsAt, Drawn, From, Recomputes, Codes, Between, Remaining;
    var idx := |generated|;
    var condition := conds[idx];
    past, textStartPos := before, start;
    if Recomputes(mode, idx) {
      RecomputesFits(mode, idx);
      condition := RecomputeCondition(conds, generated, idx, mode.recomputed);
      textStartPos := 0;
      past := [];
    }
    var oldKv;
    newTokens, oldKv, positions := GenerateChunk(condition, MAX_CHUNK_TOKENS, 0, past, eos, textStartPos, draw);
    AfterChunk(mode, conds, generated, newTokens, idx, past, textStartPos, condition);
    RemainingIs(mode, idx, past, condition, Codes(newTokens));
    if mode.SlidingWindow? && idx >= 1 {
      past := oldKv[lastWindowSize..];
    } else {
      past := oldKv;
    }
    textStartPos := textStartPos + |condition| + |newTokens|;
  }

  /**
   `interleaved_generate`: the tokens of every chunk, the cache left after every chunk, the position
   where the next one starts, and the position ids used. `draws(i)` is what is sampled for chunk i.
   */
  method InterleavedGenerate(conds: seq<seq<Embed>>, mode: Attention, eos: Token, draws: nat -> nat -> Token)
    returns (generated: seq<seq<Token>>, caches: seq<seq<Embed>>, starts: seq<nat>, used: seq<seq<nat>>)
    requires conds != [] && (mode.SlidingRecompute? ==> mode.recomputed < mode.window)
    ensures |generated| == |caches| == |starts| == |used| == |conds|
    ensures forall i | 0 <= i < |conds| :: CacheAfter(mode, conds, generated, i, caches[i], starts[i])
    ensures forall i | 0 <= i < |conds| ::
      StopsAt(draws(i), eos, MAX_CHUNK_TOKENS, |generated[i]|) && generated[i] == Drawn(draws(i), |generated[i]|)
    ensures forall i | 0 <= i < |conds| :: EndsAt(used[i], starts[i])
  {
    hide Interleave, CacheAfter, StopsAt, Drawn, From, Between, EndsAt;
    generated, caches, starts, used := [], [], [], [];
    var textStartPos: nat := 0;
    var lastWindowSize: nat := 0;
    var past: seq<Embed> := [];
    var idx := 0;
    StartBetween(mode, conds);
    while idx < |conds|
      invariant idx <= |conds| && |generated| == |caches| == |starts| == |used| == idx
      invariant forall i | 0 <= i < idx :: CacheAfter(mode, conds, generated, i, caches[i], starts[i])
      invariant forall i | 0 <= i < idx ::
        StopsAt(draws(i), eos, MAX_CHUNK_TOKENS, |generated[i]|) && generated[i] == Drawn(draws(i), |generated[i]|)
      invariant forall i | 0 <= i < idx :: EndsAt(used[i], starts[i])
      invariant Between(mode, conds, generated, idx, past, textStartPos)
      invariant idx == 0 ==> past == []
      invariant mode.SlidingWindow? && idx > 0 ==> lastWindowSize == |past|
    {
      var newTokens, positions;
      newTokens, past, textStartPos, positions :=
        NextChunk(conds, generated, mode, eos, draws(idx), past, textStartPos, lastWindowSize);
      lastWindowSize := |conds[idx]| + |newTokens|;
      EarlierStay(mode, conds, generated, newTokens, caches, starts);
      generated := generated + [newTokens];
      NextBetween(mode, conds, generated, idx, past, textStartPos);
      caches, starts, used := caches + [past], starts + [textStartPos], used + [positions];
      idx := idx + 1;
    }
  }

  lemma StartBetween(mode: Attention, conds: seq<seq<Embed>>)
    requires mode.SlidingRecompute? ==> mode.recomputed < mode.window
    ensures Between(mode, conds, [], 0, [], 0)
  {
  }

  lemma NextBetween(mode: Attention, conds: seq<seq<Embed>>, tokens: seq<seq<Token>>, idx: nat,
                    past: seq<Embed>, pos: nat)
    requires idx < |conds| && |tokens| == idx + 1 && (mode.SlidingRecompute? ==> mode.recomputed < mode.window)
    requires CacheAfter(mode, conds, tokens, idx, past, pos)
    ensures Between(mode, conds, tokens, idx + 1, past, pos)
  {
  }

  lemma RecomputesFits(mode: Attention, idx: nat)
    requires mode.SlidingRecompute? ==> mode.recomputed < mode.window
    requires Recomputes(mode, idx)
    ensures mode.SlidingRecompute? && mode.recomputed <= idx
  {
  }

  const MAX_CHUNK_TOKENS: nat := 500

  /**
   The recompute window, read off the contract: before the window fills the cache is the whole
   interleaving; afterwards it is its suffix at a chunk boundary, never longer than the window, and
   the next position is its length.
   */
  lemma RecomputeWindow(conds: seq<seq<Embed>>, tokens: seq<seq<Token>>, w: nat, c: nat, i: nat,
                        cache: seq<Embed>, pos: nat)
    requires c < w && i < |conds| && i < |tokens|
    requires CacheAfter(SlidingRecompute(w, c), conds, tokens, i, cache, pos)
    ensures pos == |cache|
    ensures i < w ==> cache == Interleave(conds, tokens, 0, i + 1)
    ensures i >= w ==>
      var held := c + 1 + (i - c) % (w - c);
      c < held <= w && cache == Interleave(conds, tokens, i + 1 - held, i + 1)
    ensures exists dropped :: Interleave(conds, tokens, 0, i + 1) == dropped + cache
  {
    HeldStep(i, w, c);
    var lo := i + 1 - Held(i, w, c);
    InterleaveSplit(conds, tokens, 0, lo, i + 1);
    assert Interleave(conds, tokens, 0, i + 1) == Interleave(conds, tokens, 0, lo) + cache;
  }
}
