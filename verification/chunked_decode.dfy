/**
 Chunked decoding of one assistant turn: the language model in chunks of ten tokens, the speech model
 filling batches of audio tokens, and the vocoder reading overlapping windows of them.
 Sampling is a parameter: `draw(i)` is the token sampled at step i.
 */
module ChunkedDecode {
  import opened Sequences
  import opened Wrappers

  type Token = nat

  /** What the language model's cache holds: a position of the prompt, or a generated token. */
  datatype Fed = Prompt(i: nat) | Tok(id: Token)

  const GENERATE_CHUNK := 10

  function Toks(ids: seq<Token>): (r: seq<Fed>)
    ensures |r| == |ids|
  {
    seq(|ids|, i requires 0 <= i < |ids| => Tok(ids[i]))
  }

  lemma ToksAppend(a: seq<Token>, b: seq<Token>)
    ensures Toks(a + b) == Toks(a) + Toks(b)
  {
  }

  lemma ToksLast(ids: seq<Token>)
    requires ids != []
    ensures Toks(ids) == Toks(DropLast(ids)) + [Tok(ids[|ids| - 1])]
  {
  }

  function DropLast<T>(s: seq<T>): (r: seq<T>)
    requires s != []
    ensures |r| == |s| - 1
  {
    s[..|s| - 1]
  }

  // ---------- the language model ----------

  /** The object that generates chunk by chunk; its cache is extended in place. */
  class TextGenerator {
    var cache: seq<Fed>
    const terminators: set<Token>

    constructor (cache: seq<Fed>, terminators: set<Token>)
      ensures this.cache == cache && this.terminators == terminators
    {
      this.cache := cache;
      this.terminators := terminators;
    }

    /**
     `chunk_generate`: `feed` is the prompt in the first chunk and the last token of the previous
     chunk afterwards. `hidden` counts the hidden states kept for the speech model; none at all
     makes the final concatenation raise.
     */
    method ChunkGenerate(feed: seq<Fed>, isFirst: bool, chunkSize: nat, draw: nat -> Token)
      returns (ids: seq<Token>, hidden: nat, finished: bool, raised: bool)
      requires chunkSize > 0
      modifies this
      ensures forall i | 0 <= i < |ids| :: ids[i] == draw(i) && ids[i] !in terminators
      ensures finished ==> |ids| < chunkSize && draw(|ids|) in terminators
      ensures !finished ==> |ids| == chunkSize
      ensures cache == old(cache) + feed + Toks(if finished then ids else DropLast(ids))
      ensures hidden == (if isFirst then 0 else 1) + if finished then |ids| else |ids| - 1
      ensures raised <==> hidden == 0
    {
      ids, hidden, finished := [], 0, false;
      var i := 0;
      while i < chunkSize && !finished
        invariant i <= chunkSize && |ids| == (if finished then i - 1 else i)
        invariant finished ==> i > 0 && draw(|ids|) in terminators
        invariant forall j | 0 <= j < |ids| :: ids[j] == draw(j) && ids[j] !in terminators
        invariant i == 0 ==> cache == old(cache)
        invariant i > 0 ==> cache == old(cache) + feed + Toks(if finished then ids else DropLast(ids))
        invariant hidden == (if isFirst || i == 0 then 0 else 1) + (if i == 0 then 0 else i - 1)
        decreases chunkSize - i, !finished
      {
        if i == 0 {
          cache := cache + feed;
        } else {
          ToksLast(ids);
          cache := cache + [Tok(ids[|ids| - 1])];
          assert cache == old(cache) + feed + Toks(ids);
        }
        if !(isFirst && i == 0) { hidden := hidden + 1; }
        var next := draw(i);
        if next in terminators {
          finished := true;
        } else {
          ids := ids + [next];
          assert DropLast(ids) == ids[..|ids| - 1];
        }
        i := i + 1;
      }
      raised := hidden == 0;
    }
  }

  /** Round up to whole chunks; a negative budget gives none. */
  function NumChunks(maxNew: int): (n: nat)
    ensures if maxNew <= 0 then n == 0 else 10 * (n - 1) < maxNew <= 10 * n
  {
    if maxNew + GENERATE_CHUNK - 1 < 0 then 0 else (maxNew + GENERATE_CHUNK - 1) / GENERATE_CHUNK
  }

  /** Where a chunk stops: at the first terminator, or at ten tokens, eleven in the first chunk. */
  ghost predicate ChunkEnds(terminators: set<Token>, draw: nat -> Token, first: bool, n: nat, finished: bool) {
    var size := if first then 11 else 10;
    && (forall i: nat | i < n :: draw(i) !in terminators)
    && if finished then n < size && draw(n) in terminators else n == size
  }

  /** One turn of the outer loop: the chunk to hand on, after the token held back before. */
  method NextChunk(g: TextGenerator, prompt: seq<Fed>, held: Option<Token>, draw: nat -> Token)
    returns (chunk: seq<Token>, ids: seq<Token>, finished: bool, raised: bool)
    modifies g
    ensures raised <==> held.None? && draw(0) in g.terminators
    ensures raised ==> finished && ids == []
    ensures !finished ==> |chunk| == GENERATE_CHUNK && ids != []
    ensures chunk == (if held.Some? then [held.value] else []) + if finished then ids else DropLast(ids)
    ensures g.cache == old(g.cache) + (if held.None? then prompt else []) + Toks(chunk)
    ensures NoneOf(ids, g.terminators)
    ensures ids == Drawn(draw, |ids|) && ChunkEnds(g.terminators, draw, held.None?, |ids|, finished)
  {
    var isFirst := held.None?;
    var feed := if isFirst then prompt else [Tok(held.value)];
    var hidden;
    ids, hidden, finished, raised :=
      g.ChunkGenerate(feed, isFirst, GENERATE_CHUNK + (if isFirst then 1 else 0), draw);
    var ready := if finished then ids else DropLast(ids);
    chunk := (if isFirst then [] else [held.value]) + ready;
    assert |chunk| == hidden;
    if isFirst {
      assert chunk == ready;
    } else {
      ToksAppend([held.value], ready);
      assert Toks([held.value]) == feed;
    }
  }

  /** Everything generated has been handed on, but for the newest token unless the chunk finished. */
  predicate HandedOn(parts: seq<seq<Token>>, generated: seq<Token>, finished: bool) {
    Flatten(parts) == if finished || generated == [] then generated else DropLast(generated)
  }

  /** Every part has ten tokens, except a last one that finished. */
  predicate FullParts(parts: seq<seq<Token>>, finished: bool) {
    forall i | 0 <= i < |parts| :: (finished && i == |parts| - 1) || |parts[i]| == GENERATE_CHUNK
  }

  predicate NoneOf(ids: seq<Token>, terminators: set<Token>) {
    forall t | t in ids :: t !in terminators
  }

  /**
   The outer loop of `streaming_generate`. What is handed on after each chunk lags one token behind
   what is sampled, because the newest token has no hidden state yet; the chunk that finishes
   catches up. The cache holds the prompt and exactly what has been handed on.
   */
  method GenerateText(g: TextGenerator, prompt: seq<Fed>, maxNew: int, draws: nat -> nat -> Token)
    returns (parts: seq<seq<Token>>, generated: seq<Token>, finished: bool, raised: bool, counts: seq<nat>)
    modifies g
    ensures generated == AllDrawn(draws, counts) && TextEnds(g.terminators, draws, counts, finished || raised)
    ensures !finished && !raised ==> |counts| == NumChunks(maxNew)
    ensures HandedOn(parts, generated, finished)
    ensures raised <==> NumChunks(maxNew) > 0 && draws(0)(0) in g.terminators
    ensures g.cache == Cached(old(g.cache), prompt, NumChunks(maxNew), Flatten(parts))
    ensures FullParts(parts, finished) && NoneOf(generated, g.terminators)
    ensures !finished && !raised ==> |parts| == NumChunks(maxNew)
  {
    parts, generated, finished, raised, counts := [], [], false, false, [];
    assert Flatten(parts) == [] && g.cache == Cached(g.cache, prompt, 0, []);
    hide Toks, Flatten, NumChunks, DropLast, HandedOn, FullParts, NoneOf, Cached, Drawn, ChunkEnds,
      TextEnds, AllDrawn;
    NothingDrawn(g.terminators, draws);
    var c := 0;
    while c < NumChunks(maxNew) && !finished && !raised
      invariant c <= NumChunks(maxNew) && (!finished && !raised ==> |parts| == c)
      invariant if raised then c > 0 && draws(0)(0) in g.terminators else c > 0 ==> draws(0)(0) !in g.terminators
      invariant finished ==> c > 0 && !raised
      invariant raised ==> generated == []
      invariant !finished && !raised ==> (c == 0 <==> generated == [])
      invariant HandedOn(parts, generated, finished) && FullParts(parts, finished) && NoneOf(generated, g.terminators)
      invariant g.cache == Cached(old(g.cache), prompt, c, Flatten(parts)) && (c == 0 ==> Flatten(parts) == [])
      invariant |counts| == c && generated == AllDrawn(draws, counts)
      invariant TextEnds(g.terminators, draws, counts, finished || raised)
      decreases NumChunks(maxNew) - c
    {
      var held := if c == 0 then None else Some(generated[|generated| - 1]);
      var chunk, ids, done, threw := NextChunk(g, prompt, held, draws(c));
      HandOn(parts, generated, ids, chunk, done);
      KeepFull(parts, generated, ids, chunk, done, g.terminators);
      CachedMore(old(g.cache), prompt, c, Flatten(parts), chunk);
      CachedSame(old(g.cache), prompt, c + 1, NumChunks(maxNew), Flatten(parts) + chunk);
      DrawnMore(draws, counts, |ids|);
      TextEndsMore(g.terminators, draws, counts, |ids|, done);
      counts := counts + [|ids|];
      c := c + 1;
      if threw {
        raised := true;
      } else {
        parts := parts + [chunk];
        generated := generated + ids;
        finished := done;
      }
    }
  }

  /** What is sampled over all chunks: in chunk `c` the first `counts[c]` samples. */
  function AllDrawn(draws: nat -> nat -> Token, counts: seq<nat>): seq<Token> {
    if counts == [] then []
    else
      var n := |counts| - 1;
      AllDrawn(draws, counts[..n]) + Drawn(draws(n), counts[n])
  }

  lemma DrawnMore(draws: nat -> nat -> Token, counts: seq<nat>, n: nat)
    ensures AllDrawn(draws, counts + [n]) == AllDrawn(draws, counts) + Drawn(draws(|counts|), n)
  {
    assert (counts + [n])[..|counts|] == counts;
  }

  /** Every chunk stops where it should, and only the last one at a terminator. */
  ghost predicate TextEnds(terminators: set<Token>, draws: nat -> nat -> Token, counts: seq<nat>, done: bool) {
    forall c | 0 <= c < |counts| ::
      ChunkEnds(terminators, draws(c), c == 0, counts[c], done && c == |counts| - 1)
  }

  lemma NothingDrawn(terminators: set<Token>, draws: nat -> nat -> Token)
    ensures AllDrawn(draws, []) == [] && TextEnds(terminators, draws, [], false)
  {
  }

  lemma TextEndsMore(terminators: set<Token>, draws: nat -> nat -> Token, counts: seq<nat>, n: nat, done: bool)
    requires TextEnds(terminators, draws, counts, false)
    requires ChunkEnds(terminators, draws(|counts|), counts == [], n, done)
    ensures TextEnds(terminators, draws, counts + [n], done)
  {
    hide ChunkEnds;
    var more := counts + [n];
    forall c | 0 <= c < |more|
      ensures ChunkEnds(terminators, draws(c), c == 0, more[c], done && c == |more| - 1)
    {
      if c < |counts| { assert ChunkEnds(terminators, draws(c), c == 0, counts[c], false && c == |counts| - 1); }
    }
  }

  /** One more chunk handed on: the held-back token comes first, and a new one is held back unless done. */
  lemma HandOn(parts: seq<seq<Token>>, generated: seq<Token>, ids: seq<Token>, chunk: seq<Token>, done: bool)
    requires (done || ids != []) && HandedOn(parts, generated, false)
    requires chunk == (if generated != [] then [generated[|generated| - 1]] else [])
      + if done then ids else DropLast(ids)
    ensures HandedOn(parts + [chunk], generated + ids, done)
    ensures Flatten(parts + [chunk]) == Flatten(parts) + chunk
    ensures generated == [] && ids == [] && done ==> Flatten(parts) + chunk == Flatten(parts)
  {
    hide Flatten;
    FlattenAppend(parts, chunk);
    if generated != [] { assert generated == DropLast(generated) + [generated[|generated| - 1]]; }
  }

  lemma KeepFull(parts: seq<seq<Token>>, generated: seq<Token>, ids: seq<Token>, chunk: seq<Token>, done: bool,
                 terminators: set<Token>)
    requires (done || |chunk| == GENERATE_CHUNK) && FullParts(parts, false)
    requires NoneOf(generated, terminators) && NoneOf(ids, terminators)
    ensures FullParts(parts + [chunk], done) && NoneOf(generated + ids, terminators)
  {
  }

  /** The cache after `c` chunks: the prompt is fed with the first one. */
  function Cached(base: seq<Fed>, prompt: seq<Fed>, c: nat, handedOn: seq<Token>): seq<Fed> {
    base + (if c > 0 then prompt else []) + Toks(handedOn)
  }

  lemma CachedMore(base: seq<Fed>, prompt: seq<Fed>, c: nat, handedOn: seq<Token>, chunk: seq<Token>)
    requires c == 0 ==> handedOn == []
    ensures Cached(base, prompt, c, handedOn) + (if c == 0 then prompt else []) + Toks(chunk)
            == Cached(base, prompt, c + 1, handedOn + chunk)
  {
    ToksAppend(handedOn, chunk);
    if c == 0 {
      assert base + [] + Toks([]) == base;
      assert [] + chunk == chunk;
    } else {
      assert base + prompt + Toks(handedOn) + [] + Toks(chunk) == base + prompt + (Toks(handedOn) + Toks(chunk));
    }
  }

  lemma CachedSame(base: seq<Fed>, prompt: seq<Fed>, c: nat, d: nat, handedOn: seq<Token>)
    requires c > 0 && d > 0
    ensures Cached(base, prompt, c, handedOn) == Cached(base, prompt, d, handedOn)
  {
  }

  // ---------- the speech model ----------

  /** One batch handed to the vocoder, with the flag saying it is the last. */
  datatype Batch = Batch(tokens: seq<Token>, last: bool)

  function BatchTokens(bs: seq<Batch>): seq<Token> {
    if bs == [] then [] else bs[0].tokens + BatchTokens(bs[1..])
  }

  lemma {:induction false} BatchTokensConcat(a: seq<Batch>, b: seq<Batch>)
    ensures BatchTokens(a + b) == BatchTokens(a) + BatchTokens(b)
  {
    if a == [] {
      assert a + b == b;
    } else {
      assert (a + b)[1..] == a[1..] + b;
      BatchTokensConcat(a[1..], b);
    }
  }

  lemma Grow(emitted: seq<Token>, out: seq<Token>, kept: seq<Token>, buffer: seq<Token>, before: seq<Token>,
             draw: nat -> Token, n: nat, m: nat)
    requires emitted + kept == before + Drawn(draw, n) && n <= m <= n + 1
    requires out + buffer == kept + if m == n then [] else [draw(n)]
    ensures (emitted + out) + buffer == before + Drawn(draw, m)
  {
    var e := if m == n then [] else [draw(n)];
    assert Drawn(draw, m) == Drawn(draw, n) + e;
    assert (emitted + out) + buffer == emitted + (out + buffer);
    assert emitted + (kept + e) == (emitted + kept) + e;
  }

  class SpeechGenerator {
    var buffer: seq<Token>
    const chunkSize: nat
    const eos: Token

    constructor (chunkSize: nat, eos: Token)
      requires chunkSize > 0
      ensures buffer == [] && this.chunkSize == chunkSize && this.eos == eos
    {
      buffer, this.chunkSize, this.eos := [], chunkSize, eos;
    }

    /** Every batch is full, except a last one when the text is finished. */
    predicate WellFilled(batches: seq<Batch>, done: bool) {
      && (done ==> batches != [] && batches[|batches| - 1].last && |batches[|batches| - 1].tokens| < chunkSize)
      && forall i | 0 <= i < (if done then |batches| - 1 else |batches|) ::
           !batches[i].last && |batches[i].tokens| == chunkSize
    }

    /** What a filled, or final, buffer hands on, and what it keeps. */
    function Emit(full: seq<Token>, stopped: bool, textFinished: bool): (r: (seq<Batch>, seq<Token>))
      requires |full| <= chunkSize && (stopped ==> |full| < chunkSize) && 0 < chunkSize
      ensures BatchTokens(r.0) + r.1 == full && |r.1| < chunkSize
      ensures stopped && textFinished ==> |r.0| == 1 && r.0[0].last && |r.0[0].tokens| < chunkSize && r.1 == []
      ensures !(stopped && textFinished) && (stopped || full != []) ==>
        forall i | 0 <= i < |r.0| :: !r.0[i].last && |r.0[i].tokens| == chunkSize
    {
      if full == [] then (if textFinished then [Batch([], true)] else [], [])
      else if |full| >= chunkSize then
        assert full[..chunkSize] + full[chunkSize..] == full;
        ([Batch(full[..chunkSize], false)], full[chunkSize..])
      else if stopped && textFinished then ([Batch(full, true)], [])
      else ([], full)
    }

    /**
     `generate_with_buffer`: audio tokens are sampled until the end token or the limit; every full
     batch is handed on, and what is left over is handed on only when the text is finished.
     */
    method GenerateWithBuffer(textFinished: bool, maxNew: nat, draw: nat -> Token)
      returns (batches: seq<Batch>, drawn: nat, stopped: bool)
      requires |buffer| < chunkSize
      modifies this
      ensures drawn <= maxNew && (!stopped ==> drawn == maxNew) && (stopped ==> draw(drawn) == eos)
      ensures forall i: nat | i < drawn :: draw(i) != eos
      ensures BatchTokens(batches) + buffer == old(buffer) + Drawn(draw, drawn)
      ensures |buffer| < chunkSize
      ensures WellFilled(batches, stopped && textFinished)
      ensures NoLongLast(batches, chunkSize)
      ensures stopped && textFinished ==> buffer == []
    {
      batches, drawn, stopped := [], 0, false;
      assert Drawn(draw, 0) == [];
      ghost var before := buffer;
      var t := 0;
      while t < maxNew && !stopped
        invariant t <= maxNew && drawn <= t && (!stopped ==> drawn == t) && (stopped ==> draw(drawn) == eos)
        invariant forall i: nat | i < drawn :: draw(i) != eos
        invariant BatchTokens(batches) + buffer == before + Drawn(draw, drawn)
        invariant |buffer| < chunkSize && WellFilled(batches, stopped && textFinished)
        invariant stopped && textFinished ==> buffer == []
        decreases maxNew - t, !stopped
      {
        ghost var kept, had := buffer, drawn;
        var out;
        stopped, out := TakeToken(draw(t), textFinished);
        BatchTokensConcat(batches, out);
        if !stopped { drawn := drawn + 1; }
        Grow(BatchTokens(batches), BatchTokens(out), kept, buffer, before, draw, had, drawn);
        batches := batches + out;
        t := t + 1;
      }
    }

    /** One sampled token: into the buffer unless it is the end token, then out what is due. */
    method TakeToken(next: Token, textFinished: bool) returns (stopped: bool, out: seq<Batch>)
      requires |buffer| < chunkSize
      modifies this
      ensures stopped <==> next == eos
      ensures BatchTokens(out) + buffer == old(buffer) + if stopped then [] else [next]
      ensures |buffer| < chunkSize
      ensures if stopped && textFinished
              then |out| == 1 && out[0].last && |out[0].tokens| < chunkSize && buffer == []
              else forall i | 0 <= i < |out| :: !out[i].last && |out[i].tokens| == chunkSize
    {
      stopped := next == eos;
      if !stopped { buffer := buffer + [next]; }
      var (o, rest) := Emit(buffer, stopped, textFinished);
      out, buffer := o, rest;
    }
  }

  /** In every chunk sampling went on up to the end token, or to the limit. */
  ghost predicate SpeechEnds(eos: Token, draws: nat -> nat -> Token, counts: seq<nat>, maxNew: nat) {
    forall c | 0 <= c < |counts| :: DrawsEnd(eos, draws(c), counts[c], maxNew)
  }

  ghost predicate DrawsEnd(eos: Token, draw: nat -> Token, n: nat, maxNew: nat) {
    n <= maxNew && (forall i: nat | i < n :: draw(i) != eos) && (n < maxNew ==> draw(n) == eos)
  }

  lemma SpeechEndsMore(eos: Token, draws: nat -> nat -> Token, counts: seq<nat>, maxNew: nat, n: nat)
    requires SpeechEnds(eos, draws, counts, maxNew) && n <= maxNew && (n < maxNew ==> draws(|counts|)(n) == eos)
    requires forall i: nat | i < n :: draws(|counts|)(i) != eos
    ensures SpeechEnds(eos, draws, counts + [n], maxNew)
  {
    assert DrawsEnd(eos, draws(|counts|), n, maxNew);
  }

  /** No batch is too long, and one marked last is not even full. */
  predicate NoLongLast(batches: seq<Batch>, size: nat) {
    forall i | 0 <= i < |batches| ::
      |batches[i].tokens| <= size && (batches[i].last ==> |batches[i].tokens| < size)
  }

  /** Every batch before the last is full and not marked last; none is too long. */
  predicate Batched(batches: seq<Batch>, size: nat) {
    && (forall i | 0 <= i < |batches| - 1 :: !batches[i].last && |batches[i].tokens| == size)
    && NoLongLast(batches, size)
  }

  /** All batches full and none marked last. */
  predicate AllFull(batches: seq<Batch>, size: nat) {
    forall i | 0 <= i < |batches| :: !batches[i].last && |batches[i].tokens| == size
  }

  lemma AudioMore(draws: nat -> nat -> Token, counts: seq<nat>, drawn: nat, sofar: seq<Batch>, more: seq<Batch>,
                  kept: seq<Token>, buffer: seq<Token>)
    requires BatchTokens(sofar) + kept == AllDrawn(draws, counts)
    requires BatchTokens(more) + buffer == kept + Drawn(draws(|counts|), drawn)
    ensures BatchTokens(sofar + more) + buffer == AllDrawn(draws, counts + [drawn])
  {
    hide BatchTokens, Drawn;
    BatchTokensConcat(sofar, more);
    DrawnMore(draws, counts, drawn);
    Regroup(BatchTokens(sofar), kept, BatchTokens(more), buffer, Drawn(draws(|counts|), drawn));
  }

  lemma Regroup<T>(a: seq<T>, k: seq<T>, m: seq<T>, b: seq<T>, d: seq<T>)
    requires m + b == k + d
    ensures (a + m) + b == (a + k) + d
  {
    assert (a + m) + b == a + (m + b);
    assert (a + k) + d == a + (k + d);
  }

  lemma FlushBatch(sofar: seq<Batch>, buffer: seq<Token>, size: nat)
    requires AllFull(sofar, size) && |buffer| < size
    ensures BatchTokens(sofar + [Batch(buffer, true)]) == BatchTokens(sofar) + buffer
    ensures Batched(sofar + [Batch(buffer, true)], size)
  {
    BatchTokensConcat(sofar, [Batch(buffer, true)]);
    assert BatchTokens([Batch(buffer, true)]) == buffer + BatchTokens([]);
  }

  /** What one call of the generator adds to batches that are all full. */
  lemma BatchedMore(sofar: seq<Batch>, more: seq<Batch>, size: nat, final: bool)
    requires AllFull(sofar, size) && NoLongLast(more, size)
    requires forall i | 0 <= i < (if final then |more| - 1 else |more|) :: !more[i].last && |more[i].tokens| == size
    ensures if final then Batched(sofar + more, size) else AllFull(sofar + more, size)
  {
  }

  /**
   The speech side of `streaming_generate`: one call of the generator for every chunk of text, up to
   the one that finishes it, and then whatever is left in the buffer. Every audio token of the turn is
   handed on exactly once, in order, and only the last batch may be short.
   */
  method GenerateSpeech(g: SpeechGenerator, finished: seq<bool>, maxNew: nat, draws: nat -> nat -> Token)
    returns (batches: seq<Batch>, counts: seq<nat>)
    requires g.chunkSize > 0 && g.buffer == []
    modifies g
    ensures |counts| <= |finished| && (forall c | 0 <= c < |counts| - 1 :: !finished[c])
    ensures |counts| < |finished| ==> counts != [] && finished[|counts| - 1]
    ensures BatchTokens(batches) == AllDrawn(draws, counts) && g.buffer == []
    ensures SpeechEnds(g.eos, draws, counts, maxNew)
    ensures Batched(batches, g.chunkSize)
  {
    hide Drawn;
    batches, counts := [], [];
    var done, c := false, 0;
    ghost var silent := false;
    while c < |finished| && !done
      invariant c <= |finished| && |counts| == c && |g.buffer| < g.chunkSize
      invariant forall i | 0 <= i < c - 1 :: !finished[i]
      invariant if done then c > 0 && finished[c - 1] else c == 0 || !finished[c - 1]
      invariant BatchTokens(batches) + g.buffer == AllDrawn(draws, counts)
      invariant SpeechEnds(g.eos, draws, counts, maxNew)
      invariant !silent ==> AllFull(batches, g.chunkSize)
      invariant silent ==> done && g.buffer == [] && Batched(batches, g.chunkSize)
      decreases |finished| - c, !done
    {
      hide BatchTokens, AllDrawn, SpeechEnds, Drawn, AllFull, Batched, NoLongLast;
      ghost var kept := g.buffer;
      var more, drawn, stopped := g.GenerateWithBuffer(finished[c], maxNew, draws(c));
      AudioMore(draws, counts, drawn, batches, more, kept, g.buffer);
      BatchedMore(batches, more, g.chunkSize, stopped && finished[c]);
      SpeechEndsMore(g.eos, draws, counts, maxNew, drawn);
      batches, counts := batches + more, counts + [drawn];
      done := finished[c];
      silent := stopped && finished[c];
      c := c + 1;
    }
    if |g.buffer| > 0 {
      FlushBatch(batches, g.buffer, g.chunkSize);
      batches := batches + [Batch(g.buffer, true)];
      g.buffer := [];
    }
  }

  // ---------- the vocoder ----------

  const SILENCE: Token := 4218
  const CHUNK_SIZE := 25
  const PRE_LOOKAHEAD := 3

  /** One call of the vocoder. */
  datatype Window = Window(tokens: seq<Token>, last: bool)

  function Prefix(): seq<Token> {
    [SILENCE, SILENCE, SILENCE]
  }

  predicate NoneLast(windows: seq<Window>) {
    forall i | 0 <= i < |windows| :: !windows[i].last
  }

  /** Window i covers positions 25 i .. 25 i + 28 of the stream. */
  predicate Covers(windows: seq<Window>, stream: seq<Token>) {
    && CHUNK_SIZE * |windows| + PRE_LOOKAHEAD <= |stream|
    && forall i | 0 <= i < |windows| ::
         windows[i].tokens == stream[CHUNK_SIZE * i..CHUNK_SIZE * i + CHUNK_SIZE + PRE_LOOKAHEAD]
  }

  /** Reading a window off the buffer, and moving on by one stride. */
  lemma TakeWindow(windows: seq<Window>, stream: seq<Token>, buffer: seq<Token>, rest: seq<Token>, last: bool)
    requires Covers(windows, stream) && |buffer| >= CHUNK_SIZE + PRE_LOOKAHEAD
    requires stream[CHUNK_SIZE * |windows|..] == buffer + rest
    ensures var more := windows + [Window(buffer[..CHUNK_SIZE + PRE_LOOKAHEAD], last)];
      && Covers(more, stream) && stream[CHUNK_SIZE * |more|..] == buffer[CHUNK_SIZE..] + rest
      && (NoneLast(windows) && !last ==> NoneLast(more))
  {
    var at := CHUNK_SIZE * |windows|;
    assert stream[at..at + CHUNK_SIZE + PRE_LOOKAHEAD] == stream[at..][..CHUNK_SIZE + PRE_LOOKAHEAD];
    assert stream[at + CHUNK_SIZE..] == stream[at..][CHUNK_SIZE..];
  }

  lemma BatchTokensFrom(batches: seq<Batch>, k: nat, buffer: seq<Token>)
    requires k < |batches|
    ensures buffer + BatchTokens(batches[k..]) == (buffer + batches[k].tokens) + BatchTokens(batches[k + 1..])
  {
    assert batches[k..][1..] == batches[k + 1..];
  }

  /**
   The vocoder loop of `streaming_generate`. Over the stream of the silence prefix and all audio
   tokens, window i covers positions 25 i .. 25 i + 28, and the final flush everything from the last
   stride on: no token is lost, and none is read again except the three of lookahead. With the batches
   of the speech side no window is marked last, so that only the flush ends the vocoder's stream.
   */
  method Vocode(batches: seq<Batch>) returns (windows: seq<Window>, flushed: seq<Token>, peak: nat)
    ensures var stream := Prefix() + BatchTokens(batches);
      Covers(windows, stream) && flushed == stream[CHUNK_SIZE * |windows|..]
    ensures (forall i | 0 <= i < |batches| :: |batches[i].tokens| <= CHUNK_SIZE) ==> peak <= 27
    ensures PRE_LOOKAHEAD <= |flushed| <= peak
    ensures Batched(batches, CHUNK_SIZE) ==> NoneLast(windows)
  {
    hide Covers, Batched, NoneLast, BatchTokens;
    var buffer := Prefix();
    windows, peak := [], |buffer|;
    ghost var stream := Prefix() + BatchTokens(batches);
    assert batches[0..] == batches;
    StartCovers(stream);
    var k := 0;
    while k < |batches|
      invariant k <= |batches| && |buffer| >= PRE_LOOKAHEAD
      invariant Covers(windows, stream)
      invariant CHUNK_SIZE * |windows| <= |stream|
      invariant stream[CHUNK_SIZE * |windows|..] == buffer + BatchTokens(batches[k..])
      invariant (forall i | 0 <= i < |batches| :: |batches[i].tokens| <= CHUNK_SIZE) ==> peak <= 27
      invariant |buffer| <= peak
      invariant Batched(batches, CHUNK_SIZE) ==> NoneLast(windows) && (k < |batches| ==> |buffer| == PRE_LOOKAHEAD)
    {
      BatchTokensFrom(batches, k, buffer);
      BatchedAt(batches, CHUNK_SIZE, k);
      buffer := buffer + batches[k].tokens;
      if |buffer| >= CHUNK_SIZE + PRE_LOOKAHEAD {
        TakeWindow(windows, stream, buffer, BatchTokens(batches[k + 1..]), batches[k].last);
        windows := windows + [Window(buffer[..CHUNK_SIZE + PRE_LOOKAHEAD], batches[k].last)];
        CoversFit(windows, stream);
        buffer := buffer[CHUNK_SIZE..];
      }
      if |buffer| > peak { peak := |buffer|; }
      k := k + 1;
    }
    flushed := buffer;
    NothingLeft(batches[k..]);
  }

  lemma StartCovers(stream: seq<Token>)
    requires |stream| >= PRE_LOOKAHEAD
    ensures Covers([], stream) && NoneLast([])
  {
  }

  lemma CoversFit(windows: seq<Window>, stream: seq<Token>)
    requires Covers(windows, stream)
    ensures CHUNK_SIZE * |windows| <= |stream|
  {
  }

  lemma BatchedAt(batches: seq<Batch>, size: nat, k: nat)
    requires k < |batches|
    ensures Batched(batches, size) ==>
      && |batches[k].tokens| <= size && (batches[k].last ==> |batches[k].tokens| < size)
      && (k + 1 < |batches| ==> |batches[k].tokens| == size)
  {
  }

  lemma NothingLeft(batches: seq<Batch>)
    requires batches == []
    ensures BatchTokens(batches) == []
  {
  }

  function Stride(stream: seq<Token>, i: nat): seq<Token>
    requires CHUNK_SIZE * (i + 1) <= |stream|
  {
    stream[CHUNK_SIZE * i..CHUNK_SIZE * (i + 1)]
  }

  function Strides(stream: seq<Token>, n: nat): (r: seq<Token>)
    requires CHUNK_SIZE * n <= |stream|
  {
    if n == 0 then [] else Strides(stream, n - 1) + Stride(stream, n - 1)
  }

  /** The strides of the windows and the final flush put together are the whole stream. */
  lemma {:induction false} StridesCover(stream: seq<Token>, n: nat)
    requires CHUNK_SIZE * n <= |stream|
    ensures Strides(stream, n) + stream[CHUNK_SIZE * n..] == stream
  {
    if n == 0 {
    } else {
      StridesCover(stream, n - 1);
      assert stream[CHUNK_SIZE * (n - 1)..] == Stride(stream, n - 1) + stream[CHUNK_SIZE * n..];
    }
  }

  /**
   Speech and vocoder together, with batches of 25: the strides of the windows and the final flush are
   the silence prefix and every audio token of the turn, and at most 27 tokens are ever waiting. The
   flush is the one call marked last.
   */
  method SpeakTurn(g: SpeechGenerator, finished: seq<bool>, maxNew: nat, draws: nat -> nat -> Token)
    returns (windows: seq<Window>, flushed: seq<Token>, counts: seq<nat>, peak: nat)
    requires g.chunkSize == CHUNK_SIZE && g.buffer == []
    modifies g
    ensures var stream := Prefix() + AllDrawn(draws, counts);
      && CHUNK_SIZE * |windows| <= |stream| && Strides(stream, |windows|) + flushed == stream
      && (forall i | 0 <= i < |windows| :: |windows[i].tokens| == CHUNK_SIZE + PRE_LOOKAHEAD)
      && NoneLast(windows) && flushed != []
    ensures peak <= 27 && SpeechEnds(g.eos, draws, counts, maxNew)
    ensures |counts| <= |finished| && (forall c | 0 <= c < |counts| - 1 :: !finished[c])
    ensures |counts| < |finished| ==> counts != [] && finished[|counts| - 1]
  {
    var batches;
    batches, counts := GenerateSpeech(g, finished, maxNew, draws);
    windows, flushed, peak := Vocode(batches);
    StridesCover(Prefix() + BatchTokens(batches), |windows|);
  }
}
