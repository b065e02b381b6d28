/**
 The audio half of the duplex model: audio tokens are buffered, and the streaming vocoder reads windows
 that look `lookahead` tokens past the stride they consume.
 */
module Token2Wav {
  import opened Arithmetic

  type Token = nat

  const CHUNK_SIZE: nat := 25
  const SILENCE: Token := 4218

  /** One vocoder call: it consumes `stride` tokens of the stream from position `at`. */
  datatype Window = Window(at: nat, stride: nat, tokens: seq<Token>, last: bool)

  /**
   The buffer, and beside it what the model remembers of the current turn: every token put into the
   buffer, how many have been consumed, and the windows read.
   */
  datatype Wav = Wav(ready: bool, buffer: seq<Token>, stream: seq<Token>, done: nat, windows: seq<Window>)

  /** `_reset_token2wav_for_new_turn` */
  function NewTurn(w: Wav): Wav {
    if w.ready then Wav(true, [SILENCE, SILENCE, SILENCE], [SILENCE, SILENCE, SILENCE], 0, []) else w
  }

  /** Least number of buffered tokens for one more window. */
  function Threshold(lookahead: nat, flush: bool): nat {
    if flush then lookahead + 5 else CHUNK_SIZE + lookahead
  }

  function Taken(w: Wav, lookahead: nat): Wav
    requires lookahead <= |w.buffer|
  {
    var n := Min(CHUNK_SIZE + lookahead, |w.buffer|);
    var stride := Min(CHUNK_SIZE, n - lookahead);
    w.(buffer := w.buffer[stride..], done := w.done + stride,
       windows := w.windows + [Window(w.done, stride, w.buffer[..n], false)])
  }

  /** Windows are read while enough tokens are buffered. */
  function Drained(w: Wav, lookahead: nat, flush: bool): Wav
    decreases |w.buffer|
  {
    if |w.buffer| < Threshold(lookahead, flush) then w else Drained(Taken(w, lookahead), lookahead, flush)
  }

  /** The end of a turn reads whatever is left. */
  function Flushed(w: Wav, last: bool): Wav {
    if last && w.buffer != [] then
      w.(buffer := [], done := w.done + |w.buffer|,
         windows := w.windows + [Window(w.done, |w.buffer|, w.buffer, true)])
    else w
  }

  function Buffered(w: Wav, tokens: seq<Token>): Wav {
    w.(buffer := w.buffer + tokens, stream := w.stream + tokens)
  }

  /** `_generate_waveform_from_tokens`; without a vocoder cache the tokens are dropped. */
  function Heard(w: Wav, lookahead: nat, terminates: set<Token>, tokens: seq<Token>, last: bool, flush: bool): Wav {
    if !w.ready then w
    else Flushed(Drained(Buffered(w, tokens), lookahead, flush || HasTerminator(terminates, tokens)), last)
  }

  /** Audio token ids are compared with the language model's terminators. */
  predicate HasTerminator(terminates: set<Token>, tokens: seq<Token>) {
    exists i | 0 <= i < |tokens| :: tokens[i] in terminates
  }

  // ---------- what the windows cover ----------

  /** Window `i` starts where the one before stopped, and shows its stride and the lookahead after it. */
  predicate WindowFits(w: Wav, lookahead: nat, i: nat)
    requires i < |w.windows|
  {
    var x := w.windows[i];
    && x.at == (if i == 0 then 0 else w.windows[i - 1].at + w.windows[i - 1].stride)
    && 0 < x.stride && |x.tokens| == x.stride + (if x.last then 0 else lookahead)
    && x.at + |x.tokens| <= |w.stream| && x.tokens == w.stream[x.at..x.at + |x.tokens|]
    && (!x.last ==> x.stride <= CHUNK_SIZE) && (x.last ==> i == |w.windows| - 1 && w.buffer == [])
  }

  function Reached(ws: seq<Window>): nat {
    if ws == [] then 0 else ws[|ws| - 1].at + ws[|ws| - 1].stride
  }

  /** The windows read so far cover the stream up to the buffer. */
  predicate Covers(w: Wav, lookahead: nat) {
    && w.done <= |w.stream| && w.buffer == w.stream[w.done..] && w.done == Reached(w.windows)
    && forall i | 0 <= i < |w.windows| :: WindowFits(w, lookahead, i)
  }

  /** No window has been marked last. */
  predicate Open(w: Wav) {
    forall i | 0 <= i < |w.windows| :: !w.windows[i].last
  }

  lemma BufferedCovers(w: Wav, lookahead: nat, tokens: seq<Token>)
    requires Covers(w, lookahead) && Open(w)
    ensures Covers(Buffered(w, tokens), lookahead)
  {
    var b := Buffered(w, tokens);
    forall i | 0 <= i < |b.windows| ensures WindowFits(b, lookahead, i) {
      assert WindowFits(w, lookahead, i);
      var x := w.windows[i];
      assert b.stream[x.at..x.at + |x.tokens|] == w.stream[x.at..x.at + |x.tokens|];
    }
  }

  lemma TakenCovers(w: Wav, lookahead: nat)
    requires Covers(w, lookahead) && Open(w) && |w.buffer| > lookahead
    ensures Covers(Taken(w, lookahead), lookahead) && Open(Taken(w, lookahead))
  {
    var t := Taken(w, lookahead);
    var x := t.windows[|w.windows|];
    assert w.stream[w.done..][..|x.tokens|] == w.stream[x.at..x.at + |x.tokens|];
    assert w.stream[w.done..][x.stride..] == w.stream[t.done..];
    forall i | 0 <= i < |t.windows| ensures WindowFits(t, lookahead, i) {
      if i < |w.windows| { assert WindowFits(w, lookahead, i); }
    }
  }

  lemma {:induction false} DrainedCovers(w: Wav, lookahead: nat, flush: bool)
    requires Covers(w, lookahead) && Open(w)
    ensures var d := Drained(w, lookahead, flush);
      Covers(d, lookahead) && Open(d) && d.stream == w.stream && d.ready == w.ready
      && |d.buffer| < Threshold(lookahead, flush) && w.windows <= d.windows
    decreases |w.buffer|
  {
    hide Covers, Open;
    if |w.buffer| >= Threshold(lookahead, flush) {
      TakenCovers(w, lookahead);
      DrainedCovers(Taken(w, lookahead), lookahead, flush);
    }
  }

  lemma FlushedCovers(w: Wav, lookahead: nat, last: bool)
    requires Covers(w, lookahead) && Open(w)
    ensures Covers(Flushed(w, last), lookahead) && (last ==> Flushed(w, last).done == |w.stream|)
    ensures !last ==> Open(Flushed(w, last))
  {
    var f := Flushed(w, last);
    forall i | 0 <= i < |f.windows| ensures WindowFits(f, lookahead, i) {
      if i < |w.windows| { assert WindowFits(w, lookahead, i); }
    }
  }

  /**
   Every batch of tokens keeps the cover: only what the buffer holds is still to be read, and after
   the last batch of a turn that is nothing.
   */
  lemma HeardCovers(w: Wav, lookahead: nat, terminates: set<Token>, tokens: seq<Token>, last: bool, flush: bool)
    requires w.ready && Covers(w, lookahead) && Open(w)
    ensures var h := Heard(w, lookahead, terminates, tokens, last, flush);
      && h.ready && Covers(h, lookahead) && h.stream == w.stream + tokens && w.windows <= h.windows
      && (last ==> h.done == |h.stream|) && (!last ==> Open(h))
      && |h.buffer| < Threshold(lookahead, flush || HasTerminator(terminates, tokens))
  {
    hide Covers, Open, Drained;
    BufferedCovers(w, lookahead, tokens);
    assert Open(Buffered(w, tokens)) by { OpenBuffered(w, tokens); }
    DrainedCovers(Buffered(w, tokens), lookahead, flush || HasTerminator(terminates, tokens));
    FlushedCovers(Drained(Buffered(w, tokens), lookahead, flush || HasTerminator(terminates, tokens)), lookahead, last);
  }

  lemma OpenBuffered(w: Wav, tokens: seq<Token>)
    requires Open(w)
    ensures Open(Buffered(w, tokens))
  {
  }

  /** From window `from` on strides are of 25; only when reading eagerly the newest may be shorter, of 5 at least. */
  predicate Steady(ws: seq<Window>, from: nat, eager: bool) {
    forall i | from <= i < |ws| && !ws[i].last ::
      ws[i].stride == 25 || (eager && 5 <= ws[i].stride < 25 && (i == |ws| - 1 || ws[i + 1].last))
  }

  lemma {:induction false} DrainedSteady(w: Wav, lookahead: nat, flush: bool)
    ensures var d := Drained(w, lookahead, flush);
      w.windows <= d.windows && d.stream == w.stream && Steady(d.windows, |w.windows|, flush)
    ensures forall i | |w.windows| <= i < |Drained(w, lookahead, flush).windows| ::
      !Drained(w, lookahead, flush).windows[i].last
    decreases |w.buffer|
  {
    if |w.buffer| >= Threshold(lookahead, flush) {
      DrainedSteady(Taken(w, lookahead), lookahead, flush);
    }
  }

  /**
   How a batch of tokens is read. Windows have full strides as long as nothing asks to flush; a flush, or
   a terminator among the tokens, also reads shorter ones, until fewer than five tokens follow the
   lookahead. Otherwise fewer tokens are left than one full window needs.
   */
  lemma HeardReads(w: Wav, lookahead: nat, terminates: set<Token>, tokens: seq<Token>, last: bool, flush: bool)
    requires w.ready && Covers(w, lookahead) && Open(w)
    ensures var h := Heard(w, lookahead, terminates, tokens, last, flush);
      var eager := flush || exists t :: t in tokens && t in terminates;
      && Steady(h.windows, |w.windows|, eager) && h.stream == w.stream + tokens
      && |h.buffer| < (if eager then lookahead + 5 else lookahead + 25)
  {
    var b := Buffered(w, tokens);
    var eager := flush || HasTerminator(terminates, tokens);
    assert HasTerminator(terminates, tokens) <==> exists t :: t in tokens && t in terminates;
    hide Drained, Covers, Open;
    HeardCovers(w, lookahead, terminates, tokens, last, flush);
    DrainedSteady(b, lookahead, eager);
  }

  /** The strides put one after the other. */
  function Strides(ws: seq<Window>): seq<Token> {
    if ws == [] then []
    else
      var x := ws[|ws| - 1];
      Strides(ws[..|ws| - 1]) + x.tokens[..Min(x.stride, |x.tokens|)]
  }

  lemma {:induction false} StridesPrefix(w: Wav, lookahead: nat, n: nat)
    requires Covers(w, lookahead) && n <= |w.windows|
    ensures Reached(w.windows[..n]) <= |w.stream|
    ensures Strides(w.windows[..n]) == w.stream[..Reached(w.windows[..n])]
  {
    if n == 0 {
    } else {
      StridesPrefix(w, lookahead, n - 1);
      var x := w.windows[n - 1];
      assert WindowFits(w, lookahead, n - 1);
      assert w.windows[..n][..n - 1] == w.windows[..n - 1];
      assert x.tokens[..x.stride] == w.stream[x.at..x.at + x.stride];
      assert w.stream[..x.at] + w.stream[x.at..x.at + x.stride] == w.stream[..x.at + x.stride];
    }
  }

  /** The strides followed by what is still buffered are all the tokens of the turn, each once. */
  lemma StridesCover(w: Wav, lookahead: nat)
    requires Covers(w, lookahead)
    ensures Strides(w.windows) + w.buffer == w.stream
  {
    StridesPrefix(w, lookahead, |w.windows|);
    assert w.windows[..|w.windows|] == w.windows;
  }
}
