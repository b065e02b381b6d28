/**
 The duplex model: every unit decodes, and unless it listens it speaks, with a key/value cache that
 lives for one turn of the voice and a vocoder buffer that lives as long.
 */
module Duplex {
  import opened Arithmetic
  import opened Sequences
  import opened Tts
  import opened DuplexDecode
  import opened Token2Wav

  const MAX_UNIT_TOKENS: nat := 26

  datatype Params = Params(config: Config, generateAudio: bool, audioBos: nat, eos: nat, lookahead: nat)

  /**
   The fields of the voice. `conds`, `turn` and `used` log the conditions, audio tokens and position
   ids since the voice was last reset.
   */
  datatype Voice = Voice(pos: nat, cache: seq<Embed>, conds: seq<seq<Embed>>, turn: seq<seq<nat>>, used: seq<nat>)

  const SILENT := Voice(0, [], [], [], [])

  datatype State = State(talk: Talk, voice: Voice, wav: Wav, pending: bool)

  /** The samples of one unit; `masked` is sampled where the end token is masked. */
  datatype Samples = Samples(max: int, draw: nat -> nat, audio: nat -> nat, masked: nat -> nat)

  datatype Op = Prefill | Generate(stopped: bool, samples: Samples)

  ghost predicate Masks(p: Params, s: Samples) {
    forall t: nat :: s.masked(t) != p.eos
  }

  /** `_reset_streaming_state`, then `prepare` with or without a vocoder prompt. */
  function Prepared(vocoder: bool): State {
    State(RESET, SILENT, NewTurn(Wav(vocoder, [], [], 0, [])), false)
  }

  /** `_convert_results_to_tts_input`: the hidden states of the unit, then the start-of-audio token. */
  function Condition(p: Params, hidden: seq<nat>): (r: seq<Embed>)
    ensures |r| == |hidden| + 1 && r[|hidden|] == Text(p.audioBos)
    ensures forall i | 0 <= i < |hidden| :: r[i] == Text(hidden[i])
  {
    seq(|hidden|, i requires 0 <= i < |hidden| => Text(hidden[i])) + [Text(p.audioBos)]
  }

  /** The end token is masked unless the unit opens or closes a turn of the voice. */
  function MinTokens(voice: Voice, endOfTurn: bool): nat {
    if endOfTurn || voice.pos == 0 then 0 else MAX_UNIT_TOKENS
  }

  function Sampler(s: Samples, minNew: nat): nat -> nat {
    var masked, audio := s.masked, s.audio;
    (t: nat) => if t < minNew then masked(t) else audio(t)
  }

  function StopFrom(draw: nat -> nat, eos: nat, maxNew: nat, n: nat): (r: nat)
    requires n < maxNew && forall i: nat | i < n :: draw(i) != eos
    ensures StopsAt(draw, eos, maxNew, r)
    decreases maxNew - n
  {
    if n == maxNew - 1 || draw(n) == eos then n else StopFrom(draw, eos, maxNew, n + 1)
  }

  lemma SamplerMasks(p: Params, s: Samples, minNew: nat)
    requires Masks(p, s)
    ensures forall t: nat | t < minNew :: Sampler(s, minNew)(t) != p.eos
  {
  }

  /** The audio tokens of a unit. */
  function UnitTokens(p: Params, voice: Voice, endOfTurn: bool, s: Samples): (r: seq<nat>)
    ensures |r| < MAX_UNIT_TOKENS
  {
    var draw := Sampler(s, MinTokens(voice, endOfTurn));
    Drawn(draw, StopFrom(draw, p.eos, MAX_UNIT_TOKENS, 0))
  }

  function Spoken(voice: Voice, cond: seq<Embed>, tokens: seq<nat>, endOfTurn: bool): Voice {
    if endOfTurn then SILENT
    else Voice(voice.pos + |cond| + |tokens|, voice.cache + cond + Codes(tokens), voice.conds + [cond],
               voice.turn + [tokens], voice.used + From(voice.pos, |cond| + |tokens|))
  }

  function Terminators(v: Vocab): set<nat> {
    {v.listen, v.chunkEos, v.chunkTtsEos}
  }

  function Played(p: Params, w: Wav, tokens: seq<nat>, endOfTurn: bool, first: bool): Wav {
    var h := Heard(w, p.lookahead, Terminators(p.config.vocab), tokens, endOfTurn, first);
    if endOfTurn then NewTurn(h) else h
  }

  /** The audio half of a unit. */
  function Speak(p: Params, st: State, u: Unit, s: Samples): State {
    var tokens := UnitTokens(p, st.voice, u.endOfTurn, s);
    st.(voice := Spoken(st.voice, Condition(p, u.hidden), tokens, u.endOfTurn),
        wav := Played(p, st.wav, tokens, u.endOfTurn, st.voice.pos == 0))
  }

  function Step(p: Params, st: State, op: Op): State {
    match op
    case Prefill => st.(pending := true)
    case Generate(stopped, s) =>
      if stopped || !st.pending then st
      else
        var u := DecodeUnit(p.config, st.talk, s.max, s.draw);
        var decoded := st.(talk := u.talk, pending := false);
        if u.isListen || !p.generateAudio then decoded else Speak(p, decoded, u, s)
  }

  function Run(p: Params, st: State, ops: seq<Op>): State
    decreases |ops|
  {
    if ops == [] then st else Run(p, Step(p, st, ops[0]), ops[1..])
  }

  // ---------- invariants ----------

  /** The voice between two units of a turn. */
  predicate InTurn(v: Voice) {
    && |v.conds| == |v.turn| && v.pos == |v.cache| && v.used == From(0, v.pos)
    && v.cache == Interleave(v.conds, v.turn, 0, |v.turn|)
    && (v.pos == 0 <==> v.turn == [])
    && (forall i | 0 <= i < |v.turn| :: |v.turn[i]| < MAX_UNIT_TOKENS && (i > 0 ==> |v.turn[i]| == 25))
  }

  predicate Sane(p: Params, st: State) {
    Sound(p.config, st.talk) && InTurn(st.voice) && Covers(st.wav, p.lookahead) && Open(st.wav)
  }

  lemma {:induction false} InterleaveMore(conds: seq<seq<Embed>>, tokens: seq<seq<nat>>, c: seq<Embed>,
                                          t: seq<nat>, hi: nat)
    requires hi <= |conds| && hi <= |tokens|
    ensures Interleave(conds + [c], tokens + [t], 0, hi) == Interleave(conds, tokens, 0, hi)
  {
    if hi == 0 {
    } else {
      InterleaveMore(conds, tokens, c, t, hi - 1);
    }
  }

  /** Positions go on where they stopped, and the cache holds what was spoken in the order it was. */
  lemma SpokenInTurn(v: Voice, cond: seq<Embed>, tokens: seq<nat>, endOfTurn: bool)
    requires InTurn(v) && cond != [] && |tokens| < MAX_UNIT_TOKENS
    requires v.pos > 0 && !endOfTurn ==> |tokens| == 25
    ensures InTurn(Spoken(v, cond, tokens, endOfTurn))
  {
    if endOfTurn {
      assert From(0, 0) == [];
    } else {
      InterleaveMore(v.conds, v.turn, cond, tokens, |v.turn|);
      FromSplit(0, v.pos, |cond| + |tokens|);
    }
  }

  /** Inside a turn of the voice every unit that does not end it yields exactly 25 tokens. */
  lemma MiddleUnit(p: Params, voice: Voice, endOfTurn: bool, s: Samples)
    requires Masks(p, s)
    ensures voice.pos > 0 && !endOfTurn ==> |UnitTokens(p, voice, endOfTurn, s)| == 25
  {
    var draw := Sampler(s, MinTokens(voice, endOfTurn));
    if voice.pos > 0 && !endOfTurn {
      var n := StopFrom(draw, p.eos, MAX_UNIT_TOKENS, 0);
      assert draw(n) == s.masked(n);
    }
  }

  /**
   The first and the last unit of the voice's turn stop at the first end token, or at 25 tokens; a unit
   between them takes 25 of the samples drawn with the end token masked.
   */
  lemma UnitSamples(p: Params, voice: Voice, endOfTurn: bool, s: Samples)
    requires Masks(p, s)
    ensures var ts := UnitTokens(p, voice, endOfTurn, s);
      if voice.pos == 0 || endOfTurn then StopsAt(s.audio, p.eos, 26, |ts|) && ts == Drawn(s.audio, |ts|)
      else |ts| == 25 && ts == Drawn(s.masked, 25)
  {
    MiddleUnit(p, voice, endOfTurn, s);
    var min := MinTokens(voice, endOfTurn);
    var draw, ts := Sampler(s, min), UnitTokens(p, voice, endOfTurn, s);
    assert StopsAt(draw, p.eos, MAX_UNIT_TOKENS, |ts|);
    if voice.pos == 0 || endOfTurn {
      assert forall t: nat :: draw(t) == s.audio(t);
    } else {
      assert forall t: nat | t < 26 :: draw(t) == s.masked(t);
    }
  }

  lemma PlayedCovers(p: Params, w: Wav, tokens: seq<nat>, endOfTurn: bool, first: bool)
    requires Covers(w, p.lookahead) && Open(w)
    ensures var h := Played(p, w, tokens, endOfTurn, first); Covers(h, p.lookahead) && Open(h)
  {
    hide Heard;
    if w.ready {
      HeardCovers(w, p.lookahead, Terminators(p.config.vocab), tokens, endOfTurn, first);
    } else {
      NotReady(w, p.lookahead, Terminators(p.config.vocab), tokens, endOfTurn, first);
    }
  }

  lemma NotReady(w: Wav, lookahead: nat, terminates: set<nat>, tokens: seq<nat>, last: bool, flush: bool)
    requires !w.ready
    ensures Heard(w, lookahead, terminates, tokens, last, flush) == w
  {
  }

  lemma StepSane(p: Params, st: State, op: Op)
    requires p.config.vocab.Valid() && Sane(p, st) && (op.Generate? ==> Masks(p, op.samples))
    ensures Sane(p, Step(p, st, op))
  {
    hide DecodeUnit, Sound, InTurn, Covers, Open, UnitTokens, Played, Spoken, Masks;
    if op.Generate? && !op.stopped && st.pending {
      var s := op.samples;
      AnswerSound(p.config, st.talk, s.max, s.draw);
      var u := DecodeUnit(p.config, st.talk, s.max, s.draw);
      if !u.isListen && p.generateAudio {
        var tokens := UnitTokens(p, st.voice, u.endOfTurn, s);
        MiddleUnit(p, st.voice, u.endOfTurn, s);
        SpokenInTurn(st.voice, Condition(p, u.hidden), tokens, u.endOfTurn);
        PlayedCovers(p, st.wav, tokens, u.endOfTurn, st.voice.pos == 0);
      }
    }
  }

  lemma {:induction false} RunSane(p: Params, st: State, ops: seq<Op>)
    requires p.config.vocab.Valid() && Sane(p, st) && forall op | op in ops :: op.Generate? ==> Masks(p, op.samples)
    ensures Sane(p, Run(p, st, ops))
    decreases |ops|
  {
    hide Sane, Step, Masks;
    if ops == [] {
    } else {
      StepSane(p, st, ops[0]);
      RunSane(p, Step(p, st, ops[0]), ops[1..]);
    }
  }

  lemma PreparedSane(p: Params, vocoder: bool)
    ensures Sane(p, Prepared(vocoder))
  {
    assert From(0, 0) == [];
  }

  /**
   Whatever is prefilled, sampled and stopped: the position ids used since the voice was last reset
   are 0, 1, 2, ... up to the length of its cache, which is where the next unit starts; all units of
   the turn after the first have 25 tokens; and every token the vocoder got since its last reset has
   been consumed once, in order, or is still in its buffer.
   */
  lemma EveryRun(p: Params, vocoder: bool, ops: seq<Op>)
    requires p.config.vocab.Valid() && forall op | op in ops :: op.Generate? ==> Masks(p, op.samples)
    ensures var st := Run(p, Prepared(vocoder), ops);
      && st.voice.used == From(0, st.voice.pos) && st.voice.pos == |st.voice.cache|
      && (forall i | 0 < i < |st.voice.turn| :: |st.voice.turn[i]| == 25)
      && Strides(st.wav.windows) + st.wav.buffer == st.wav.stream
      && (forall i | 0 <= i < |st.wav.windows| ::
            |st.wav.windows[i].tokens| == st.wav.windows[i].stride + p.lookahead)
  {
    PreparedSane(p, vocoder);
    RunSane(p, Prepared(vocoder), ops);
    var st := Run(p, Prepared(vocoder), ops);
    StridesCover(st.wav, p.lookahead);
    forall i | 0 <= i < |st.wav.windows|
      ensures |st.wav.windows[i].tokens| == st.wav.windows[i].stride + p.lookahead
    {
      assert WindowFits(st.wav, p.lookahead, i);
    }
  }

  /**
   The last unit of a turn, before the vocoder is made ready for the next one: all tokens it got in
   the turn are consumed, and a new turn starts from the silence prefix.
   */
  lemma TurnEndFlushes(p: Params, w: Wav, tokens: seq<nat>, first: bool)
    requires w.ready && Covers(w, p.lookahead) && Open(w)
    ensures var h := Heard(w, p.lookahead, Terminators(p.config.vocab), tokens, true, first);
      && Strides(h.windows) == w.stream + tokens && h.buffer == []
      && Played(p, w, tokens, true, first) == Wav(true, [SILENCE, SILENCE, SILENCE], [SILENCE, SILENCE, SILENCE], 0, [])
  {
    HeardCovers(w, p.lookahead, Terminators(p.config.vocab), tokens, true, first);
    var h := Heard(w, p.lookahead, Terminators(p.config.vocab), tokens, true, first);
    StridesCover(h, p.lookahead);
    assert h.buffer == [];
    assert Strides(h.windows) + [] == Strides(h.windows);
  }

  /**
   A unit that listens, or any when no audio is asked for, leaves voice and vocoder alone. One that speaks and does not end its turn adds its
   condition and its tokens to the voice and the tokens to the vocoder's stream, which is read in full
   strides; only the first unit of the turn, or a terminator among the tokens, has it read further.
   */
  lemma VoicedUnit(p: Params, st: State, s: Samples)
    requires p.config.vocab.Valid() && Sane(p, st) && Masks(p, s) && st.pending
    ensures var u := DecodeUnit(p.config, st.talk, s.max, s.draw);
      var after := Step(p, st, Generate(false, s));
      var ts := UnitTokens(p, st.voice, u.endOfTurn, s);
      var speaks := !u.isListen && p.generateAudio;
      && after.talk == u.talk && !after.pending
      && (!speaks ==> after.voice == st.voice && after.wav == st.wav)
      && (speaks && !u.endOfTurn ==>
            after.voice.conds == st.voice.conds + [Condition(p, u.hidden)] && after.voice.turn == st.voice.turn + [ts])
      && (speaks && !u.endOfTurn && st.wav.ready ==> Fed(p, st.wav, after.wav, ts, st.voice.pos == 0))
  {
    hide DecodeUnit, UnitTokens, Heard, Condition, Covers, Open, Sound, InTurn;
    var u := DecodeUnit(p.config, st.talk, s.max, s.draw);
    var ts := UnitTokens(p, st.voice, u.endOfTurn, s);
    if st.wav.ready {
      HeardReads(st.wav, p.lookahead, Terminators(p.config.vocab), ts, u.endOfTurn, st.voice.pos == 0);
    }
  }

  /** The vocoder has been fed the tokens, and has read as far as it should. */
  ghost predicate Fed(p: Params, before: Wav, after: Wav, tokens: seq<nat>, first: bool) {
    var v := p.config.vocab;
    var eager := first || exists t :: t in tokens && (t == v.listen || t == v.chunkEos || t == v.chunkTtsEos);
    && after.stream == before.stream + tokens && Steady(after.windows, |before.windows|, eager)
    && |after.buffer| < (if eager then p.lookahead + 5 else p.lookahead + 25)
  }

  function Prefills(ops: seq<Op>): nat {
    if ops == [] then 0 else Prefills(ops[1..]) + if ops[0].Prefill? then 1 else 0
  }

  /** Every unit decoded uses up a prefill: a stopped call, or one without logits waiting, changes nothing. */
  lemma {:induction false} DecodesFewer(p: Params, st: State, ops: seq<Op>)
    requires p.config.vocab.Valid()
    ensures var r := Run(p, st, ops);
      r.talk.calls + (if r.pending then 1 else 0) <= st.talk.calls + (if st.pending then 1 else 0) + Prefills(ops)
    ensures (forall op | op in ops :: op.Generate? && (op.stopped || !st.pending)) ==> Run(p, st, ops) == st
    decreases |ops|
  {
    hide DecodeUnit, Speak;
    if ops == [] {
    } else {
      if ops[0].Generate? && !ops[0].stopped && st.pending {
        var said, tail := UnitSays(p.config, st.talk, ops[0].samples.max, ops[0].samples.draw);
        SpeakTalks(p, st, ops[0].samples);
      }
      DecodesFewer(p, Step(p, st, ops[0]), ops[1..]);
    }
  }

  lemma SpeakTalks(p: Params, st: State, s: Samples)
    ensures forall d: State, u: Unit :: Speak(p, d, u, s).talk == d.talk && Speak(p, d, u, s).pending == d.pending
  {
  }

  // ---------- where a turn of the talk and a turn of the voice part ----------

  /**
   A unit that says `<|turn_eos|>` and then listens ends the turn without speaking: its words are not
   voiced, and the voice is left as it was. So after a unit that ends the turn the voice starts afresh
   exactly when that unit spoke or the voice had not started.
   */
  lemma TurnEndFreesVoice(p: Params, st: State, s: Samples)
    requires p.config.vocab.Valid() && Sane(p, st) && Masks(p, s) && st.pending && p.generateAudio
    ensures var u := DecodeUnit(p.config, st.talk, s.max, s.draw);
      var after := Step(p, st, Generate(false, s));
      u.endOfTurn ==> after.talk.ended && (after.voice.pos == 0 <==> (!u.isListen || st.voice.pos == 0))
  {
    hide DecodeUnit, Played, UnitTokens;
    var said, tail := UnitSays(p.config, st.talk, s.max, s.draw);
  }

  const WORDS := Vocab(1, 2, 3, 4, 5, 6, 7)
  const EXPLICIT := Config(WORDS, true, 0)

  /** The unit ends the turn, listens, and has words that are never voiced. */
  ghost predicate EndsUnvoiced(c: Config, t: Talk, s: Samples) {
    var u := DecodeUnit(c, t, s.max, s.draw);
    u.endOfTurn && u.isListen && u.hidden != [] && u.talk.ended
  }

  /** Such a unit is one sample sequence away from every state. */
  lemma TurnEndThenListen() returns (s: Samples)
    ensures Masks(Params(EXPLICIT, true, 8, 9, 3), s) && forall t: Talk :: EndsUnvoiced(EXPLICIT, t, s)
  {
    s := Samples(20, (j: nat) => if j == 0 then 5 else if j == 1 then 4 else 1, (t: nat) => 9, (t: nat) => 0);
    forall t: Talk ensures EndsUnvoiced(EXPLICIT, t, s) {
      TurnEndThenListenFrom(t, s);
    }
  }

  lemma TurnEndThenListenFrom(t: Talk, s: Samples)
    requires s.max == 20 && s.draw(0) == 5 && s.draw(1) == 4 && forall j: nat | j >= 2 :: s.draw(j) == 1
    ensures EndsUnvoiced(EXPLICIT, t, s)
  {
    var u0 := Started(t);
    var u1 := Continued(EXPLICIT, u0, 0, 5);
    var u2 := Continued(EXPLICIT, u1, 1, 4);
    assert DecodeFrom(EXPLICIT, false, u2, 2, 20, s.draw) == Terminated(EXPLICIT, u2, 1);
    assert DecodeFrom(EXPLICIT, false, u1, 1, 20, s.draw) == DecodeFrom(EXPLICIT, false, u2, 2, 20, s.draw);
    assert DecodeFrom(EXPLICIT, false, u0, 0, 20, s.draw) == DecodeFrom(EXPLICIT, false, u1, 1, 20, s.draw);
  }

  // ---------- the object ----------

  /** What the vocoder is called with: tokens, and whether they are the last of the turn. */
  type Piece = (seq<nat>, bool)

  function Pieces(ws: seq<Window>): (r: seq<Piece>)
    ensures |r| == |ws|
  {
    seq(|ws|, i requires 0 <= i < |ws| => (ws[i].tokens, ws[i].last))
  }

  lemma PiecesMore(ws: seq<Window>, x: Window)
    ensures Pieces(ws + [x]) == Pieces(ws) + [(x.tokens, x.last)]
  {
  }

  class DuplexModel {
    const p: Params
    var audioReady: bool
    var currentTurnEnded: bool
    var speakCount: nat
    var resIds: seq<nat>
    var totalIds: seq<nat>
    var fed: seq<nat>
    var generateCount: nat
    var pendingLogits: bool
    var ttsTextStartPos: nat
    var ttsPast: seq<Embed>
    var token2wavBuffer: seq<nat>
    ghost var said: seq<nat>
    ghost var units: seq<seq<nat>>
    ghost var voiceLog: Voice
    ghost var wavLog: Wav

    ghost function Now(): State
      reads this
    {
      State(TalkState(), voiceLog.(pos := ttsTextStartPos, cache := ttsPast), WavState(), pendingLogits)
    }

    ghost function TalkState(): Talk
      reads this
    {
      Talk(currentTurnEnded, totalIds, resIds, speakCount, generateCount, fed, said, units)
    }

    ghost function WavState(): Wav
      reads this
    {
      wavLog.(ready := audioReady, buffer := token2wavBuffer)
    }

    ghost predicate Valid()
      reads this
    {
      p.config.vocab.Valid() && Sane(p, Now())
    }

    /** `_reset_streaming_state` and `prepare` */
    constructor (p: Params, vocoder: bool)
      requires p.config.vocab.Valid()
      ensures Now() == Prepared(vocoder) && this.p == p && Valid()
    {
      this.p := p;
      audioReady := vocoder;
      currentTurnEnded, speakCount, resIds, totalIds, fed := true, 0, [], [], [];
      generateCount, pendingLogits := 0, false;
      ttsTextStartPos, ttsPast := 0, [];
      token2wavBuffer := if vocoder then [SILENCE, SILENCE, SILENCE] else [];
      said, units, voiceLog, wavLog := [], [], SILENT, NewTurn(Wav(vocoder, [], [], 0, []));
      new;
      PreparedSane(p, vocoder);
    }

    /** The end of `streaming_prefill`: logits wait for `streaming_generate`. */
    method Prefill()
      requires Valid()
      modifies this`pendingLogits
      ensures Now() == Step(p, old(Now()), Op.Prefill) && Valid()
    {
      pendingLogits := true;
    }

    /** One non-terminator token. */
    method Say(id: nat)
      modifies this`currentTurnEnded, this`speakCount, this`resIds, this`totalIds, this`fed, this`said
      ensures forall j: nat, hidden: seq<nat>, isListen: bool, endOfTurn: bool ::
        Unit(TalkState(), if j != 0 then hidden + [id] else hidden,
             id == p.config.vocab.listen, id == p.config.vocab.turnEos)
        == Continued(p.config, Unit(old(TalkState()), hidden, isListen, endOfTurn), j, id)
    {
      totalIds := totalIds + [id];
      currentTurnEnded := false;
      if id != p.config.vocab.speak {
        resIds := resIds + [id];
        speakCount := speakCount + 1;
      }
      fed, said := fed + [id], said + [id];
      if id == p.config.vocab.turnEos { currentTurnEnded := true; }
    }

    /** A terminator, fed back in explicit mode only. */
    method Terminate(id: nat, feed: bool)
      modifies this`totalIds, this`fed
      ensures TalkState() == old(TalkState()).(total := old(totalIds) + [id],
                                               fed := if feed then old(fed) + [id] else old(fed))
    {
      totalIds := totalIds + [id];
      if feed { fed := fed + [id]; }
    }

    /** The decoding loop of `streaming_generate`. */
    method DecodeLoop(forced: bool, max: int, draw: nat -> nat)
      returns (hidden: seq<nat>, isListen: bool, endOfTurn: bool)
      modifies this`currentTurnEnded, this`speakCount, this`resIds, this`totalIds, this`fed, this`said
      ensures Unit(TalkState(), hidden, isListen, endOfTurn)
              == DecodeFrom(p.config, forced, Unit(old(TalkState()), [], false, false), 0, max, draw)
    {
      hide Continued;
      hidden, isListen, endOfTurn := [], false, false;
      var j: nat := 0;
      while j < max
        invariant DecodeFrom(p.config, forced, Unit(TalkState(), hidden, isListen, endOfTurn), j, max, draw)
                  == DecodeFrom(p.config, forced, Unit(old(TalkState()), [], false, false), 0, max, draw)
      {
        if j == max - 1 && p.config.explicit {
          Terminate(p.config.vocab.chunkEos, true);
          return;
        }
        var lastId := p.config.vocab.listen;
        if !forced {
          lastId := draw(j);
          if lastId == p.config.vocab.listen && !currentTurnEnded { lastId := p.config.vocab.ttsBos; }
        }
        isListen := lastId == p.config.vocab.listen;
        if p.config.vocab.Terminates(lastId) {
          Terminate(lastId, p.config.explicit);
          return;
        }
        Say(lastId);
        endOfTurn := lastId == p.config.vocab.turnEos;
        if j != 0 { hidden := hidden + [lastId]; }
        j := j + 1;
      }
    }

    /** One call of the vocoder on the first `n` tokens of the buffer, which then moves on by `stride`. */
    method Stream(n: nat, stride: nat) returns (piece: Piece)
      requires p.lookahead + 5 <= |token2wavBuffer|
      requires n == Min(CHUNK_SIZE + p.lookahead, |token2wavBuffer|) && stride == Min(CHUNK_SIZE, n - p.lookahead)
      modifies this`token2wavBuffer, this`wavLog
      ensures WavState() == Taken(old(WavState()), p.lookahead)
      ensures Pieces(WavState().windows) == Pieces(old(WavState()).windows) + [piece]
      ensures |token2wavBuffer| < |old(token2wavBuffer)|
    {
      hide Pieces;
      piece := (token2wavBuffer[..n], false);
      PiecesMore(wavLog.windows, Window(wavLog.done, stride, piece.0, piece.1));
      wavLog := wavLog.(windows := wavLog.windows + [Window(wavLog.done, stride, piece.0, piece.1)],
                        done := wavLog.done + stride);
      token2wavBuffer := token2wavBuffer[stride..];
    }

    /** The two reading loops of `_generate_waveform_from_tokens`. */
    method Drain(flush: bool) returns (pieces: seq<Piece>)
      modifies this`token2wavBuffer, this`wavLog
      ensures WavState() == Drained(old(WavState()), p.lookahead, flush)
      ensures Pieces(WavState().windows) == Pieces(old(WavState()).windows) + pieces
    {
      hide Taken, Pieces;
      pieces := [];
      if flush {
        while |token2wavBuffer| >= p.lookahead + 5
          invariant Drained(WavState(), p.lookahead, flush) == Drained(old(WavState()), p.lookahead, flush)
          invariant Pieces(WavState().windows) == Pieces(old(WavState()).windows) + pieces
          decreases |token2wavBuffer|
        {
          var chunkToProcess := Min(CHUNK_SIZE + p.lookahead, |token2wavBuffer|);
          var piece := Stream(chunkToProcess, Min(CHUNK_SIZE, chunkToProcess - p.lookahead));
          pieces := pieces + [piece];
        }
      } else {
        while |token2wavBuffer| >= CHUNK_SIZE + p.lookahead
          invariant Drained(WavState(), p.lookahead, flush) == Drained(old(WavState()), p.lookahead, flush)
          invariant Pieces(WavState().windows) == Pieces(old(WavState()).windows) + pieces
          decreases |token2wavBuffer|
        {
          var piece := Stream(CHUNK_SIZE + p.lookahead, CHUNK_SIZE);
          pieces := pieces + [piece];
        }
      }
    }

    /** `_generate_waveform_from_tokens`: what the vocoder is called with, in order. */
    method GenerateWaveform(newTokens: seq<nat>, isLast: bool, forceFlush: bool) returns (pieces: seq<Piece>)
      modifies this`token2wavBuffer, this`wavLog
      ensures WavState()
              == Heard(old(WavState()), p.lookahead, Terminators(p.config.vocab), newTokens, isLast, forceFlush)
      ensures Pieces(WavState().windows) == Pieces(old(WavState()).windows) + pieces
    {
      hide Drained, Terminators, Pieces;
      pieces := [];
      if !audioReady { return; }
      wavLog := wavLog.(stream := wavLog.stream + newTokens);
      token2wavBuffer := token2wavBuffer + newTokens;
      pieces := Drain(forceFlush || HasTerminator(Terminators(p.config.vocab), newTokens));
      if isLast && |token2wavBuffer| > 0 {
        var piece: Piece := (token2wavBuffer, true);
        PiecesMore(WavState().windows, Window(wavLog.done, |token2wavBuffer|, piece.0, piece.1));
        wavLog := wavLog.(windows := wavLog.windows + [Window(wavLog.done, |token2wavBuffer|, piece.0, piece.1)],
                          done := wavLog.done + |token2wavBuffer|);
        token2wavBuffer := [];
        pieces := pieces + [piece];
      }
    }

    /** `_reset_token2wav_for_new_turn` */
    method ResetToken2Wav()
      modifies this`token2wavBuffer, this`wavLog
      ensures WavState() == NewTurn(old(WavState()))
    {
      if audioReady {
        wavLog := NewTurn(WavState());
        token2wavBuffer := [SILENCE, SILENCE, SILENCE];
      }
    }

    /** The speech model's half of a unit: generate, then move the cache on or reset it. */
    method GenerateSpeech(hidden: seq<nat>, endOfTurn: bool, s: Samples)
      returns (tokens: seq<nat>, forceFlush: bool, positions: seq<nat>)
      requires Masks(p, s)
      modifies this`ttsTextStartPos, this`ttsPast, this`voiceLog
      ensures tokens == UnitTokens(p, old(Now()).voice, endOfTurn, s)
      ensures forceFlush == (old(ttsTextStartPos) == 0)
      ensures positions == From(old(ttsTextStartPos), |hidden| + 1 + |tokens|)
      ensures Now().voice == Spoken(old(Now()).voice, Condition(p, hidden), tokens, endOfTurn)
    {
      hide Sampler, Masks, From, Codes, Drawn, StopsAt, StopFrom, Condition;
      var condition := Condition(p, hidden);
      var minTokens := MAX_UNIT_TOKENS;
      if endOfTurn { minTokens := 0; }
      forceFlush := false;
      if ttsTextStartPos == 0 {
        minTokens := 0;
        forceFlush := true;
      }
      var draw := Sampler(s, minTokens);
      SamplerMasks(p, s, minTokens);
      var kv;
      tokens, kv, positions :=
        GenerateChunk(condition, MAX_UNIT_TOKENS, minTokens, ttsPast, p.eos, ttsTextStartPos, draw);
      StopUnique(draw, p.eos, MAX_UNIT_TOKENS, |tokens|, StopFrom(draw, p.eos, MAX_UNIT_TOKENS, 0));
      if endOfTurn {
        ttsTextStartPos, ttsPast, voiceLog := 0, [], SILENT;
      } else {
        ttsPast := kv;
        ttsTextStartPos := ttsTextStartPos + |condition| + |tokens|;
        voiceLog := voiceLog.(conds := voiceLog.conds + [condition], turn := voiceLog.turn + [tokens],
                              used := voiceLog.used + positions);
      }
    }

    /** `streaming_generate` */
    method StreamingGenerate(stopped: bool, s: Samples)
      requires Valid() && Masks(p, s)
      modifies this
      ensures Now() == Step(p, old(Now()), Generate(stopped, s)) && Valid()
    {
      StepSane(p, Now(), Generate(stopped, s));
      hide Sane, Masks, DecodeUnit, Speak;
      if stopped || !pendingLogits { return; }
      GenerateUnit(s);
    }

    /** `streaming_generate` once nothing stops it. */
    method GenerateUnit(s: Samples)
      requires Masks(p, s) && pendingLogits
      modifies this
      ensures Now() == Step(p, old(Now()), Generate(false, s))
    {
      hide DecodeUnit, Speak, Masks;
      var hidden, isListen, endOfTurn := DecodeAndClose(s.max, s.draw);
      if isListen || !p.generateAudio { return; }
      SpeakUnit(hidden, endOfTurn, s, DecodeUnit(p.config, old(TalkState()), s.max, s.draw));
    }

    /** The audio half of `streaming_generate`. */
    method SpeakUnit(hidden: seq<nat>, endOfTurn: bool, s: Samples, ghost u: Unit)
      requires Masks(p, s) && u.hidden == hidden && u.endOfTurn == endOfTurn
      modifies this`ttsTextStartPos, this`ttsPast, this`voiceLog, this`token2wavBuffer, this`wavLog
      ensures Now() == Speak(p, old(Now()), u, s)
    {
      hide Heard, Spoken, UnitTokens, NewTurn, Condition, Masks;
      var tokens, forceFlush, positions := GenerateSpeech(hidden, endOfTurn, s);
      var pieces := GenerateWaveform(tokens, endOfTurn, forceFlush);
      if endOfTurn { ResetToken2Wav(); }
    }

    /** The language-model half of `streaming_generate`. */
    method DecodeAndClose(max: int, draw: nat -> nat) returns (hidden: seq<nat>, isListen: bool, endOfTurn: bool)
      modifies this`pendingLogits, this`generateCount, this`currentTurnEnded, this`speakCount, this`resIds,
        this`totalIds, this`fed, this`said, this`units
      ensures Unit(TalkState(), hidden, isListen, endOfTurn) == DecodeUnit(p.config, old(TalkState()), max, draw)
      ensures !pendingLogits
    {
      hide DecodeFrom;
      pendingLogits := false;
      var forceListen := generateCount < p.config.forceListen;
      generateCount := generateCount + 1;
      hidden, isListen, endOfTurn := DecodeLoop(forceListen, max, draw);
      ghost var before := old(TalkState());
      units := Closed(p.config, before, Unit(TalkState(), hidden, isListen, endOfTurn)).talk.units;
      fed, totalIds := fed + [p.config.vocab.unitEnd], totalIds + [p.config.vocab.unitEnd];
    }
  }
}
