/**
 The listen/speak loop of the duplex model: which tokens a unit generates, what is fed back to the
 decoder, and the flag that says whether the assistant's turn has ended.
 */
module DuplexDecode {
  import opened Sequences

  type Token = nat

  /** The special tokens. The tokenizer gives `<|listen|>` an id that `<|tts_bos|>` and `<|chunk_eos|>` do not have. */
  datatype Vocab = Vocab(listen: Token, chunkEos: Token, chunkTtsEos: Token, turnEos: Token, speak: Token,
                         ttsBos: Token, unitEnd: Token)
  {
    predicate Valid() {
      listen != ttsBos && listen != chunkEos && !Terminates(unitEnd)
    }

    predicate Terminates(id: Token) {
      id == listen || id == chunkEos || id == chunkTtsEos
    }
  }

  /**
   The fields of the decoding loop. `fed` are the generation tokens the decoder has been given;
   `said` (non-terminator tokens) and `units` (tokens of each unit) are logs the model keeps beside them.
   */
  datatype Talk = Talk(ended: bool, total: seq<Token>, res: seq<Token>, speakCount: nat, calls: nat,
                       fed: seq<Token>, said: seq<Token>, units: seq<seq<Token>>)

  /** `_reset_streaming_state` */
  const RESET := Talk(true, [], [], 0, 0, [], [], [])

  /** The locals of one unit. */
  datatype Unit = Unit(talk: Talk, hidden: seq<Token>, isListen: bool, endOfTurn: bool)

  datatype Config = Config(vocab: Vocab, explicit: bool, forceListen: int)

  /** The token generated when `drawn` is what the decoder samples. */
  function Chosen(v: Vocab, forced: bool, ended: bool, drawn: Token): Token {
    if forced then v.listen
    else if drawn == v.listen && !ended then v.ttsBos
    else drawn
  }

  function Terminated(c: Config, u: Unit, id: Token): Unit {
    u.(talk := u.talk.(total := u.talk.total + [id], fed := if c.explicit then u.talk.fed + [id] else u.talk.fed),
       isListen := id == c.vocab.listen)
  }

  function Continued(c: Config, u: Unit, j: nat, id: Token): Unit {
    var t := u.talk;
    var end := id == c.vocab.turnEos;
    Unit(t.(ended := end, total := t.total + [id], fed := t.fed + [id], said := t.said + [id],
            res := if id == c.vocab.speak then t.res else t.res + [id],
            speakCount := if id == c.vocab.speak then t.speakCount else t.speakCount + 1),
         if j != 0 then u.hidden + [id] else u.hidden, id == c.vocab.listen, end)
  }

  /** The decoding loop from step j on. */
  function DecodeFrom(c: Config, forced: bool, u: Unit, j: nat, max: int, draw: nat -> Token): Unit
    decreases max - j
  {
    if j >= max then u
    else if j == max - 1 && c.explicit then
      u.(talk := u.talk.(total := u.talk.total + [c.vocab.chunkEos], fed := u.talk.fed + [c.vocab.chunkEos]))
    else
      var id := Chosen(c.vocab, forced, u.talk.ended, draw(j));
      if c.vocab.Terminates(id) then Terminated(c, u, id)
      else DecodeFrom(c, forced, Continued(c, u, j, id), j + 1, max, draw)
  }

  function Forced(c: Config, t: Talk): bool {
    t.calls < c.forceListen
  }

  function Started(t: Talk): Unit {
    Unit(t.(calls := t.calls + 1), [], false, false)
  }

  /** The `</unit>` token closes the unit. */
  function Closed(c: Config, before: Talk, u: Unit): Unit {
    var total := u.talk.total + [c.vocab.unitEnd];
    var tail := if |before.total| <= |total| then total[|before.total|..] else [];
    u.(talk := u.talk.(total := total, fed := u.talk.fed + [c.vocab.unitEnd], units := before.units + [tail]))
  }

  /** The language-model half of one `streaming_generate` call. */
  function DecodeUnit(c: Config, t: Talk, max: int, draw: nat -> Token): Unit {
    Closed(c, t, DecodeFrom(c, Forced(c, t), Started(t), 0, max, draw))
  }

  // ---------- what a unit generates, said without the loop ----------

  /**
   A unit says tokens `said` and then `tail`, the terminator that stopped it if any. A listen sampled
   while the turn goes on is turned into `<|tts_bos|>`; a forced unit only listens.
   */
  ghost predicate Generates(c: Config, forced: bool, ended: bool, max: int, draw: nat -> Token,
                            said: seq<Token>, tail: seq<Token>)
  {
    SaysFrom(c, forced, ended, draw, said) && StopsWith(c, forced, ended, max, draw, said, tail)
  }

  /** Each token said is the one sampled at its step, or `<|tts_bos|>` for a listen inside a turn. */
  ghost predicate SaysFrom(c: Config, forced: bool, ended: bool, draw: nat -> Token, said: seq<Token>) {
    forall i | 0 <= i < |said| ::
      && !forced && said[i] != c.vocab.listen && said[i] != c.vocab.chunkEos && said[i] != c.vocab.chunkTtsEos
      && said[i] == (if draw(i) == c.vocab.listen then c.vocab.ttsBos else draw(i))
      && (draw(i) == c.vocab.listen ==> !TurnOver(c.vocab, ended, said[..i]))
  }

  /**
   What ends the unit: the limit, the chunk end put in its last place in explicit mode, or a terminator:
   the listen of a forced unit, or one of the three as sampled, no listen inside a turn.
   */
  predicate StopsWith(c: Config, forced: bool, ended: bool, max: int, draw: nat -> Token,
                      said: seq<Token>, tail: seq<Token>)
  {
    var n := |said|;
    if max <= n then tail == [] && (n == 0 || (n == max && !c.explicit))
    else if c.explicit && n == max - 1 then tail == [c.vocab.chunkEos]
    else if forced then tail == [c.vocab.listen]
    else if draw(n) == c.vocab.listen && !TurnOver(c.vocab, ended, said) then
      tail == [c.vocab.ttsBos] && (c.vocab.ttsBos == c.vocab.chunkEos || c.vocab.ttsBos == c.vocab.chunkTtsEos)
    else
      tail == [draw(n)]
      && (draw(n) == c.vocab.listen || draw(n) == c.vocab.chunkEos || draw(n) == c.vocab.chunkTtsEos)
  }

  /** Whether the turn is over after saying `said`. */
  predicate TurnOver(v: Vocab, ended: bool, said: seq<Token>) {
    if said == [] then ended else said[|said| - 1] == v.turnEos
  }

  /** How far a unit has come from the state `t` it started in, having said `said`. */
  predicate Saying(c: Config, t: Talk, u: Unit, said: seq<Token>) {
    && u.talk.total == t.total + said && u.talk.said == t.said + said
    && u.talk.ended == TurnOver(c.vocab, t.ended, said)
    && u.talk.units == t.units && u.talk.calls == t.calls + 1
    && u.hidden == (if said == [] then [] else said[1..])
    && u.endOfTurn == (said != [] && said[|said| - 1] == c.vocab.turnEos)
    && !u.isListen
  }

  /** A finished unit, before it is closed. */
  predicate Said(c: Config, t: Talk, u: Unit, said: seq<Token>, tail: seq<Token>) {
    && u.talk.total == t.total + said + tail && u.talk.said == t.said + said
    && u.talk.ended == TurnOver(c.vocab, t.ended, said)
    && u.talk.units == t.units && u.talk.calls == t.calls + 1
    && u.hidden == (if said == [] then [] else said[1..])
    && u.endOfTurn == (said != [] && said[|said| - 1] == c.vocab.turnEos)
    && u.isListen == (tail == [c.vocab.listen])
  }

  lemma SaysFromGrows(c: Config, forced: bool, ended: bool, draw: nat -> Token, said: seq<Token>, id: Token)
    requires SaysFrom(c, forced, ended, draw, said)
    requires id == Chosen(c.vocab, forced, TurnOver(c.vocab, ended, said), draw(|said|)) && !c.vocab.Terminates(id)
    ensures SaysFrom(c, forced, ended, draw, said + [id])
  {
    forall i | 0 <= i <= |said| ensures (said + [id])[..i] == said[..i] {}
    assert said[..|said|] == said;
  }

  lemma SayingGrows(c: Config, t: Talk, u: Unit, said: seq<Token>, id: Token)
    requires Saying(c, t, u, said) && !c.vocab.Terminates(id)
    ensures Saying(c, t, Continued(c, u, |said|, id), said + [id])
  {
    assert t.total + said + [id] == t.total + (said + [id]);
    assert t.said + said + [id] == t.said + (said + [id]);
    if said != [] { assert (said + [id])[1..] == said[1..] + [id]; } else { assert [id][1..] == []; }
  }

  lemma EndedNow(c: Config, t: Talk, u: Unit, said: seq<Token>)
    requires Saying(c, t, u, said)
    ensures u.talk.ended == TurnOver(c.vocab, t.ended, said)
  {
  }

  lemma LimitSays(c: Config, t: Talk, u: Unit, said: seq<Token>)
    requires Saying(c, t, u, said)
    ensures Said(c, t, u, said, [])
  {
    assert t.total + said + [] == t.total + said;
  }

  lemma ChunkEndSays(c: Config, t: Talk, u: Unit, said: seq<Token>)
    requires c.vocab.Valid() && Saying(c, t, u, said)
    ensures var end := u.talk.(total := u.talk.total + [c.vocab.chunkEos], fed := u.talk.fed + [c.vocab.chunkEos]);
      Said(c, t, u.(talk := end), said, [c.vocab.chunkEos])
  {
  }

  lemma TerminatorSays(c: Config, t: Talk, u: Unit, said: seq<Token>, id: Token)
    requires Saying(c, t, u, said)
    ensures Said(c, t, Terminated(c, u, id), said, [id])
  {
    assert ([id] == [c.vocab.listen]) == (id == c.vocab.listen) by { assert [id][0] == id; }
  }

  lemma TerminatorStops(c: Config, forced: bool, ended: bool, max: int, draw: nat -> Token, said: seq<Token>)
    requires c.vocab.Valid() && |said| < max && !(c.explicit && |said| == max - 1)
    requires c.vocab.Terminates(Chosen(c.vocab, forced, TurnOver(c.vocab, ended, said), draw(|said|)))
    ensures StopsWith(c, forced, ended, max, draw, said,
                      [Chosen(c.vocab, forced, TurnOver(c.vocab, ended, said), draw(|said|))])
  {
  }

  lemma {:induction false} DecodeSays(c: Config, forced: bool, t: Talk, u: Unit, said0: seq<Token>, max: int,
                                      draw: nat -> Token)
    returns (said: seq<Token>, tail: seq<Token>)
    requires c.vocab.Valid() && Saying(c, t, u, said0) && SaysFrom(c, forced, t.ended, draw, said0)
    requires said0 == [] || |said0| < max || (|said0| == max && !c.explicit)
    ensures Generates(c, forced, t.ended, max, draw, said, tail)
    ensures Said(c, t, DecodeFrom(c, forced, u, |said0|, max, draw), said, tail)
    decreases max - |said0|
  {
    var j := |said0|;
    hide SaysFrom, Saying, Said, Chosen, TurnOver, Terminated, Continued;
    EndedNow(c, t, u, said0);
    if j >= max {
      said, tail := said0, [];
      LimitSays(c, t, u, said0);
    } else if j == max - 1 && c.explicit {
      said, tail := said0, [c.vocab.chunkEos];
      ChunkEndSays(c, t, u, said0);
    } else {
      var id := Chosen(c.vocab, forced, u.talk.ended, draw(j));
      if c.vocab.Terminates(id) {
        said, tail := said0, [id];
        TerminatorSays(c, t, u, said0, id);
        TerminatorStops(c, forced, t.ended, max, draw, said0);
      } else {
        SaysFromGrows(c, forced, t.ended, draw, said0, id);
        SayingGrows(c, t, u, said0, id);
        said, tail := DecodeSays(c, forced, t, Continued(c, u, j, id), said0 + [id], max, draw);
      }
    }
  }

  /** A unit generates what the rule says, hands all but its first token on to the voice, and logs itself. */
  lemma UnitSays(c: Config, t: Talk, max: int, draw: nat -> Token) returns (said: seq<Token>, tail: seq<Token>)
    requires c.vocab.Valid()
    ensures Generates(c, t.calls < c.forceListen, t.ended, max, draw, said, tail)
    ensures var u := DecodeUnit(c, t, max, draw);
      && u.talk.total == t.total + said + tail + [c.vocab.unitEnd]
      && u.talk.units == t.units + [said + tail + [c.vocab.unitEnd]]
      && u.talk.said == t.said + said && u.talk.ended == TurnOver(c.vocab, t.ended, said)
      && u.talk.calls == t.calls + 1
      && u.hidden == (if said == [] then [] else said[1..])
      && u.endOfTurn == (said != [] && said[|said| - 1] == c.vocab.turnEos)
      && u.isListen == (tail == [c.vocab.listen])
  {
    hide Generates, DecodeFrom, TurnOver;
    said, tail := FromStart(c, t, max, draw);
    UnitClosed(t.total, said, tail, [c.vocab.unitEnd]);
  }

  lemma UnitClosed<T>(before: seq<T>, said: seq<T>, tail: seq<T>, end: seq<T>)
    ensures (before + said + tail + end)[|before|..] == said + tail + end
  {
    assert before + said + tail + end == before + (said + tail + end);
  }

  lemma FromStart(c: Config, t: Talk, max: int, draw: nat -> Token) returns (said: seq<Token>, tail: seq<Token>)
    requires c.vocab.Valid()
    ensures Generates(c, Forced(c, t), t.ended, max, draw, said, tail)
    ensures Said(c, t, DecodeFrom(c, Forced(c, t), Started(t), 0, max, draw), said, tail)
  {
    hide Generates, DecodeFrom;
    assert t.total + [] == t.total && t.said + [] == t.said;
    said, tail := DecodeSays(c, Forced(c, t), t, Started(t), [], max, draw);
  }

  // ---------- what the decoder is fed ----------

  /** Terminators left out, as when they are not fed back. */
  function Unterminated(v: Vocab, ids: seq<Token>): (r: seq<Token>)
    ensures forall id | id in r :: id != v.listen && id != v.chunkEos && id != v.chunkTtsEos
  {
    if ids == [] then []
    else
      var rest := Unterminated(v, ids[..|ids| - 1]);
      var id := ids[|ids| - 1];
      if v.Terminates(id) then rest else rest + [id]
  }

  lemma UnterminatedAppend(v: Vocab, ids: seq<Token>, id: Token)
    ensures Unterminated(v, ids + [id])
            == if v.Terminates(id) then Unterminated(v, ids) else Unterminated(v, ids) + [id]
  {
    assert (ids + [id])[..|ids|] == ids;
  }

  /** The tokens that make up the reply: what was said without `<|speak|>`. */
  function Reply(v: Vocab, said: seq<Token>): (r: seq<Token>)
    ensures |r| <= |said| && v.speak !in r
  {
    if said == [] then []
    else
      var rest := Reply(v, said[..|said| - 1]);
      var id := said[|said| - 1];
      if id == v.speak then rest else rest + [id]
  }

  lemma ReplyAppend(v: Vocab, said: seq<Token>, id: Token)
    ensures Reply(v, said + [id]) == if id == v.speak then Reply(v, said) else Reply(v, said) + [id]
  {
    assert (said + [id])[..|said|] == said;
  }

  /** What has none of those tokens is left as it is. */
  lemma {:induction false} KeptWhole(v: Vocab, ids: seq<Token>)
    ensures (forall id | id in ids :: id != v.listen && id != v.chunkEos && id != v.chunkTtsEos) ==>
      Unterminated(v, ids) == ids
    ensures v.speak !in ids ==> Reply(v, ids) == ids
  {
    if ids == [] {
    } else {
      var front := ids[..|ids| - 1];
      KeptWhole(v, front);
      assert ids == front + [ids[|ids| - 1]];
      assert ids[|ids| - 1] in ids && forall id | id in front :: id in ids;
    }
  }

  /** The bookkeeping every step of the loop keeps. */
  predicate Booked(c: Config, t: Talk) {
    && t.res == Reply(c.vocab, t.said) && t.speakCount == |t.res|
    && t.fed == (if c.explicit then t.total else Unterminated(c.vocab, t.total))
  }

  lemma {:induction false} DecodeBooked(c: Config, forced: bool, u: Unit, j: nat, max: int, draw: nat -> Token)
    requires Booked(c, u.talk)
    ensures Booked(c, DecodeFrom(c, forced, u, j, max, draw).talk)
    decreases max - j
  {
    hide Reply, Unterminated;
    if j >= max {
    } else if j == max - 1 && c.explicit {
    } else {
      var id := Chosen(c.vocab, forced, u.talk.ended, draw(j));
      UnterminatedAppend(c.vocab, u.talk.total, id);
      if !c.vocab.Terminates(id) {
        ReplyAppend(c.vocab, u.talk.said, id);
        DecodeBooked(c, forced, Continued(c, u, j, id), j + 1, max, draw);
      }
    }
  }

  // ---------- every run ----------

  /** One call of `streaming_generate`: stopped before it starts, or decoding with the given samples. */
  datatype Call = Stopped | Decode(max: int, draw: nat -> Token)

  function Answer(c: Config, t: Talk, call: Call): Talk {
    match call
    case Stopped => t
    case Decode(max, draw) => DecodeUnit(c, t, max, draw).talk
  }

  function AnswerAll(c: Config, t: Talk, calls: seq<Call>): Talk
    decreases |calls|
  {
    if calls == [] then t else AnswerAll(c, Answer(c, t, calls[0]), calls[1..])
  }

  /** What holds between calls. */
  predicate Sound(c: Config, t: Talk) {
    && Booked(c, t)
    && t.ended == TurnOver(c.vocab, true, t.said)
    && (t.calls <= c.forceListen ==> t.said == [] && t.ended)
    && t.total == Flatten(t.units)
    && Ends(c.vocab, t.units)
  }

  predicate Ends(v: Vocab, units: seq<seq<Token>>) {
    forall u | u in units :: u != [] && u[|u| - 1] == v.unitEnd
  }

  lemma TurnOverJoin(v: Vocab, said: seq<Token>, more: seq<Token>)
    ensures TurnOver(v, TurnOver(v, true, said), more) == TurnOver(v, true, said + more)
  {
    if more == [] { assert said + more == said; }
  }

  /** A forced unit says nothing, and no unit listens inside a turn. */
  lemma ListensBetweenTurns(c: Config, forced: bool, ended: bool, max: int, draw: nat -> Token,
                            said: seq<Token>, tail: seq<Token>)
    requires c.vocab.Valid() && Generates(c, forced, ended, max, draw, said, tail) && (forced ==> ended)
    ensures forced ==> said == []
    ensures tail == [c.vocab.listen] ==> TurnOver(c.vocab, ended, said)
  {
    assert said != [] ==> !c.vocab.Terminates(said[0]);
    assert tail == [c.vocab.listen] ==> tail[0] == c.vocab.listen;
  }

  lemma AnswerSound(c: Config, t: Talk, max: int, draw: nat -> Token)
    requires c.vocab.Valid() && Sound(c, t)
    ensures var u := DecodeUnit(c, t, max, draw);
      Sound(c, u.talk) && (u.isListen ==> u.talk.ended)
  {
    hide DecodeUnit, Booked, Generates, SaysFrom, StopsWith, TurnOver, Flatten, Ends, Reply, Unterminated;
    var said, tail := UnitSays(c, t, max, draw);
    BookedUnit(c, t, max, draw);
    ListensBetweenTurns(c, Forced(c, t), t.ended, max, draw, said, tail);
    TurnOverJoin(c.vocab, t.said, said);
    UnitLogged(c, t, DecodeUnit(c, t, max, draw).talk, said + tail);
    if t.calls < c.forceListen { assert t.said + said == []; }
  }

  lemma UnitLogged(c: Config, t: Talk, u: Talk, ids: seq<Token>)
    requires t.total == Flatten(t.units) && Ends(c.vocab, t.units)
    requires u.total == t.total + ids + [c.vocab.unitEnd] && u.units == t.units + [ids + [c.vocab.unitEnd]]
    ensures u.total == Flatten(u.units) && Ends(c.vocab, u.units)
  {
    assert u.units[..|u.units| - 1] == t.units;
    assert t.total + ids + [c.vocab.unitEnd] == t.total + (ids + [c.vocab.unitEnd]);
  }

  lemma BookedUnit(c: Config, t: Talk, max: int, draw: nat -> Token)
    requires c.vocab.Valid() && Booked(c, t)
    ensures Booked(c, DecodeUnit(c, t, max, draw).talk)
  {
    hide Reply, Unterminated;
    DecodeBooked(c, Forced(c, t), Started(t), 0, max, draw);
    var u := DecodeFrom(c, Forced(c, t), Started(t), 0, max, draw);
    UnterminatedAppend(c.vocab, u.talk.total, c.vocab.unitEnd);
  }

  /**
   Every run from `_reset_streaming_state`: the flag says that the last token said is `<|turn_eos|>`
   or that nothing was said; no forced listen has said anything; in explicit mode the decoder has been
   fed exactly `total_ids`, in the other mode `total_ids` without terminators.
   */
  lemma {:induction false} EveryRunSound(c: Config, t: Talk, calls: seq<Call>)
    requires c.vocab.Valid() && Sound(c, t)
    ensures Sound(c, AnswerAll(c, t, calls))
    decreases |calls|
  {
    hide Sound, DecodeUnit;
    if calls == [] {
    } else {
      if calls[0].Decode? { AnswerSound(c, t, calls[0].max, calls[0].draw); }
      EveryRunSound(c, Answer(c, t, calls[0]), calls[1..]);
    }
  }

  lemma FromReset(c: Config, calls: seq<Call>)
    requires c.vocab.Valid()
    ensures var t := AnswerAll(c, RESET, calls);
      && t.ended == (t.said == [] || t.said[|t.said| - 1] == c.vocab.turnEos)
      && (t.calls <= c.forceListen ==> t.said == [])
      && t.fed == (if c.explicit then t.total else Unterminated(c.vocab, t.total))
      && t.res == Reply(c.vocab, t.said) && t.total == Flatten(t.units)
      && forall max: int, draw: nat -> Token :: (var u := DecodeUnit(c, t, max, draw); u.isListen ==> u.talk.ended)
  {
    assert Sound(c, RESET);
    EveryRunSound(c, RESET, calls);
    var t := AnswerAll(c, RESET, calls);
    forall max: int, draw: nat -> Token ensures var u := DecodeUnit(c, t, max, draw); u.isListen ==> u.talk.ended {
      AnswerSound(c, t, max, draw);
    }
  }

  // ---------- forced listening ----------

  /** How many of the calls decode a unit. */
  function Decodes(calls: seq<Call>): nat {
    if calls == [] then 0 else Decodes(calls[1..]) + if calls[0].Decode? then 1 else 0
  }

  lemma {:induction false} CallsCounted(c: Config, t: Talk, calls: seq<Call>)
    requires c.vocab.Valid()
    ensures var u := AnswerAll(c, t, calls);
      u.calls == t.calls + Decodes(calls) && |u.units| == |t.units| + Decodes(calls)
    decreases |calls|
  {
    hide DecodeUnit;
    if calls == [] {
    } else {
      if calls[0].Decode? { var said, tail := UnitSays(c, t, calls[0].max, calls[0].draw); }
      CallsCounted(c, Answer(c, t, calls[0]), calls[1..]);
    }
  }

  /** The unit has a place for a token that is sampled or forced. */
  predicate HasRoom(c: Config, max: int) {
    max > 1 || (max == 1 && !c.explicit)
  }

  /**
   Forcing ends: over every run from the reset, a unit that has a place for a token listens by force exactly
   when fewer units than `forceListen` have been decoded before it. Then it is `<|listen|>` and the unit
   end; from then on its first token is the one sampled, or `<|tts_bos|>` for a listen inside a turn.
   */
  lemma ForcedListening(c: Config, calls: seq<Call>, max: int, draw: nat -> Token)
    requires c.vocab.Valid() && HasRoom(c, max)
    ensures var t := AnswerAll(c, RESET, calls);
      var u := DecodeUnit(c, t, max, draw);
      && |u.talk.units| == Decodes(calls) + 1 && u.talk.units[Decodes(calls)] != []
      && (if Decodes(calls) < c.forceListen then
            u.isListen && u.talk.units[Decodes(calls)] == [c.vocab.listen, c.vocab.unitEnd]
          else
            u.talk.units[Decodes(calls)][0]
            == if draw(0) == c.vocab.listen && !t.ended then c.vocab.ttsBos else draw(0))
  {
    hide DecodeUnit;
    var t := AnswerAll(c, RESET, calls);
    CallsCounted(c, RESET, calls);
    var said, tail := UnitSays(c, t, max, draw);
    FirstToken(c, t.calls < c.forceListen, t.ended, max, draw, said, tail);
    if t.calls < c.forceListen { assert [] + tail + [c.vocab.unitEnd] == [c.vocab.listen, c.vocab.unitEnd]; }
  }

  lemma FirstToken(c: Config, forced: bool, ended: bool, max: int, draw: nat -> Token,
                   said: seq<Token>, tail: seq<Token>)
    requires c.vocab.Valid() && HasRoom(c, max) && Generates(c, forced, ended, max, draw, said, tail)
    ensures if forced then said == [] && tail == [c.vocab.listen]
            else said + tail != []
                 && (said + tail)[0] == if draw(0) == c.vocab.listen && !ended then c.vocab.ttsBos else draw(0)
  {
    if said != [] {
      assert said[..0] == [];
      assert !forced && said[0] == if draw(0) == c.vocab.listen then c.vocab.ttsBos else draw(0);
    }
  }

  // ---------- splitting the tokens back into units ----------

  /** What the splitting loop has after reading `ids`: the finished units and the open one. */
  function SplitUnits(v: Vocab, ids: seq<Token>): (r: (seq<seq<Token>>, seq<Token>)) {
    if ids == [] then ([], [])
    else
      var (units, open) := SplitUnits(v, ids[..|ids| - 1]);
      var current := open + [ids[|ids| - 1]];
      if ids[|ids| - 1] == v.unitEnd then (units + [current], []) else (units, current)
  }

  /** The splitting loop of `get_session_schema`. */
  method GenerateUnits(v: Vocab, totalIds: seq<Token>) returns (units: seq<seq<Token>>)
    ensures units == SplitUnits(v, totalIds).0
  {
    units := [];
    var current: seq<Token> := [];
    var i := 0;
    while i < |totalIds|
      invariant i <= |totalIds| && (units, current) == SplitUnits(v, totalIds[..i])
    {
      assert totalIds[..i + 1][..i] == totalIds[..i];
      current := current + [totalIds[i]];
      if totalIds[i] == v.unitEnd {
        units := units + [current];
        current := [];
      }
      i := i + 1;
    }
    assert totalIds[..i] == totalIds;
  }

  predicate Clean(v: Vocab, u: seq<Token>) {
    u != [] && u[|u| - 1] == v.unitEnd && forall i | 0 <= i < |u| - 1 :: u[i] != v.unitEnd
  }

  lemma {:induction false} SplitOpen(v: Vocab, ids: seq<Token>, more: seq<Token>)
    requires v.unitEnd !in more
    ensures SplitUnits(v, ids + more) == (SplitUnits(v, ids).0, SplitUnits(v, ids).1 + more)
  {
    if more == [] {
      assert ids + more == ids && SplitUnits(v, ids).1 + more == SplitUnits(v, ids).1;
    } else {
      var last := more[|more| - 1];
      assert (ids + more)[..|ids + more| - 1] == ids + more[..|more| - 1] && (ids + more)[|ids + more| - 1] == last;
      assert last in more;
      SplitOpen(v, ids, more[..|more| - 1]);
      assert SplitUnits(v, ids).1 + more[..|more| - 1] + [last] == SplitUnits(v, ids).1 + more;
    }
  }

  lemma SplitClosed(v: Vocab, ids: seq<Token>, u: seq<Token>)
    requires Clean(v, u) && SplitUnits(v, ids).1 == []
    ensures SplitUnits(v, ids + u) == (SplitUnits(v, ids).0 + [u], [])
  {
    hide SplitUnits;
    var body := u[..|u| - 1];
    SplitOpen(v, ids, body);
    SplitEnd(v, ids + body, v.unitEnd);
    assert ids + u == ids + body + [v.unitEnd];
    assert [] + body + [v.unitEnd] == u;
  }

  lemma SplitEnd(v: Vocab, ids: seq<Token>, id: Token)
    requires id == v.unitEnd
    ensures SplitUnits(v, ids + [id]) == (SplitUnits(v, ids).0 + [SplitUnits(v, ids).1 + [id]], [])
  {
    assert (ids + [id])[..|ids|] == ids;
  }

  lemma {:induction false} SplitClean(v: Vocab, ids: seq<Token>)
    ensures v.unitEnd !in SplitUnits(v, ids).1 && forall u | u in SplitUnits(v, ids).0 :: Clean(v, u)
  {
    if ids == [] {
    } else {
      SplitClean(v, ids[..|ids| - 1]);
    }
  }

  lemma {:induction false} SplitJoined(v: Vocab, units: seq<seq<Token>>)
    requires forall u | u in units :: Clean(v, u)
    ensures SplitUnits(v, Flatten(units)) == (units, [])
  {
    if units == [] {
    } else {
      var front := units[..|units| - 1];
      SplitJoined(v, front);
      SplitClosed(v, Flatten(front), units[|units| - 1]);
      assert front + [units[|units| - 1]] == units;
    }
  }

  predicate EndsOnlyOnce(v: Vocab, units: seq<seq<Token>>) {
    forall u | u in units :: forall i | 0 <= i < |u| - 1 :: u[i] != v.unitEnd
  }

  lemma SplitBack(v: Vocab, units: seq<seq<Token>>)
    requires Ends(v, units)
    ensures SplitUnits(v, Flatten(units)).0 == units <==> EndsOnlyOnce(v, units)
  {
    SplitClean(v, Flatten(units));
    if EndsOnlyOnce(v, units) {
      forall u | u in units ensures Clean(v, u) {}
      SplitJoined(v, units);
    }
  }

  /**
   Splitting `total_ids` at `</unit>` gives back the units generated exactly when no unit generated
   `</unit>` itself.
   */
  lemma UnitsSplitBack(c: Config, calls: seq<Call>)
    requires c.vocab.Valid()
    ensures var t := AnswerAll(c, RESET, calls);
      SplitUnits(c.vocab, t.total).0 == t.units
      <==> EndsOnlyOnce(c.vocab, t.units)
  {
    assert Sound(c, RESET);
    EveryRunSound(c, RESET, calls);
    var t := AnswerAll(c, RESET, calls);
    SplitBack(c.vocab, t.units);
  }
}
