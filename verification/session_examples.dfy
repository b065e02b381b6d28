/** Sessions in which the window takes positions it should not, with the prompt and the reply cached as they are. */
module SessionExamples {
  import opened Wrappers
  import opened ChunkLedger
  import opened CachePositions
  import opened OmniSession
  import opened SessionRuns

  // ---------- windows on small ledgers ----------

  lemma {:induction false} SkipSystem(l: Ledger, from: nat, upto: nat)
    requires from <= upto <= |l.history|
    requires forall i | from <= i < upto :: HasSystem(l.history, l.history[i].round)
    ensures NextDroppable(l, from) == NextDroppable(l, upto)
    decreases upto - from
  {
    if from < upto {
      SkipSystem(l, from + 1, upto);
    }
  }

  lemma {:induction false} LastGone(h: seq<Entry>, e: Entry)
    requires forall x | x in h :: x.round != e.round
    ensures Without(h + [e], e.round) == h
  {
    if h == [] {
      assert h + [e] == [e] && [e][1..] == [];
    } else {
      assert (h + [e])[1..] == h[1..] + [e];
      LastGone(h[1..], e);
    }
  }

  /** One round with a system entry and a newer one without: the newer one goes, and nothing more. */
  lemma OneFreeRound(h: seq<Entry>, e: Entry, cache: seq<Position>, p: nat, w: Window)
    requires w.enabled && 0 < w.high < |cache| && 0 <= w.low < |cache|
    requires (forall x | x in h :: x.round == 0) && HasSystem(h, 0) && e.round == 1 && e.kind != System
    requires e.length > 0 && p + e.length <= |cache|
    ensures Enforce(Ledger(h + [e], cache, p), true, w.high, w.low)
      == Ledger(h, cache[..p] + cache[p + e.length..], p)
  {
    hide Without, OfRound;
    var l, r := Ledger(h + [e], cache, p), Ledger(h, cache[..p] + cache[p + e.length..], p);
    SystemStays(h, e);
    LastIsFree(h, e);
    SkipSystem(l, 0, |h|);
    LastGone(h, e);
    MiddleRound(h, [e], [], 1);
    assert h + [e] + [] == h + [e];
    assert TotalLength([e]) == e.length + TotalLength([]);
    WithoutMembers(l.history, 1);
    assert [e][1..] == [] && OfRound(l.history, 1) == [e];
    assert CanDrop(l, 1) && DropRound(l, 1) == r;
    assert l.history[|h|] == e && NextDroppable(l, |h|) == Some(1);
    SkipSystem(r, 0, |h|);
    assert Shrink(r, w.low) == r;
  }

  lemma SystemStays(h: seq<Entry>, e: Entry)
    requires (forall x | x in h :: x.round == 0) && HasSystem(h, 0)
    ensures forall i | 0 <= i < |h| :: HasSystem(h + [e], (h + [e])[i].round) && HasSystem(h, h[i].round)
  {
    var i :| 0 <= i < |h| && h[i].round == 0 && h[i].kind == System;
    assert (h + [e])[i].kind == System;
    assert forall j | 0 <= j < |h| :: h[j] in h;
  }

  lemma LastIsFree(h: seq<Entry>, e: Entry)
    requires (forall x | x in h :: x.round == 0) && e.round == 1 && e.kind != System
    ensures !HasSystem(h + [e], 1)
  {
    assert forall i | 0 <= i < |h| :: (h + [e])[i] in h;
  }

  /** A prefill that stays within the window only appends. */
  lemma WithinWindow(s: Session, w: Window, embeds: seq<nat>, kind: ChunkKind, ids: seq<nat>)
    requires |s.ledger.cache| + |embeds| <= w.high
    ensures Prefilled(s, w, embeds, kind, ids)
      == s.(ledger := Entered(s, s.ledger, embeds, kind, ids), pendingRound := Some(s.nextRound))
  {
    hide Shrink;
  }

  /** The answer of an open round: prompt and reply cached, the text's tokens charged. */
  lemma AnswerTo(s: Session, feeds: seq<nat>, text: seq<nat>)
    requires s.pendingRound == Some(s.nextRound) && text != []
    ensures var t := Run(Begun(s, false), [Feed(feeds), Finish(Some(text))]);
      && t.ledger == Ledger(s.ledger.history + [Entry(|text|, Assistant, s.nextRound, Some(text))],
                            s.ledger.cache + Placed(Some(s.nextRound), Assistant, feeds), s.ledger.preserve)
      && t.nextRound == s.nextRound + 1 && t.pendingRound == None && t.offset == s.offset
      && t.snapshot == s.snapshot
  {
    var steps := [Feed(feeds), Finish(Some(text))];
    assert steps[1..] == [Finish(Some(text))] && steps[1..][1..] == [];
    var t := Step(Begun(s, false), Feed(feeds));
    assert Run(t, steps[1..]) == Step(t, Finish(Some(text)));
  }

  const SMALL := Window(true, 8, 7)
  const R0: Option<int> := Some(0)
  const R1: Option<int> := Some(1)
  const TEXT: seq<nat> := [90]

  // ---------- a system message and a user message share round 0 ----------

  const SHARED := [Ask([10, 11], System, []), Ask([12, 13], User, []),
                   Answer(false, [Feed([14, 15, 16]), Finish(Some(TEXT))]), Ask([21, 22], User, [])]

  /**
   The preserved prefix ends before round 1 begins, and dropping round 1 takes round 0's user message
   out of the cache; round 1's own two positions stay.
   */
  lemma SystemRoundShared()
    ensures var l := TurnedAll(EMPTY, SMALL, SHARED).ledger;
      && l.cache == Placed(R0, System, [10, 11]) + Placed(R0, Assistant, [14, 15, 16]) + Placed(R1, User, [21, 22])
      && l.preserve == 2 && OfRound(l.history, 1) == [] && Fed(l.cache, 1) == 2
  {
    hide Prefilled, Run, Shrink, Entered, Fed;
    var s1 := Prefilled(EMPTY, SMALL, [10, 11], System, []);
    var s2 := Prefilled(s1, SMALL, [12, 13], User, []);
    var s3 := Run(Begun(s2, false), [Feed([14, 15, 16]), Finish(Some(TEXT))]);
    var s4 := Prefilled(s3, SMALL, [21, 22], User, []);
    FourTurns(EMPTY, SMALL, SHARED);
    SharedFront(s1, s2, s3);
    SharedEnd(s3, s4);
  }

  lemma FourTurns(s: Session, w: Window, ts: seq<Turn>)
    requires |ts| == 4
    ensures TurnedAll(s, w, ts) == Turned(Turned(Turned(Turned(s, w, ts[0]), w, ts[1]), w, ts[2]), w, ts[3])
  {
    hide Turned;
    var a := Turned(s, w, ts[0]);
    var b := Turned(a, w, ts[1]);
    var c := Turned(b, w, ts[2]);
    var d := Turned(c, w, ts[3]);
    assert TurnedAll(d, w, ts[4..]) == d;
    assert ts[3..][1..] == ts[4..] && ts[2..][1..] == ts[3..] && ts[1..][1..] == ts[2..];
    assert TurnedAll(c, w, ts[3..]) == d;
    assert TurnedAll(b, w, ts[2..]) == d;
    assert TurnedAll(a, w, ts[1..]) == d;
  }

  function SharedHistory(): seq<Entry> {
    [Entry(2, System, 0, Some([])), Entry(2, User, 0, Some([])), Entry(1, Assistant, 0, Some(TEXT))]
  }

  function SharedCache(): seq<Position> {
    Placed(R0, System, [10, 11]) + Placed(R0, User, [12, 13]) + Placed(R0, Assistant, [14, 15, 16])
  }

  lemma SharedFront(s1: Session, s2: Session, s3: Session)
    requires s1 == Prefilled(EMPTY, SMALL, [10, 11], System, []) && s2 == Prefilled(s1, SMALL, [12, 13], User, [])
    requires s3 == Run(Begun(s2, false), [Feed([14, 15, 16]), Finish(Some(TEXT))])
    ensures s3.ledger == Ledger(SharedHistory(), SharedCache(), 2) && s3.nextRound == 1
  {
    hide Prefilled, Run, Placed;
    WithinWindow(EMPTY, SMALL, [10, 11], System, []);
    assert s1.ledger == Ledger([Entry(2, System, 0, Some([]))], Placed(R0, System, [10, 11]), 2);
    WithinWindow(s1, SMALL, [12, 13], User, []);
    AnswerTo(s2, [14, 15, 16], TEXT);
  }

  lemma SharedEnd(s3: Session, s4: Session)
    requires s3.ledger == Ledger(SharedHistory(), SharedCache(), 2) && s3.nextRound == 1
    requires s4 == Prefilled(s3, SMALL, [21, 22], User, [])
    ensures s4.ledger == Ledger(SharedHistory(), Placed(R0, System, [10, 11]) + Placed(R0, Assistant, [14, 15, 16])
                                                 + Placed(R1, User, [21, 22]), 2)
    ensures OfRound(s4.ledger.history, 1) == [] && Fed(s4.ledger.cache, 1) == 2
  {
    hide Shrink, Fed;
    var e := Entry(2, User, 1, Some([]));
    var full := SharedCache() + Placed(R1, User, [21, 22]);
    assert HasSystem(SharedHistory(), 0) by { assert SharedHistory()[0].kind == System; }
    OneFreeRound(SharedHistory(), e, full, 2, SMALL);
    assert full[..2] + full[4..]
        == Placed(R0, System, [10, 11]) + Placed(R0, Assistant, [14, 15, 16]) + Placed(R1, User, [21, 22]);
    OfRoundAll(SharedHistory(), 1);
    assert Occupies(s4.ledger.cache, 1, 5, 2);
    OccupiedFed(s4.ledger.cache, 1, 5, 2);
  }

  // ---------- the text is shorter than what was cached ----------

  const TIGHT := Window(true, 6, 5)
  const SHORT := [Ask([0, 1], User, []), Answer(false, [Feed([2, 3, 4]), Finish(Some(TEXT))]), Ask([5, 6], User, [])]

  function ShortHistory(): seq<Entry> {
    [Entry(2, User, 0, Some([])), Entry(1, Assistant, 0, Some(TEXT))]
  }

  lemma ThreeTurns(s: Session, w: Window, ts: seq<Turn>)
    requires |ts| == 3
    ensures TurnedAll(s, w, ts) == Turned(Turned(Turned(s, w, ts[0]), w, ts[1]), w, ts[2])
  {
    hide Turned;
    var a := Turned(s, w, ts[0]);
    var b := Turned(a, w, ts[1]);
    var c := Turned(b, w, ts[2]);
    assert TurnedAll(c, w, ts[3..]) == c;
    assert ts[2..][1..] == ts[3..] && ts[1..][1..] == ts[2..];
    assert TurnedAll(b, w, ts[2..]) == c;
    assert TurnedAll(a, w, ts[1..]) == c;
  }

  /**
   Round 0 starts where the (empty) preserved prefix ends, but of its five positions only three are
   charged: two of them outlive the round.
   */
  lemma ReplyOutlivesRound()
    ensures var l := TurnedAll(EMPTY, TIGHT, SHORT).ledger;
      && l.cache == [Position(R0, Assistant, 3), Position(R0, Assistant, 4)] + Placed(R1, User, [5, 6])
      && OfRound(l.history, 0) == [] && Fed(l.cache, 0) == 2
  {
    hide Prefilled, Run, Shrink, Fed;
    var s1 := Prefilled(EMPTY, TIGHT, [0, 1], User, []);
    var s2 := Run(Begun(s1, false), [Feed([2, 3, 4]), Finish(Some(TEXT))]);
    var s3 := Prefilled(s2, TIGHT, [5, 6], User, []);
    ThreeTurns(EMPTY, TIGHT, SHORT);
    ShortEnd(s1, s2, s3, s2);
  }

  /** The last prefill, from any session with the same ledger and counters. */
  lemma ShortEnd(s1: Session, s2: Session, s3: Session, base: Session)
    requires s1 == Prefilled(EMPTY, TIGHT, [0, 1], User, [])
    requires s2 == Run(Begun(s1, false), [Feed([2, 3, 4]), Finish(Some(TEXT))])
    requires base.ledger == s2.ledger && base.nextRound == s2.nextRound && base.offset == s2.offset
    requires s3 == Prefilled(base, TIGHT, [5, 6], User, [])
    ensures s1.ledger.cache == Placed(R0, User, [0, 1])
    ensures s3.ledger.cache == [Position(R0, Assistant, 3), Position(R0, Assistant, 4)] + Placed(R1, User, [5, 6])
    ensures OfRound(s3.ledger.history, 0) == [] && Fed(s3.ledger.cache, 0) == 2
  {
    hide Prefilled, Run, Shrink, Fed;
    WithinWindow(EMPTY, TIGHT, [0, 1], User, []);
    assert s1.ledger == Ledger([Entry(2, User, 0, Some([]))], Placed(R0, User, [0, 1]), 0);
    AnswerTo(s1, [2, 3, 4], TEXT);
    assert s2.ledger == Ledger(ShortHistory(), Placed(R0, User, [0, 1]) + Placed(R0, Assistant, [2, 3, 4]), 0);
    ShortDrop(base, s3);
  }

  lemma ShortDrop(s: Session, t: Session)
    requires s.ledger == Ledger(ShortHistory(), Placed(R0, User, [0, 1]) + Placed(R0, Assistant, [2, 3, 4]), 0)
    requires s.nextRound == 1 && t == Prefilled(s, TIGHT, [5, 6], User, [])
    ensures t.ledger == Ledger([Entry(2, User, 1, Some([]))],
                               [Position(R0, Assistant, 3), Position(R0, Assistant, 4)] + Placed(R1, User, [5, 6]), 0)
    ensures OfRound(t.ledger.history, 0) == [] && Fed(t.ledger.cache, 0) == 2
  {
    hide Fed, Shrink;
    var b := Entered(s, s.ledger, [5, 6], User, []);
    var e := Entry(2, User, 1, Some([]));
    assert b.history == ShortHistory() + [e];
    FirstRoundGoes(b, e);
    assert b.cache[3..] == [Position(R0, Assistant, 3), Position(R0, Assistant, 4)] + Placed(R1, User, [5, 6]);
    assert Occupies(t.ledger.cache, 0, 0, 2);
    OccupiedFed(t.ledger.cache, 0, 0, 2);
    assert OfRound([e], 0) == OfRound([e][1..], 0);
  }

  lemma FirstRoundGoes(b: Ledger, e: Entry)
    requires b.history == ShortHistory() + [e] && |b.cache| == 7 && b.preserve == 0 && e == Entry(2, User, 1, Some([]))
    ensures Enforce(b, true, 6, 5) == Ledger([e], b.cache[3..], 0)
  {
    var h := ShortHistory();
    assert b.history[0].round == 0 && !HasSystem(b.history, 0);
    MiddleRound([], h, [e], 0);
    assert [] + h + [e] == b.history;
    assert TotalLength(h) == 3 by { assert h[1..] == [h[1]] && h[1..][1..] == []; }
    WithoutFirst(h, e);
    assert b.cache[..0] + b.cache[3..] == b.cache[3..];
    assert CanDrop(b, 0) && DropRound(b, 0) == Ledger([e], b.cache[3..], 0);
    assert NextDroppable(b, 0) == Some(0);
    WithoutMembers(b.history, 0);
    assert Shrink(DropRound(b, 0), 5) == DropRound(b, 0);
  }

  lemma WithoutFirst(h: seq<Entry>, e: Entry)
    requires h == ShortHistory() && e.round == 1
    ensures Without(h + [e], 0) == [e]
  {
    var b := h + [e];
    assert b[1..][1..] == [e] && [e][1..] == [];
    assert Without([e], 0) == [e] + Without([], 0);
    assert Without(b[1..], 0) == Without(b[1..][1..], 0);
  }

  /**
   The same window step while a snapshot is held: the generation is saved, finished, followed by the
   prefill that drops its round, and only then undone. The restore reports success and leaves two
   positions of the undone reply in place of the two it saved.
   */
  lemma RestoredTooLate()
    ensures var s := TurnedAll(EMPTY, TIGHT, [SHORT[0]]);
      var t := TurnedAll(s, TIGHT, [Answer(true, [Feed([2, 3, 4]), Finish(Some(TEXT))]), SHORT[2]]);
      var r := Restored(t, None, true);
      && s.ledger.cache == Placed(R0, User, [0, 1])
      && r.1 && r.0.ledger.cache == [Position(R0, Assistant, 3), Position(R0, Assistant, 4)]
  {
    hide Prefilled, Run, Shrink, Fed;
    var s := Prefilled(EMPTY, TIGHT, [0, 1], User, []);
    assert [SHORT[0]][1..] == [];
    assert TurnedAll(EMPTY, TIGHT, [SHORT[0]]) == s;
    var steps := [Feed([2, 3, 4]), Finish(Some(TEXT))];
    var a := Run(Begun(s, true), steps);
    var t := Prefilled(a, TIGHT, [5, 6], User, []);
    TwoTurns(s, Answer(true, steps), SHORT[2]);
    WithinWindow(EMPTY, TIGHT, [0, 1], User, []);
    SameAnswer(s, steps);
    var plain := Run(Begun(s, false), steps);
    ShortEnd(s, plain, t, a);
    KeepsSnapshot(a, [5, 6]);
    RunExtends(s, Begun(s, true), steps);
    assert t.snapshot == Some(Saved(s)) && t.mel.Some? && Saved(s).cacheLength == 2;
    assert Truncated(t.ledger.cache, 2) == [Position(R0, Assistant, 3), Position(R0, Assistant, 4)];
  }

  lemma TwoTurns(s: Session, a: Turn, b: Turn)
    ensures TurnedAll(s, TIGHT, [a, b]) == Turned(Turned(s, TIGHT, a), TIGHT, b)
  {
    hide Turned;
    assert [a, b][1..] == [b] && [b][1..] == [];
    var x := Turned(s, TIGHT, a);
    assert TurnedAll(x, TIGHT, [b]) == Turned(x, TIGHT, b);
  }

  /** Taking a snapshot first changes nothing else about the answer. */
  lemma SameAnswer(s: Session, steps: seq<GenStep>)
    requires steps == [Feed([2, 3, 4]), Finish(Some(TEXT))]
    ensures Run(Begun(s, true), steps) == Run(Begun(s, false), steps).(snapshot := Some(Saved(s)))
  {
    hide Saved;
    assert steps[1..] == [steps[1]] && steps[1..][1..] == [];
    var x, y := Step(Begun(s, true), steps[0]), Step(Begun(s, false), steps[0]);
    assert Run(x, steps[1..]) == Step(x, steps[1]) && Run(y, steps[1..]) == Step(y, steps[1]);
  }

  lemma KeepsSnapshot(a: Session, embeds: seq<nat>)
    ensures Prefilled(a, TIGHT, embeds, User, []).snapshot == a.snapshot
    ensures Prefilled(a, TIGHT, embeds, User, []).mel == a.mel
  {
    hide Enforce;
  }

  // ---------- a second system message ----------

  const TWICE := [Ask([0, 1, 2], System, []), Ask([3, 4, 5], System, []),
                  Answer(false, [Feed([6, 7]), Finish(Some(TEXT))]), Ask([8, 9], User, [])]

  function TwiceHistory(): seq<Entry> {
    [Entry(3, System, 0, Some([])), Entry(3, System, 0, Some([])), Entry(1, Assistant, 0, Some(TEXT))]
  }

  /** The preserved prefix is as long as one system message; dropping round 1 takes two positions of the other. */
  lemma SecondSystemLost()
    ensures var l := TurnedAll(EMPTY, SMALL, TWICE).ledger;
      && l.cache == Placed(R0, System, [0, 1, 2]) + [Position(R0, System, 5)] + Placed(R0, Assistant, [6, 7])
                    + Placed(R1, User, [8, 9])
      && l.preserve == 3
  {
    hide Prefilled, Run, Shrink, Entered;
    var s1 := Prefilled(EMPTY, SMALL, [0, 1, 2], System, []);
    var s2 := Prefilled(s1, SMALL, [3, 4, 5], System, []);
    var s3 := Run(Begun(s2, false), [Feed([6, 7]), Finish(Some(TEXT))]);
    var s4 := Prefilled(s3, SMALL, [8, 9], User, []);
    FourTurns(EMPTY, SMALL, TWICE);
    TwiceFront(s1, s2, s3);
    TwiceEnd(s3, s4);
  }

  function TwiceCache(): seq<Position> {
    Placed(R0, System, [0, 1, 2]) + Placed(R0, System, [3, 4, 5]) + Placed(R0, Assistant, [6, 7])
  }

  lemma TwiceFront(s1: Session, s2: Session, s3: Session)
    requires s1 == Prefilled(EMPTY, SMALL, [0, 1, 2], System, []) && s2 == Prefilled(s1, SMALL, [3, 4, 5], System, [])
    requires s3 == Run(Begun(s2, false), [Feed([6, 7]), Finish(Some(TEXT))])
    ensures s3.ledger == Ledger(TwiceHistory(), TwiceCache(), 3) && s3.nextRound == 1
  {
    hide Prefilled, Run, Placed;
    WithinWindow(EMPTY, SMALL, [0, 1, 2], System, []);
    assert s1.ledger == Ledger([Entry(3, System, 0, Some([]))], Placed(R0, System, [0, 1, 2]), 3);
    WithinWindow(s1, SMALL, [3, 4, 5], System, []);
    AnswerTo(s2, [6, 7], TEXT);
  }

  lemma TwiceEnd(s3: Session, s4: Session)
    requires s3.ledger == Ledger(TwiceHistory(), TwiceCache(), 3) && s3.nextRound == 1
    requires s4 == Prefilled(s3, SMALL, [8, 9], User, [])
    ensures s4.ledger == Ledger(TwiceHistory(), Placed(R0, System, [0, 1, 2]) + [Position(R0, System, 5)]
                                                + Placed(R0, Assistant, [6, 7]) + Placed(R1, User, [8, 9]), 3)
  {
    hide Shrink;
    var e := Entry(2, User, 1, Some([]));
    var full := TwiceCache() + Placed(R1, User, [8, 9]);
    assert HasSystem(TwiceHistory(), 0) by { assert TwiceHistory()[0].kind == System; }
    OneFreeRound(TwiceHistory(), e, full, 3, SMALL);
    assert full[..3] + full[5..] == Placed(R0, System, [0, 1, 2]) + [Position(R0, System, 5)]
                                    + Placed(R0, Assistant, [6, 7]) + Placed(R1, User, [8, 9]);
  }

  // ---------- a snapshot that outlives its session ----------

  /** One position is saved, and a session with a new id opens with a system message of three. */
  const NEXT := [Prefill([7], User, []), Begin(true), Reset, InitProcessor, Prefill([1, 2, 3], System, [])]

  /** The restore finds the snapshot of the session before, succeeds, and leaves one position of the message. */
  lemma SystemCutByOldSnapshot()
    ensures var t := ApplyAll(EMPTY, SMALL, NEXT);
      var r := Restored(t, None, true);
      && t.ledger.cache == Placed(R0, System, [1, 2, 3]) && t.ledger.preserve == 3
      && r.1 && r.0.ledger.cache == [Position(R0, System, 1)] && r.0.ledger.preserve == 3
  {
    hide Prefilled;
    var a := Prefilled(EMPTY, SMALL, [7], User, []);
    WithinWindow(EMPTY, SMALL, [7], User, []);
    var c := Restarted(Cleared(Begun(a, true)));
    WithinWindow(c, SMALL, [1, 2, 3], System, []);
    var t := Prefilled(c, SMALL, [1, 2, 3], System, []);
    FiveOps(EMPTY, SMALL, NEXT);
    assert t.ledger.cache == Placed(R0, System, [1, 2, 3]);
    assert Truncated(t.ledger.cache, 1) == [Position(R0, System, 1)];
  }

  lemma FiveOps(s: Session, w: Window, ops: seq<Op>)
    requires |ops| == 5
    ensures ApplyAll(s, w, ops)
         == Apply(Apply(Apply(Apply(Apply(s, w, ops[0]), w, ops[1]), w, ops[2]), w, ops[3]), w, ops[4])
  {
    hide Apply;
    var s1 := Apply(s, w, ops[0]);
    var s2 := Apply(s1, w, ops[1]);
    var s3 := Apply(s2, w, ops[2]);
    var s4 := Apply(s3, w, ops[3]);
    var s5 := Apply(s4, w, ops[4]);
    assert ops[1..][1..] == ops[2..] && ops[2..][1..] == ops[3..] && ops[3..][1..] == ops[4..];
    assert ops[4..][1..] == [];
    assert ApplyAll(s5, w, []) == s5;
    assert ApplyAll(s4, w, ops[4..]) == s5;
    assert ApplyAll(s3, w, ops[3..]) == s5;
    assert ApplyAll(s2, w, ops[2..]) == s5;
    assert ApplyAll(s1, w, ops[1..]) == s5;
  }
}
