/**
 Whole sessions: how far the ledger's lengths and the cached positions agree, which positions a dropped
 round takes with it, what happens to system messages, and what a late restore gives back.
 */
module SessionRuns {
  import opened Arithmetic
  import opened Wrappers
  import opened ChunkLedger
  import opened CachePositions
  import opened OmniSession

  /** One exchange: a prefill, a generation carried any number of steps, or one that is undone. */
  datatype Turn =
    | Ask(embeds: seq<nat>, kind: ChunkKind, ids: seq<nat>)
    | Answer(enable: bool, steps: seq<GenStep>)
    | Speculation(steps: seq<GenStep>)

  function Turned(s: Session, w: Window, turn: Turn): Session {
    match turn
    case Ask(embeds, kind, ids) => Prefilled(s, w, embeds, kind, ids)
    case Answer(enable, steps) => Run(Begun(s, enable), steps)
    case Speculation(steps) => Restored(Run(Begun(s, true), steps), None, true).0
  }

  function TurnedAll(s: Session, w: Window, turns: seq<Turn>): Session
    decreases |turns|
  {
    if turns == [] then s else TurnedAll(Turned(s, w, turns[0]), w, turns[1..])
  }

  // ---------- rounds lie in order in the cache ----------

  /** Between turns: rounds are in one piece each, and only the next round can still grow. */
  predicate Ordered(s: Session) {
    var c := s.ledger.cache;
    && AllTogether(c) && NotBeyond(c, s.nextRound) && Trails(c, s.nextRound)
    && (if s.pendingRound.None? then Absent(c, s.nextRound) else s.pendingRound.value == s.nextRound)
  }

  /** Within a generation: it feeds the round it started with, or none. */
  predicate Feeding(s: Session) {
    var c := s.ledger.cache;
    && AllTogether(c) && NotBeyond(c, s.nextRound)
    && (s.host.Some? ==> s.host.value <= s.nextRound && Trails(c, s.host.value))
    && (if s.pendingRound.None? then Absent(c, s.nextRound) && (s.host.Some? ==> s.host.value < s.nextRound)
        else s.pendingRound.value == s.nextRound && s.host == s.pendingRound)
  }

  lemma FeedStep(s: Session, embeds: seq<nat>)
    requires Feeding(s)
    ensures Feeding(Step(s, Feed(embeds)))
  {
    var c, more := s.ledger.cache, Placed(s.host, Assistant, embeds);
    if s.host.Some? { AppendRound(c, more, s.host.value); } else { AppendNone(c, more); }
  }

  lemma FeedingStep(s: Session, step: GenStep)
    requires Feeding(s)
    ensures Feeding(Step(s, step))
  {
    if step.Feed? { FeedStep(s, step.embeds); }
  }

  lemma {:induction false} FeedingRun(s: Session, steps: seq<GenStep>)
    requires Feeding(s)
    ensures Feeding(Run(s, steps))
    decreases |steps|
  {
    hide Feeding, Step;
    if steps == [] {
    } else {
      FeedingStep(s, steps[0]);
      FeedingRun(Step(s, steps[0]), steps[1..]);
    }
  }

  lemma EnforceOrder(l: Ledger, w: Window, round: int)
    requires AllTogether(l.cache)
    ensures var c := Enforce(l, w.enabled, w.high, w.low).cache;
      && AllTogether(c) && (NotBeyond(l.cache, round) ==> NotBeyond(c, round))
      && (Trails(l.cache, round) ==> Trails(c, round)) && (Absent(l.cache, round) ==> Absent(c, round))
  {
    hide Shrink, AllTogether, NotBeyond, Trails, Absent;
    var target := if w.low < 0 then 0 else w.low;
    ShrinkCutsAfterPrefix(l, target);
    CutKeeps(l.cache, Min(l.preserve, |l.cache|), |l.cache| - |Shrink(l, target).cache|, round);
  }

  lemma AskOrdered(s: Session, w: Window, embeds: seq<nat>, kind: ChunkKind, ids: seq<nat>)
    requires Ordered(s)
    ensures Ordered(Prefilled(s, w, embeds, kind, ids))
  {
    hide Enforce, AllTogether, Trails, Absent, Placed;
    var r := s.nextRound;
    EnforceOrder(s.ledger, w, r);
    var a := Enforce(s.ledger, w.enabled, w.high, w.low);
    AppendRound(a.cache, Placed(Some(r), kind, embeds), r);
    EnforceOrder(Entered(s, a, embeds, kind, ids), w, r);
  }

  lemma TurnOrdered(s: Session, w: Window, turn: Turn)
    requires Ordered(s)
    ensures Ordered(Turned(s, w, turn))
  {
    hide Prefilled, Run, AllTogether, NotBeyond, Trails, Absent;
    match turn {
      case Ask(embeds, kind, ids) => AskOrdered(s, w, embeds, kind, ids);
      case Answer(enable, steps) =>
        FeedingRun(Begun(s, enable), steps);
        TrailsOrdered(Run(Begun(s, enable), steps));
      case Speculation(steps) => SpeculationRestores(s, steps, true);
    }
  }

  lemma TrailsOrdered(s: Session)
    requires Feeding(s)
    ensures Ordered(s)
  {
  }

  lemma {:induction false} TurnsOrdered(s: Session, w: Window, turns: seq<Turn>)
    requires Ordered(s)
    ensures Ordered(TurnedAll(s, w, turns))
    decreases |turns|
  {
    hide Ordered, Turned;
    if turns == [] {
    } else {
      TurnOrdered(s, w, turns[0]);
      TurnsOrdered(Turned(s, w, turns[0]), w, turns[1..]);
    }
  }

  /**
   In every session of such turns, dropping a round takes exactly its own positions if and only if the preserved
   prefix ends where they start and the round's registered length is the number of positions fed for it.
   */
  lemma EveryDrop(w: Window, turns: seq<Turn>, round: int)
    requires CanDrop(TurnedAll(EMPTY, w, turns).ledger, round)
    ensures var l := TurnedAll(EMPTY, w, turns).ledger;
      DropsOwn(l, round) <==>
        FirstAt(l.cache, round, l.preserve) && TotalLength(OfRound(l.history, round)) == Fed(l.cache, round)
  {
    hide DropsOwn, CanDrop, TurnedAll;
    assert Ordered(EMPTY);
    TurnsOrdered(EMPTY, w, turns);
    var l := TurnedAll(EMPTY, w, turns).ledger;
    AnyTogether(l.cache, round);
    DropHitsRound(l, round);
  }

  // ---------- positions fed and never charged ----------

  /** Cached positions that no ledger entry accounts for. */
  function Drift(s: Session): int {
    |s.ledger.cache| - TotalLength(s.ledger.history)
  }

  function FedBy(steps: seq<GenStep>): nat {
    if steps == [] then 0 else (if steps[0].Feed? then |steps[0].embeds| else 0) + FedBy(steps[1..])
  }

  /** What a step charges to the ledger. */
  function Charge(s: Session, step: GenStep): nat {
    if step.Finish? && s.host.Some? then AssistantLength(s, s.before, step.text) else 0
  }

  function ChargedBy(s: Session, steps: seq<GenStep>): nat
    decreases |steps|
  {
    if steps == [] then 0 else Charge(s, steps[0]) + ChargedBy(Step(s, steps[0]), steps[1..])
  }

  lemma StepDrift(s: Session, step: GenStep)
    ensures Drift(Step(s, step)) == Drift(s) + (if step.Feed? then |step.embeds| else 0) - Charge(s, step)
  {
    if step.Finish? && s.host.Some? {
      var e := Entry(AssistantLength(s, s.before, step.text), Assistant, s.host.value, step.text);
      TotalConcat(s.ledger.history, [e]);
      assert [e][1..] == [];
    }
  }

  lemma {:induction false} RunDrift(s: Session, steps: seq<GenStep>)
    ensures Drift(Run(s, steps)) == Drift(s) + FedBy(steps) - ChargedBy(s, steps)
    decreases |steps|
  {
    hide Drift, Step, Charge;
    if steps == [] {
    } else {
      StepDrift(s, steps[0]);
      RunDrift(Step(s, steps[0]), steps[1..]);
    }
  }

  /** Positions a session's generations fed beyond what they charged, undone ones left out. */
  function Uncharged(s: Session, w: Window, turns: seq<Turn>): int
    decreases |turns|
  {
    if turns == [] then 0
    else
      (if turns[0].Answer? then FedBy(turns[0].steps) - ChargedBy(Begun(s, turns[0].enable), turns[0].steps) else 0)
      + Uncharged(Turned(s, w, turns[0]), w, turns[1..])
  }

  /**
   Cache length and ledger length differ by exactly the positions fed and never charged: prefills, the
   window and undone generations do not change the difference.
   */
  lemma {:induction false} TurnsDrift(s: Session, w: Window, turns: seq<Turn>)
    ensures Drift(TurnedAll(s, w, turns)) == Drift(s) + Uncharged(s, w, turns)
    decreases |turns|
  {
    hide Prefilled, Run, ChargedBy, FedBy;
    if turns == [] {
    } else {
      TurnDrift(s, w, turns[0]);
      TurnsDrift(Turned(s, w, turns[0]), w, turns[1..]);
    }
  }

  lemma TurnDrift(s: Session, w: Window, turn: Turn)
    ensures Drift(Turned(s, w, turn)) == Drift(s)
      + if turn.Answer? then FedBy(turn.steps) - ChargedBy(Begun(s, turn.enable), turn.steps) else 0
  {
    hide Prefilled, Run, ChargedBy, FedBy;
    match turn {
      case Ask(embeds, kind, ids) => PrefillConserves(s, w, embeds, kind, ids);
      case Answer(enable, steps) => RunDrift(Begun(s, enable), steps);
      case Speculation(steps) => SpeculationRestores(s, steps, true);
    }
  }

  /** The steps of a generation before it is finished. */
  predicate Unfinished(steps: seq<GenStep>) {
    forall i | 0 <= i < |steps| :: !steps[i].Finish? && !steps[i].Restart?
  }

  lemma {:induction false} UnfinishedRun(s: Session, steps: seq<GenStep>, last: GenStep)
    requires Unfinished(steps)
    ensures var t := Run(s, steps);
      && t.host == s.host && t.before == s.before && |t.ledger.cache| == |s.ledger.cache| + FedBy(steps)
      && ChargedBy(s, steps + [last]) == Charge(t, last) && FedBy(steps + [last]) == FedBy(steps) + FedBy([last])
    decreases |steps|
  {
    if steps == [] {
      assert [] + [last] == [last] && [last][1..] == [];
    } else {
      assert (steps + [last])[1..] == steps[1..] + [last];
      UnfinishedRun(Step(s, steps[0]), steps[1..], last);
    }
  }

  /**
   An answer that is finished for a round moves the difference by what was fed beyond the tokens of the
   text; without a text it is charged for all it fed. So the ledger covers the cache after it just when
   the text has as many tokens as the prompt and the reply together took positions.
   */
  lemma AnswerDrift(s: Session, enable: bool, steps: seq<GenStep>, text: Option<seq<nat>>)
    requires Unfinished(steps) && s.pendingRound.Some?
    ensures var t := Run(Begun(s, enable), steps + [Finish(text)]);
      Drift(t) == Drift(s) + (if text.Some? then FedBy(steps) - |text.value| else 0)
  {
    hide Run, ChargedBy;
    RunDrift(Begun(s, enable), steps + [Finish(text)]);
    UnfinishedRun(Begun(s, enable), steps, Finish(text));
    assert FedBy([Finish(text)]) == FedBy([]);
  }

  // ---------- system messages ----------

  /** The system message opens the cache, is the preserved prefix, and no other follows. */
  predicate Guarded(s: Session, system: seq<Position>) {
    && s.ledger.preserve == |system| && system <= s.ledger.cache && SystemEnd(s.ledger.cache) == |system|
    && (s.snapshot.Some? ==> s.snapshot.value.cacheLength >= |system|)
  }

  /** Operations that neither enter another system message nor reset the session. */
  predicate NoSystem(ops: seq<Op>) {
    forall i | 0 <= i < |ops| :: ops[i] != Reset && (ops[i].Prefill? ==> ops[i].kind != System)
  }

  lemma AppendGuarded(c: seq<Position>, more: seq<Position>, n: nat)
    requires SystemEnd(c) == n && forall i | 0 <= i < |more| :: more[i].kind != System
    ensures SystemEnd(c + more) == n
  {
    hide SystemEnd;
    SystemEndUnique(c + more, n);
  }

  lemma EnforceGuarded(l: Ledger, w: Window, system: seq<Position>)
    requires l.preserve == |system| && system <= l.cache && SystemEnd(l.cache) == |system|
    ensures var r := Enforce(l, w.enabled, w.high, w.low);
      r.preserve == |system| && system <= r.cache && SystemEnd(r.cache) == |system|
  {
    hide Shrink, SystemEnd;
    var target := if w.low < 0 then 0 else w.low;
    ShrinkSystem(l, target);
    assert l.cache[..|system|] == system;
  }

  lemma PrefillGuarded(s: Session, w: Window, embeds: seq<nat>, kind: ChunkKind, ids: seq<nat>, system: seq<Position>)
    requires Guarded(s, system) && kind != System
    ensures Guarded(Prefilled(s, w, embeds, kind, ids), system)
  {
    hide Enforce, SystemEnd, Placed;
    EnforceGuarded(s.ledger, w, system);
    var a := Enforce(s.ledger, w.enabled, w.high, w.low);
    AppendGuarded(a.cache, Placed(Some(s.nextRound), kind, embeds), |system|);
    EnforceGuarded(Entered(s, a, embeds, kind, ids), w, system);
  }

  lemma UndoGuarded(s: Session, melOk: bool, system: seq<Position>)
    requires Guarded(s, system)
    ensures Guarded(Restored(s, None, melOk).0, system)
  {
    hide SystemEnd;
    if s.snapshot.Some? {
      var c := Truncated(s.ledger.cache, s.snapshot.value.cacheLength);
      assert system <= c;
      SystemEndUnique(c, |system|);
    }
  }

  lemma GenerateGuarded(s: Session, step: GenStep, system: seq<Position>)
    requires Guarded(s, system)
    ensures Guarded(Step(s, step), system)
  {
    hide SystemEnd;
    if step.Feed? {
      AppendGuarded(s.ledger.cache, Placed(s.host, Assistant, step.embeds), |system|);
    }
  }

  lemma {:induction false} GuardedAll(s: Session, w: Window, ops: seq<Op>, system: seq<Position>)
    requires Guarded(s, system) && NoSystem(ops)
    ensures Guarded(ApplyAll(s, w, ops), system)
    decreases |ops|
  {
    hide Guarded, Prefilled, Step, Restored;
    if ops == [] {
    } else {
      match ops[0] {
        case Prefill(embeds, kind, ids) => PrefillGuarded(s, w, embeds, kind, ids, system);
        case Begin(enable) => BeginGuarded(s, enable, system);
        case Generate(step) => GenerateGuarded(s, step, system);
        case Undo(melOk) => UndoGuarded(s, melOk, system);
        case InitProcessor => RestartGuarded(s, system);
      }
      GuardedAll(Apply(s, w, ops[0]), w, ops[1..], system);
    }
  }

  lemma RestartGuarded(s: Session, system: seq<Position>)
    requires Guarded(s, system)
    ensures Guarded(Restarted(s), system)
  {
    hide SystemEnd;
  }

  lemma BeginGuarded(s: Session, enable: bool, system: seq<Position>)
    requires Guarded(s, system)
    ensures Guarded(Begun(s, enable), system)
  {
    hide SystemEnd;
  }

  /** The message is at the start of the cache and is the preserved prefix, and no other system position is left. */
  predicate Kept(s: Session, system: seq<Position>) {
    system <= s.ledger.cache && s.ledger.preserve == |system| == SystemEnd(s.ledger.cache)
  }

  /** Whatever is prefilled, generated and undone afterwards in whatever order, the message is kept. */
  ghost predicate AlwaysKept(s: Session, w: Window, system: seq<Position>) {
    forall ops: seq<Op> | NoSystem(ops) :: Kept(ApplyAll(s, w, ops), system)
  }

  /**
   A session that opens with its one system message keeps it in every run if and only if no snapshot of
   an earlier session is left, or that session's cache was at least as long as the message.
   */
  lemma FirstSystemStays(s: Session, w: Window, embeds: seq<nat>, ids: seq<nat>)
    requires s.ledger == Ledger([], [], 0) && embeds != []
    ensures AlwaysKept(Prefilled(s, w, embeds, System, ids), w, Placed(Some(s.nextRound), System, embeds))
      <==> (s.snapshot.Some? ==> s.snapshot.value.cacheLength >= |embeds|)
  {
    hide ApplyAll, SystemEnd, Prefilled, Guarded, Kept, NoSystem;
    var system := Placed(Some(s.nextRound), System, embeds);
    var t := Prefilled(s, w, embeds, System, ids);
    OpensWith(s, w, embeds, ids);
    if s.snapshot.None? || s.snapshot.value.cacheLength >= |embeds| {
      forall ops: seq<Op> | NoSystem(ops) ensures Kept(ApplyAll(t, w, ops), system) {
        GuardedKept(t, w, ops, system);
      }
    } else {
      UndoCuts(t, w, system);
    }
  }

  lemma OpensWith(s: Session, w: Window, embeds: seq<nat>, ids: seq<nat>)
    requires s.ledger == Ledger([], [], 0) && embeds != []
    ensures var t, system := Prefilled(s, w, embeds, System, ids), Placed(Some(s.nextRound), System, embeds);
      && t.snapshot == s.snapshot
      && (Guarded(t, system) <==> (s.snapshot.Some? ==> s.snapshot.value.cacheLength >= |embeds|))
  {
    hide SystemEnd;
    var system := Placed(Some(s.nextRound), System, embeds);
    var l := Entered(s, s.ledger, embeds, System, ids);
    assert l.cache == system;
    SystemEndUnique(system, |system|);
    assert Enforce(s.ledger, w.enabled, w.high, w.low) == s.ledger;
    EnforceGuarded(l, w, system);
  }

  lemma GuardedKept(s: Session, w: Window, ops: seq<Op>, system: seq<Position>)
    requires Guarded(s, system) && NoSystem(ops)
    ensures Kept(ApplyAll(s, w, ops), system)
  {
    hide ApplyAll, SystemEnd, NoSystem;
    GuardedAll(s, w, ops, system);
  }

  /** A restore is enough to cut off the end of the message. */
  lemma UndoCuts(s: Session, w: Window, system: seq<Position>)
    requires s.snapshot.Some? && s.snapshot.value.cacheLength < |system|
    ensures !AlwaysKept(s, w, system)
  {
    hide SystemEnd;
    var ops := [Undo(true)];
    assert ops[1..] == [];
    assert ApplyAll(s, w, ops) == Restored(s, None, true).0;
    assert NoSystem(ops) && !Kept(ApplyAll(s, w, ops), system);
  }

  /**
   A system message entered where all earlier ones are protected is protected itself exactly when the
   cache was empty or it still ends within the prefix preserved before.
   */
  lemma SystemEntered(s: Session, l: Ledger, embeds: seq<nat>, ids: seq<nat>)
    requires embeds != [] && SystemEnd(l.cache) <= l.preserve
    ensures var r := Entered(s, l, embeds, System, ids);
      SystemEnd(r.cache) <= r.preserve <==> l.cache == [] || |l.cache| + |embeds| <= l.preserve
  {
    hide SystemEnd;
    var r := Entered(s, l, embeds, System, ids);
    SystemEndUnique(r.cache, |r.cache|);
  }

  // ---------- restoring after prefills ----------

  /** The positions of the saved cache and those cached since can be told apart. */
  predicate Novel(saved: seq<Position>, since: seq<Position>) {
    forall i, j | 0 <= i < |saved| && 0 <= j < |since| :: saved[i] != since[j]
  }

  /** What `gone` dropped positions leave of `c` and what was cached after it, behind a prefix of `p`. */
  predicate Left(c: seq<Position>, p: nat, since: seq<Position>, gone: int, now: seq<Position>) {
    p <= |c| && 0 <= gone <= |c| + |since| - p && now == c[..p] + (c[p..] + since)[gone..]
  }

  lemma LeftMore(c: seq<Position>, p: nat, since: seq<Position>, gone: int, now: seq<Position>, more: seq<Position>)
    requires Left(c, p, since, gone, now)
    ensures Left(c, p, since + more, gone, now + more)
  {
    assert c[p..] + (since + more) == (c[p..] + since) + more;
  }

  lemma LeftLess(c: seq<Position>, p: nat, since: seq<Position>, gone: int, now: seq<Position>, len: nat)
    requires Left(c, p, since, gone, now) && p + len <= |now|
    ensures Left(c, p, since, gone + len, now[..p] + now[p + len..])
  {
    assert now[..p] == c[..p] && now[p..] == (c[p..] + since)[gone..];
    assert now[p + len..] == now[p..][len..];
  }

  /** Truncation to the saved length restores the cache exactly if nothing was dropped, or all was preserved. */
  lemma LeftRestores(c: seq<Position>, p: nat, since: seq<Position>, gone: int, now: seq<Position>)
    requires Left(c, p, since, gone, now) && Distinct(c) && Novel(c, since)
    ensures Truncated(now, |c|) == c <==> gone == 0 || p == |c|
  {
    if gone == 0 {
      assert now == c + since;
    } else if p < |c| && |now| > p {
      assert now[p] == (c[p..] + since)[gone];
      assert now[p] != c[p];
    }
  }

  /** What `t` has become since `s` was saved. */
  predicate Since(s: Session, t: Session, since: seq<Position>) {
    && Left(s.ledger.cache, s.ledger.preserve, since, t.offset - s.offset, t.ledger.cache)
    && t.ledger.preserve == s.ledger.preserve && t.snapshot == Some(Saved(s)) && t.mel.Some?
    && (t.offset == s.offset ==> s.ledger.history <= t.ledger.history)
    && Novel(s.ledger.cache, since)
  }

  /** Embeddings that are not in the saved cache. */
  predicate NovelTo(c: seq<Position>, embeds: seq<nat>) {
    forall i, j | 0 <= i < |c| && 0 <= j < |embeds| :: c[i].id != embeds[j]
  }

  lemma NovelMore(c: seq<Position>, since: seq<Position>, round: Option<int>, kind: ChunkKind, embeds: seq<nat>)
    requires Novel(c, since) && NovelTo(c, embeds)
    ensures Novel(c, since + Placed(round, kind, embeds))
  {
  }

  /** Prefills that are no system messages, and generation steps, all feeding novel embeddings. */
  predicate Later(c: seq<Position>, op: Op) {
    match op
    case Prefill(embeds, kind, ids) => kind != System && NovelTo(c, embeds)
    case Generate(step) => step.Feed? ==> NovelTo(c, step.embeds)
    case _ => false
  }

  lemma SinceStep(s: Session, t: Session, since: seq<Position>, step: GenStep) returns (more: seq<Position>)
    requires Since(s, t, since) && Later(s.ledger.cache, Generate(step))
    ensures Since(s, Step(t, step), more)
  {
    hide Left, Novel, NovelTo, Placed;
    if step.Feed? {
      var x := Placed(t.host, Assistant, step.embeds);
      LeftMore(s.ledger.cache, s.ledger.preserve, since, t.offset - s.offset, t.ledger.cache, x);
      NovelMore(s.ledger.cache, since, t.host, Assistant, step.embeds);
      more := since + x;
    } else {
      more := since;
    }
  }

  lemma {:induction false} ShrinkNothing(l: Ledger, target: nat)
    requires |Shrink(l, target).cache| == |l.cache|
    ensures Shrink(l, target) == l
  {
    if |l.cache| > target && NextDroppable(l, 0).Some? {
      var round := NextDroppable(l, 0).value;
      WithoutMembers(l.history, round);
      ShrinkCutsAfterPrefix(DropRound(l, round), target);
    }
  }

  /** The window, as far as a later restore is concerned. */
  lemma EnforceLeft(l: Ledger, w: Window, c: seq<Position>, since: seq<Position>, gone: int)
    requires Left(c, l.preserve, since, gone, l.cache)
    ensures var r := Enforce(l, w.enabled, w.high, w.low);
      && |r.cache| <= |l.cache| && r.preserve == l.preserve
      && Left(c, l.preserve, since, gone + (|l.cache| - |r.cache|), r.cache)
      && (|r.cache| == |l.cache| ==> r == l)
  {
    hide Shrink;
    var target := if w.low < 0 then 0 else w.low;
    var r := Shrink(l, target);
    ShrinkCutsAfterPrefix(l, target);
    LeftLess(c, l.preserve, since, gone, l.cache, |l.cache| - |r.cache|);
    if |r.cache| == |l.cache| { ShrinkNothing(l, target); }
  }

  lemma SincePrefill(
    s: Session, t: Session, since: seq<Position>, w: Window, embeds: seq<nat>, kind: ChunkKind, ids: seq<nat>)
    returns (more: seq<Position>)
    requires Since(s, t, since) && Later(s.ledger.cache, Prefill(embeds, kind, ids))
    ensures Since(s, Prefilled(t, w, embeds, kind, ids), more)
  {
    hide Left, Novel, NovelTo, Placed, Enforce, Saved;
    var c, p, gone := s.ledger.cache, s.ledger.preserve, t.offset - s.offset;
    var x := Placed(Some(t.nextRound), kind, embeds);
    more := since + x;
    NovelMore(c, since, Some(t.nextRound), kind, embeds);
    EnforceLeft(t.ledger, w, c, since, gone);
    var a := Enforce(t.ledger, w.enabled, w.high, w.low);
    gone := gone + (|t.ledger.cache| - |a.cache|);
    LeftMore(c, p, since, gone, a.cache, x);
    var b := Entered(t, a, embeds, kind, ids);
    LeftBounds(c, p, since, t.offset - s.offset, t.ledger.cache);
    EnforceLeft(b, w, c, more, gone);
  }

  lemma LeftBounds(c: seq<Position>, p: nat, since: seq<Position>, gone: int, now: seq<Position>)
    requires Left(c, p, since, gone, now)
    ensures gone >= 0
  {
  }

  lemma {:induction false} SinceAll(s: Session, t: Session, since: seq<Position>, w: Window, ops: seq<Op>)
    returns (more: seq<Position>)
    requires Since(s, t, since) && forall i | 0 <= i < |ops| :: Later(s.ledger.cache, ops[i])
    ensures Since(s, ApplyAll(t, w, ops), more)
    decreases |ops|
  {
    hide Since, Prefilled, Step, NovelTo;
    if ops == [] {
      more := since;
    } else {
      if ops[0].Prefill? {
        more := SincePrefill(s, t, since, w, ops[0].embeds, ops[0].kind, ops[0].ids);
      } else {
        more := SinceStep(s, t, since, ops[0].step);
      }
      more := SinceAll(s, Apply(t, w, ops[0]), more, w, ops[1..]);
    }
  }

  /**
   A restore that comes after later prefills truncates by length. It gives the saved cache back exactly
   when the window has dropped nothing since the save, or all of the saved cache was preserved; in the
   first case the whole session is back.
   */
  lemma LateRestore(s: Session, w: Window, ops: seq<Op>)
    requires s.ledger.preserve <= |s.ledger.cache| && Distinct(s.ledger.cache)
    requires forall i | 0 <= i < |ops| :: Later(s.ledger.cache, ops[i])
    ensures var t := ApplyAll(Begun(s, true), w, ops);
      var r := Restored(t, None, true).0;
      && (r.ledger.cache == s.ledger.cache
          <==> t.offset == s.offset || s.ledger.preserve == |s.ledger.cache|)
      && (t.offset == s.offset ==> SameSession(s, r))
  {
    hide ApplyAll, NovelTo, Distinct, Novel, Later;
    var c := s.ledger.cache;
    StartsSince(s);
    var since := SinceAll(s, Begun(s, true), [], w, ops);
    var t := ApplyAll(Begun(s, true), w, ops);
    LeftRestores(c, s.ledger.preserve, since, t.offset - s.offset, t.ledger.cache);
    if t.offset == s.offset { assert t.ledger.history[..|s.ledger.history|] == s.ledger.history; }
  }

  lemma StartsSince(s: Session)
    requires s.ledger.preserve <= |s.ledger.cache|
    ensures Since(s, Begun(s, true), [])
  {
    var c, p := s.ledger.cache, s.ledger.preserve;
    assert c == c[..p] + (c[p..] + [])[0..];
  }
}
