/**
 The streaming session of the omni model: prefill, generation in rounds, the cache window, and the
 speculative snapshot that lets a wrongly started generation be undone.
 Network passes are parameters: the positions they cache and the tokens they produce.
 */
module OmniSession {
  import opened Wrappers
  import opened ChunkLedger
  import opened CachePositions

  type Audio = seq<nat>

  /** `SpeculativeSnapshot`, without its debugging fields. */
  datatype Snapshot = Snapshot(
    cacheLength: nat, newUserMsg: bool, generated: bool, completed: bool,
    nextRound: int, pendingRound: Option<int>, historyLength: nat,
    lastTurnTokens: Option<seq<nat>>, audioChunkIdx: nat,
    mel: Option<nat>, audio: Option<Audio>, rng: nat)

  /** The session; `host` and `before` are the round and the cache length a running generation started with. */
  datatype Session = Session(
    ledger: Ledger, offset: int,
    nextRound: int, pendingRound: Option<int>,
    newUserMsg: bool, generated: bool, completed: bool,
    audio: Option<Audio>, audioChunkIdx: nat, lastTurnTokens: Option<seq<nat>>,
    mel: Option<nat>, rng: nat,
    turnIds: Option<seq<nat>>, turnText: bool,
    host: Option<int>, before: nat,
    snapshot: Option<Snapshot>)

  /** State of the mel processor after `reset_streaming`. */
  const MEL_RESET: nat := 0

  datatype Window = Window(enabled: bool, high: int, low: int)

  // ---------- the operations as functions ----------

  function Registered(l: Ledger, length: int, kind: ChunkKind, round: int, ids: Option<seq<nat>>): Ledger {
    if length <= 0 then l
    else l.(history := l.history + [Entry(length, kind, round, ids)],
            preserve := if kind == System && l.preserve < length then length else l.preserve)
  }

  /** Length charged to the assistant's turn: the re-tokenised text, or the growth of the cache. */
  function AssistantLength(s: Session, before: nat, ids: Option<seq<nat>>): nat {
    match ids
    case Some(t) => |t|
    case None => if |s.ledger.cache| > before then |s.ledger.cache| - before else 0
  }

  function Finalized(s: Session, round: Option<int>, before: nat, ids: Option<seq<nat>>): Session {
    match round
    case None => s.(pendingRound := None)
    case Some(r) =>
      s.(ledger := Registered(s.ledger, AssistantLength(s, before, ids), Assistant, r, ids),
         pendingRound := None, nextRound := s.nextRound + 1)
  }

  function Saved(s: Session): Snapshot {
    Snapshot(|s.ledger.cache|, s.newUserMsg, s.generated, s.completed, s.nextRound, s.pendingRound,
             |s.ledger.history|, s.lastTurnTokens, s.audioChunkIdx, s.mel, s.audio, s.rng)
  }

  /** The start of `streaming_generate`: snapshot, turn flags, audio cache dropped, processor reset. */
  function Begun(s: Session, enable: bool): Session {
    s.(snapshot := if enable then Some(Saved(s)) else s.snapshot,
       newUserMsg := true, generated := true, completed := false, audio := None,
       turnIds := None, turnText := false, mel := Some(MEL_RESET), audioChunkIdx := 0,
       host := s.pendingRound, before := |s.ledger.cache|)
  }

  /** The positions of embeddings fed for a round. */
  function Placed(round: Option<int>, kind: ChunkKind, embeds: seq<nat>): (r: seq<Position>)
    ensures |r| == |embeds| && AllOf(r, round) && forall i | 0 <= i < |r| :: r[i].kind == kind
  {
    seq(|embeds|, i requires 0 <= i < |embeds| => Position(round, kind, embeds[i]))
  }

  /** What a generation can do to the session between two yields. */
  datatype GenStep =
    | Feed(embeds: seq<nat>)
    | Collect(tail: seq<nat>)
    | LastTurn(last: Option<seq<nat>>)
    | Finish(text: Option<seq<nat>>)
    | Draw(random: nat)
    | Restart

  function Step(s: Session, step: GenStep): Session {
    match step
    case Feed(embeds) => s.(ledger := s.ledger.(cache := s.ledger.cache + Placed(s.host, Assistant, embeds)))
    case Collect(ids) => s.(turnIds := Some((if s.turnIds.Some? then s.turnIds.value else []) + ids))
    case LastTurn(tokens) => s.(lastTurnTokens := tokens)
    case Finish(text) => Finalized(s.(turnText := true), s.host, s.before, text)
    case Draw(rng) => s.(rng := rng)
    case Restart => Begun(s, false)
  }

  function Run(s: Session, steps: seq<GenStep>): Session
    decreases |steps|
  {
    if steps == [] then s else Run(Step(s, steps[0]), steps[1..])
  }

  function Truncated<T>(c: seq<T>, n: nat): seq<T> {
    if |c| > n then c[..n] else c
  }

  /**
   `restore_speculative_snapshot`. `melOk` is false when restoring the mel processor raises: the
   exception is swallowed and what was restored before it stays restored.
   */
  function Restored(s: Session, given: Option<Snapshot>, melOk: bool): (Session, bool) {
    var snap := if given.Some? then given else s.snapshot;
    match snap
    case None => (s, false)
    case Some(p) =>
      var t := s.(ledger := s.ledger.(cache := Truncated(s.ledger.cache, p.cacheLength),
                                      history := Truncated(s.ledger.history, p.historyLength)),
                  audio := p.audio, newUserMsg := p.newUserMsg, generated := p.generated,
                  completed := p.completed, nextRound := p.nextRound, pendingRound := p.pendingRound,
                  lastTurnTokens := p.lastTurnTokens, audioChunkIdx := p.audioChunkIdx);
      if p.mel.Some? && t.mel.Some? && !melOk then (t, false)
      else
        (t.(mel := if p.mel.Some? && t.mel.Some? then p.mel else t.mel,
            rng := p.rng, turnIds := None, turnText := false, snapshot := None), true)
  }

  // ---------- undoing a generation ----------

  /** `t` has been reached from `s` without losing anything a restore needs. */
  predicate Extends(s: Session, t: Session) {
    && s.ledger.cache <= t.ledger.cache && s.ledger.history <= t.ledger.history
    && s.ledger.preserve == t.ledger.preserve && s.offset == t.offset && t.mel.Some?
  }

  lemma StepExtends(s: Session, t: Session, step: GenStep)
    requires Extends(s, t)
    ensures Extends(s, Step(t, step)) && Step(t, step).snapshot == t.snapshot
  {
    var u := Step(t, step);
    match step {
      case Feed(embeds) => assert t.ledger.cache <= u.ledger.cache;
      case Finish(text) => assert t.ledger.history <= u.ledger.history;
      case _ =>
    }
  }

  lemma {:induction false} RunExtends(s: Session, t: Session, steps: seq<GenStep>)
    requires Extends(s, t)
    ensures Extends(s, Run(t, steps)) && Run(t, steps).snapshot == t.snapshot
    decreases |steps|
  {
    hide Extends, Step;
    if steps == [] {
    } else {
      StepExtends(s, t, steps[0]);
      RunExtends(s, Step(t, steps[0]), steps[1..]);
    }
  }

  /**
   `r` is `s` again: cache contents, ledger, round counters, turn flags, audio cache, audio chunk index,
   last-turn tokens, mel state and random state. Only the texts of the turn and the snapshot are
   cleared, and the locals of the generation are not part of the session.
   */
  predicate SameSession(s: Session, r: Session) {
    && r == s.(turnIds := None, turnText := false, snapshot := None, mel := r.mel, host := r.host, before := r.before)
    && (s.mel.Some? ==> r.mel == s.mel)
  }

  lemma ExtensionRestores(s: Session, t: Session)
    requires Extends(s, t)
    ensures var r := Restored(t, Some(Saved(s)), true);
      r.1 && SameSession(s, r.0)
  {
    assert t.ledger.cache[..|s.ledger.cache|] == s.ledger.cache;
    assert t.ledger.history[..|s.ledger.history|] == s.ledger.history;
  }

  /** The snapshot undoes the generation, however it was started and whatever steps it took. */
  predicate UndoneBy(p: Snapshot, s: Session, enable: bool, steps: seq<GenStep>) {
    var r := Restored(Run(Begun(s, enable), steps), Some(p), true);
    r.1 && SameSession(s, r.0)
  }

  ghost predicate UndoesAll(p: Snapshot, s: Session) {
    forall enable: bool, steps: seq<GenStep> :: UndoneBy(p, s, enable, steps)
  }

  /** A snapshot of a session undoes every generation that starts from it. */
  lemma SnapshotUndoes(s: Session)
    ensures UndoesAll(Saved(s), s)
  {
    hide Restored, Saved;
    forall enable: bool, steps: seq<GenStep> ensures UndoneBy(Saved(s), s, enable, steps) {
      RunExtends(s, Begun(s, enable), steps);
      ExtensionRestores(s, Run(Begun(s, enable), steps));
    }
  }

  /**
   A generation started with a snapshot, carried any number of steps to any outcome, and then undone
   leaves the session as it was, and a second restore finds nothing to do.
   */
  lemma SpeculationRestores(s: Session, steps: seq<GenStep>, melOk: bool)
    ensures var r := Restored(Run(Begun(s, true), steps), None, true);
      r.1 && SameSession(s, r.0) && Restored(r.0, None, melOk) == (r.0, false)
  {
    RunExtends(s, Begun(s, true), steps);
    ExtensionRestores(s, Run(Begun(s, true), steps));
  }

  /** A restore that fails in the mel processor keeps the snapshot, and trying again completes it. */
  lemma FailedRestoreCanBeRetried(s: Session, steps: seq<GenStep>)
    requires s.mel.Some?
    ensures var failed := Restored(Run(Begun(s, true), steps), None, false);
      && !failed.1 && failed.0.ledger == s.ledger
      && Restored(failed.0, None, true) == Restored(Run(Begun(s, true), steps), None, true)
  {
    RunExtends(s, Begun(s, true), steps);
    var t := Run(Begun(s, true), steps);
    assert t.ledger.cache[..|s.ledger.cache|] == s.ledger.cache;
    assert t.ledger.history[..|s.ledger.history|] == s.ledger.history;
  }

  // ---------- what every operation keeps ----------

  /** Ledger entries are positive, and no system entry is longer than the preserved prefix. */
  predicate Sound(l: Ledger) {
    && AllPositive(l.history)
    && forall i | 0 <= i < |l.history| :: l.history[i].kind == System ==> l.history[i].length <= l.preserve
  }

  datatype Op =
    | Prefill(embeds: seq<nat>, kind: ChunkKind, ids: seq<nat>)
    | Begin(enable: bool)
    | Generate(step: GenStep)
    | Undo(melOk: bool)
    | Reset
    | InitProcessor

  /** A prefill's positions are cached and registered for the next round. */
  function Entered(s: Session, l: Ledger, embeds: seq<nat>, kind: ChunkKind, ids: seq<nat>): Ledger {
    var fed := l.(cache := l.cache + Placed(Some(s.nextRound), kind, embeds));
    Registered(fed, |embeds|, kind, s.nextRound, Some(ids))
  }

  /** `streaming_prefill` on the ledger: window, forward pass, registration, window again. */
  function Prefilled(s: Session, w: Window, embeds: seq<nat>, kind: ChunkKind, ids: seq<nat>): Session {
    var a := Enforce(s.ledger, w.enabled, w.high, w.low);
    var b := Entered(s, a, embeds, kind, ids);
    var c := Enforce(b, w.enabled, w.high, w.low);
    s.(ledger := c, pendingRound := Some(s.nextRound),
       offset := s.offset + (|s.ledger.cache| - |a.cache|) + (|b.cache| - |c.cache|))
  }

  /**
   A prefill adds to the cache exactly what it registers, and the window takes away from both alike:
   cache and ledger keep their difference, and the cache together with the positions dropped so far
   grows by the new positions.
   */
  lemma PrefillConserves(s: Session, w: Window, embeds: seq<nat>, kind: ChunkKind, ids: seq<nat>)
    ensures var r := Prefilled(s, w, embeds, kind, ids);
      && |r.ledger.cache| - TotalLength(r.ledger.history) == |s.ledger.cache| - TotalLength(s.ledger.history)
      && |r.ledger.cache| + r.offset == |s.ledger.cache| + s.offset + |embeds|
  {
    hide Enforce;
    EnforceConserves(s.ledger, w);
    var a := Enforce(s.ledger, w.enabled, w.high, w.low);
    var e := Entry(|embeds|, kind, s.nextRound, Some(ids));
    TotalConcat(a.history, [e]);
    assert [e][1..] == [];
    EnforceConserves(Entered(s, a, embeds, kind, ids), w);
  }

  /** After a prefill the cache is within the high limit again, or no round is left that could be dropped. */
  lemma PrefillBounded(s: Session, w: Window, embeds: seq<nat>, kind: ChunkKind, ids: seq<nat>)
    requires w.enabled && w.high > 0
    ensures var l := Prefilled(s, w, embeds, kind, ids).ledger;
      |l.cache| <= w.high || |l.cache| <= w.low || Stuck(l)
  {
    hide Shrink, Stuck;
    var b := Entered(s, Enforce(s.ledger, w.enabled, w.high, w.low), embeds, kind, ids);
    Hysteresis(b, w.enabled, w.high, w.low);
  }

  /**
   The window is enforced before the new positions come in: they cost no further round if there is room
   for them afterwards, and then they are the end of the cache.
   */
  lemma PrefillFits(s: Session, w: Window, embeds: seq<nat>, kind: ChunkKind, ids: seq<nat>)
    requires |Enforce(s.ledger, w.enabled, w.high, w.low).cache| + |embeds| <= w.high
    ensures Prefilled(s, w, embeds, kind, ids).ledger.cache
         == Enforce(s.ledger, w.enabled, w.high, w.low).cache + Placed(Some(s.nextRound), kind, embeds)
  {
    hide Shrink;
    var b := Entered(s, Enforce(s.ledger, w.enabled, w.high, w.low), embeds, kind, ids);
    Hysteresis(b, w.enabled, w.high, w.low);
  }

  lemma EnforceConserves(l: Ledger, w: Window)
    ensures var r := Enforce(l, w.enabled, w.high, w.low);
      |r.cache| - TotalLength(r.history) == |l.cache| - TotalLength(l.history)
  {
    ShrinkConserves(l, if w.low < 0 then 0 else w.low);
  }

  /** `reset_session`: the snapshot is not among the fields it clears. */
  function Cleared(s: Session): Session {
    s.(ledger := Ledger([], [], 0), offset := 0, nextRound := 0, pendingRound := None,
       newUserMsg := true, generated := false, completed := false, audio := None, lastTurnTokens := None)
  }

  /** `init_streaming_processor` */
  function Restarted(s: Session): Session {
    s.(mel := Some(MEL_RESET), audioChunkIdx := 0)
  }

  function Apply(s: Session, w: Window, op: Op): Session {
    match op
    case Prefill(embeds, kind, ids) => Prefilled(s, w, embeds, kind, ids)
    case Begin(enable) => Begun(s, enable)
    case Generate(step) => Step(s, step)
    case Undo(melOk) => Restored(s, None, melOk).0
    case Reset => Cleared(s)
    case InitProcessor => Restarted(s)
  }

  function ApplyAll(s: Session, w: Window, ops: seq<Op>): Session
    decreases |ops|
  {
    if ops == [] then s else ApplyAll(Apply(s, w, ops[0]), w, ops[1..])
  }

  lemma EmptySound()
    ensures Sound(Ledger([], [], 0))
  {
  }

  lemma RegisteredSound(l: Ledger, length: int, kind: ChunkKind, round: int, ids: Option<seq<nat>>)
    requires Sound(l)
    ensures Sound(Registered(l, length, kind, round, ids))
  {
  }

  lemma {:induction false} MembersKept(s: Ledger, target: nat)
    ensures forall e | e in Shrink(s, target).history :: e in s.history
    decreases |s.history|
  {
    if |s.cache| > target && NextDroppable(s, 0).Some? {
      var round := NextDroppable(s, 0).value;
      WithoutMembers(s.history, round);
      MembersKept(DropRound(s, round), target);
    }
  }

  lemma EnforceSound(l: Ledger, w: Window)
    requires Sound(l)
    ensures Sound(Enforce(l, w.enabled, w.high, w.low))
  {
    var target := if w.low < 0 then 0 else w.low;
    ShrinkPositive(l, target);
    MembersKept(l, target);
    var h := Shrink(l, target).history;
    forall i | 0 <= i < |h| && h[i].kind == System ensures h[i].length <= l.preserve { assert h[i] in h; }
  }

  lemma PrefillSound(s: Session, w: Window, embeds: seq<nat>, kind: ChunkKind, ids: seq<nat>)
    requires Sound(s.ledger)
    ensures Sound(Prefilled(s, w, embeds, kind, ids).ledger)
  {
    hide Enforce, Registered, Placed;
    EnforceSound(s.ledger, w);
    var a := Enforce(s.ledger, w.enabled, w.high, w.low);
    var fed := a.(cache := a.cache + Placed(Some(s.nextRound), kind, embeds));
    RegisteredSound(fed, |embeds|, kind, s.nextRound, Some(ids));
    EnforceSound(Registered(fed, |embeds|, kind, s.nextRound, Some(ids)), w);
  }

  lemma ApplySound(s: Session, w: Window, op: Op)
    requires Sound(s.ledger)
    ensures Sound(Apply(s, w, op).ledger)
  {
    hide Prefilled, Placed;
    match op {
      case Prefill(embeds, kind, ids) => PrefillSound(s, w, embeds, kind, ids);
      case _ =>
    }
  }

  /** Whatever is called in whatever order, stored entries stay positive, system entries no longer than the prefix. */
  lemma {:induction false} EveryRunSound(s: Session, w: Window, ops: seq<Op>)
    requires Sound(s.ledger)
    ensures Sound(ApplyAll(s, w, ops).ledger)
    decreases |ops|
  {
    hide Apply, Sound;
    if ops == [] {
    } else {
      ApplySound(s, w, ops[0]);
      EveryRunSound(Apply(s, w, ops[0]), w, ops[1..]);
    }
  }

  /** An empty session. */
  const EMPTY := Session(Ledger([], [], 0), 0, 0, None, true, false, false, None, 0, None, None, 0, None, false,
                         None, 0, None)

  // ---------- the object ----------

  /** The model object: the fields the streaming methods update in place. */
  class OmniModel {
    var history: seq<Entry>
    var cache: seq<Position>
    var preserve: nat
    var positionOffset: int
    var nextRound: int
    var pendingRound: Option<int>
    var newUserMsg: bool
    var generated: bool
    var completed: bool
    var audio: Option<Audio>
    var audioChunkIdx: nat
    var lastTurnTokens: Option<seq<nat>>
    var mel: Option<nat>
    var rng: nat
    var turnIds: Option<seq<nat>>
    var turnText: bool
    var host: Option<int>
    var before: nat
    var snapshot: Option<Snapshot>
    const window: Window

    constructor (window: Window)
      ensures State() == EMPTY && this.window == window
    {
      history, cache, preserve, positionOffset := [], [], 0, 0;
      nextRound, pendingRound := 0, None;
      newUserMsg, generated, completed := true, false, false;
      audio, audioChunkIdx, lastTurnTokens := None, 0, None;
      mel, rng, turnIds, turnText, snapshot := None, 0, None, false, None;
      host, before := None, 0;
      this.window := window;
    }

    ghost function State(): Session
      reads this
    {
      Session(Ledger(history, cache, preserve), positionOffset, nextRound, pendingRound, newUserMsg, generated,
              completed, audio, audioChunkIdx, lastTurnTokens, mel, rng, turnIds, turnText, host, before, snapshot)
    }

    ghost predicate Valid()
      reads this
    {
      Sound(State().ledger)
    }

    /** `reset_session` */
    method ResetSession()
      modifies this
      ensures State() == Cleared(old(State())) && Valid()
      ensures cache == [] && history == [] && preserve == 0 && positionOffset == 0 && nextRound == 0
      ensures pendingRound == None && newUserMsg && !generated && !completed && audio == None && lastTurnTokens == None
      ensures snapshot == old(snapshot) && mel == old(mel) && audioChunkIdx == old(audioChunkIdx)
    {
      hide Sound;
      ClearCaches();
      generated, completed, newUserMsg := false, false, true;
      ClearLedger();
      EmptySound();
    }

    method ClearCaches()
      modifies this`cache, this`audio, this`lastTurnTokens
      ensures State()
              == old(State()).(ledger := old(State()).ledger.(cache := []), audio := None, lastTurnTokens := None)
    {
      cache, audio, lastTurnTokens := [], None, None;
    }

    method ClearLedger()
      modifies this`preserve, this`positionOffset, this`nextRound, this`pendingRound, this`history
      ensures State() == old(State()).(ledger := Ledger([], old(cache), 0), offset := 0, nextRound := 0,
                                       pendingRound := None)
    {
      preserve, positionOffset := 0, 0;
      nextRound, pendingRound := 0, None;
      history := [];
    }

    /** `init_streaming_processor` */
    method InitStreamingProcessor()
      modifies this`mel, this`audioChunkIdx
      ensures State() == Restarted(old(State()))
    {
      mel, audioChunkIdx := Some(MEL_RESET), 0;
    }

    /** `_register_chunk` */
    method RegisterChunk(seqLen: int, kind: ChunkKind, round: int, ids: Option<seq<nat>>)
      modifies this`history, this`preserve
      ensures State() == old(State()).(ledger := Registered(old(State()).ledger, seqLen, kind, round, ids))
      ensures old(Valid()) ==> Valid()
    {
      if seqLen <= 0 { return; }
      history := history + [Entry(seqLen, kind, round, ids)];
      if kind == System {
        preserve := if preserve < seqLen then seqLen else preserve;
      }
    }

    /** `_finalize_round` */
    method FinalizeRound(round: Option<int>, before: nat, ids: Option<seq<nat>>)
      modifies this`history, this`preserve, this`pendingRound, this`nextRound
      ensures State() == Finalized(old(State()), round, before, ids)
      ensures old(Valid()) ==> Valid()
    {
      if round.None? {
        pendingRound := None;
        return;
      }
      var assistantLen: int;
      match ids {
        case Some(t) => assistantLen := |t|;
        case None => assistantLen := if |cache| - before > 0 then |cache| - before else 0;
      }
      if assistantLen > 0 {
        RegisterChunk(assistantLen, Assistant, round.value, ids);
      }
      pendingRound := None;
      nextRound := nextRound + 1;
    }

    /** `_drop_tokens_from_cache` */
    method DropTokensFromCache(length: int) returns (ok: bool)
      modifies this`cache, this`positionOffset
      ensures ok == DropTokens(old(cache), length, preserve).Some?
      ensures ok ==> cache == DropTokens(old(cache), length, preserve).value
      ensures ok ==> positionOffset == old(positionOffset) + length
      ensures !ok ==> cache == old(cache) && positionOffset == old(positionOffset)
    {
      var kept := DropTokens(cache, length, preserve);
      ok := kept.Some?;
      if ok {
        cache := kept.value;
        positionOffset := positionOffset + length;
      }
    }

    /** The entries of a round are removed from the ledger one at a time, by value. */
    method RemoveEntries(entries: seq<Entry>)
      modifies this`history
      ensures history == RemoveEach(old(history), entries)
    {
      var i := 0;
      while i < |entries|
        invariant i <= |entries|
        invariant RemoveEach(history, entries[i..]) == RemoveEach(old(history), entries)
      {
        assert entries[i..][1..] == entries[i + 1..];
        history := RemoveFirst(history, entries[i]);
        i := i + 1;
      }
    }

    /** `_drop_round` */
    method DropRoundFromCache(round: int) returns (ok: bool)
      requires Valid()
      modifies this`history, this`cache, this`positionOffset
      ensures ok == (HasRound(old(history), round) && CanDrop(old(State()).ledger, round))
      ensures ok ==> State().ledger == DropRound(old(State()).ledger, round)
      ensures ok ==> positionOffset - old(positionOffset) == |old(cache)| - |cache|
      ensures !ok ==> State() == old(State())
      ensures Valid()
    {
      OfRoundMembers(history, round);
      RemoveRound(history, round);
      WithoutPositive(history, round);
      WithoutMembers(history, round);
      var entries := OfRound(history, round);
      if entries == [] {
        return false;
      }
      var totalLen := TotalLength(entries);
      RoundPositive(history, round);
      assert totalLen > 0;
      ok := DropTokensFromCache(totalLen);
      if ok {
        RemoveEntries(entries);
        forall i | 0 <= i < |history| && history[i].kind == System ensures history[i].length <= preserve {
          assert history[i] in Without(old(history), round);
        }
      }
    }

    /** `_drop_next_round` */
    method DropNextRound() returns (ok: bool)
      requires Valid()
      modifies this`history, this`cache, this`positionOffset
      ensures ok == NextDroppable(old(State()).ledger, 0).Some?
      ensures ok ==> State().ledger == DropRound(old(State()).ledger, NextDroppable(old(State()).ledger, 0).value)
      ensures ok ==> positionOffset - old(positionOffset) == |old(cache)| - |cache|
      ensures !ok ==> State() == old(State())
      ensures Valid()
    {
      var seen: set<int> := {};
      var i := 0;
      while i < |history|
        invariant i <= |history| && State() == old(State())
        invariant NextDroppable(State().ledger, 0) == NextDroppable(State().ledger, i)
        invariant forall r | r in seen :: HasSystem(history, r) || !CanDrop(State().ledger, r)
      {
        var round := history[i].round;
        if round !in seen {
          seen := seen + {round};
          if !HasSystem(history, round) {
            assert HasRound(history, round);
            ok := DropRoundFromCache(round);
            if ok { return; }
          }
        }
        i := i + 1;
      }
      return false;
    }

    /** `_enforce_text_window` */
    method EnforceTextWindow()
      requires Valid()
      modifies this`history, this`cache, this`positionOffset
      ensures State().ledger == Enforce(old(State()).ledger, window.enabled, window.high, window.low)
      ensures positionOffset - old(positionOffset) == |old(cache)| - |cache|
      ensures Valid()
    {
      if !window.enabled || window.high <= 0 || |cache| <= window.high {
        return;
      }
      var target := if window.low < 0 then 0 else window.low;
      while |cache| > target
        invariant Valid() && preserve == old(preserve)
        invariant Shrink(State().ledger, target) == Shrink(old(State()).ledger, target)
        invariant positionOffset - old(positionOffset) == |old(cache)| - |cache|
        decreases |history|
      {
        ghost var before := State().ledger;
        var ok := DropNextRound();
        if !ok { break; }
        WithoutMembers(before.history, NextDroppable(before, 0).value);
      }
    }

    /** `streaming_prefill`, from the window check on; `embeds` are what the forward pass caches. */
    method StreamingPrefill(embeds: seq<nat>, kind: ChunkKind, ids: seq<nat>)
      requires Valid()
      modifies this
      ensures State() == Prefilled(old(State()), window, embeds, kind, ids)
      ensures Valid()
    {
      hide Enforce, Registered, Placed, Sound;
      pendingRound := Some(nextRound);
      EnforceTextWindow();
      EnterChunk(embeds, kind, ids);
      EnforceTextWindow();
    }

    /** The forward pass of a prefill and its registration. */
    method EnterChunk(embeds: seq<nat>, kind: ChunkKind, ids: seq<nat>)
      requires Valid()
      modifies this`cache, this`history, this`preserve
      ensures State() == old(State()).(ledger := Entered(old(State()), old(State()).ledger, embeds, kind, ids))
      ensures Valid()
    {
      hide Registered, Placed;
      cache := cache + Placed(Some(nextRound), kind, embeds);
      RegisterChunk(|embeds|, kind, nextRound, Some(ids));
    }

    /** `save_speculative_snapshot`: what it returns undoes every generation that starts now. */
    method SaveSpeculativeSnapshot() returns (s: Snapshot)
      ensures s == Saved(State()) && UndoesAll(s, State())
    {
      s := Snapshot(|cache|, newUserMsg, generated, completed, nextRound, pendingRound, |history|,
                    lastTurnTokens, audioChunkIdx, mel, audio, rng);
      SnapshotUndoes(State());
    }

    /** The turn flags and the audio cache are reset. */
    method ResetFlags()
      modifies this`newUserMsg, this`generated, this`completed, this`audio
      ensures State() == old(State()).(newUserMsg := true, generated := true, completed := false, audio := None)
    {
      newUserMsg, generated, completed := true, true, false;
      audio := None;
    }

    /** The streamed texts and the streaming processor are reset. */
    method ResetStream()
      modifies this`turnIds, this`turnText, this`mel, this`audioChunkIdx
      ensures State() == old(State()).(turnIds := None, turnText := false, mel := Some(MEL_RESET), audioChunkIdx := 0)
    {
      turnIds, turnText := None, false;
      mel := Some(MEL_RESET);
      audioChunkIdx := 0;
    }

    /** The beginning of `streaming_generate`, up to the first forward pass. */
    method BeginGenerate(enableSnapshot: bool)
      modifies this
      ensures State() == Begun(old(State()), enableSnapshot)
      ensures newUserMsg && generated && !completed && audio == None && mel == Some(MEL_RESET) && audioChunkIdx == 0
      ensures State().ledger == old(State()).ledger && host == old(pendingRound) && before == |old(cache)|
      ensures lastTurnTokens == old(lastTurnTokens) && rng == old(rng) && turnIds == None && !turnText
      ensures !enableSnapshot ==> snapshot == old(snapshot)
    {
      if enableSnapshot {
        var s := SaveSpeculativeSnapshot();
        snapshot := Some(s);
        assert State() == old(State()).(snapshot := Some(Saved(old(State()))));
      }
      ResetFlags();
      host, before := pendingRound, |cache|;
      ResetStream();
    }

    /** A forward pass of the running generation. */
    method FeedEmbeds(embeds: seq<nat>)
      modifies this`cache
      ensures State() == Step(old(State()), Feed(embeds))
    {
      hide Placed;
      cache := cache + Placed(host, Assistant, embeds);
    }

    /** The end of a generation: its text is kept, and the round it started with is finalised. */
    method FinishTurn(text: Option<seq<nat>>)
      modifies this`turnText, this`history, this`preserve, this`pendingRound, this`nextRound
      ensures State() == Step(old(State()), Finish(text))
    {
      hide Finalized, Sound;
      turnText := true;
      FinalizeRound(host, before, text);
    }

    /** One step of a running generation. */
    method Advance(step: GenStep)
      modifies this
      ensures State() == Step(old(State()), step)
    {
      hide Begun, Finalized, Placed;
      match step {
        case Feed(embeds) => FeedEmbeds(embeds);
        case Collect(tail) => turnIds := Some((if turnIds.Some? then turnIds.value else []) + tail);
        case LastTurn(last) => lastTurnTokens := last;
        case Finish(text) => FinishTurn(text);
        case Draw(random) => rng := random;
        case Restart => BeginGenerate(false);
      }
    }

    /** `_truncate_llm_cache` */
    method TruncateLlmCache(target: nat)
      modifies this`cache
      ensures cache == Truncated(old(cache), target)
    {
      if |cache| <= target { return; }
      cache := cache[..target];
    }

    method RestoreFlags(p: Snapshot)
      modifies this`audio, this`newUserMsg, this`generated, this`completed
      ensures State() == old(State()).(audio := p.audio, newUserMsg := p.newUserMsg, generated := p.generated,
                                       completed := p.completed)
    {
      audio := p.audio;
      newUserMsg, generated, completed := p.newUserMsg, p.generated, p.completed;
    }

    method RestoreRounds(p: Snapshot)
      modifies this`nextRound, this`pendingRound
      ensures State() == old(State()).(nextRound := p.nextRound, pendingRound := p.pendingRound)
    {
      nextRound, pendingRound := p.nextRound, p.pendingRound;
    }

    method ClearTurn(random: nat)
      modifies this`rng, this`turnIds, this`turnText, this`snapshot
      ensures State() == old(State()).(rng := random, turnIds := None, turnText := false, snapshot := None)
    {
      rng := random;
      turnIds, turnText := None, false;
      snapshot := None;
    }

    method RestoreLedger(p: Snapshot)
      modifies this`cache, this`history, this`lastTurnTokens, this`audioChunkIdx
      ensures State() == old(State()).(
        ledger := Ledger(Truncated(old(history), p.historyLength), Truncated(old(cache), p.cacheLength), preserve),
        lastTurnTokens := p.lastTurnTokens, audioChunkIdx := p.audioChunkIdx)
    {
      if |cache| > p.cacheLength {
        TruncateLlmCache(p.cacheLength);
      }
      if |history| > p.historyLength {
        history := history[..p.historyLength];
      }
      lastTurnTokens := p.lastTurnTokens;
      audioChunkIdx := p.audioChunkIdx;
    }

    /** `restore_speculative_snapshot`; `melOk` says whether the mel processor accepts its snapshot. */
    method RestoreSpeculativeSnapshot(given: Option<Snapshot>, melOk: bool) returns (ok: bool)
      modifies this
      ensures (State(), ok) == Restored(old(State()), given, melOk)
    {
      var snap := if given.Some? then given else snapshot;
      if snap.None? { return false; }
      RestoreLedger(snap.value);
      RestoreFlags(snap.value);
      RestoreRounds(snap.value);
      if snap.value.mel.Some? && mel.Some? {
        if !melOk { return false; }
        RestoreMel(snap.value.mel);
      }
      ClearTurn(snap.value.rng);
      return true;
    }

    method RestoreMel(saved: Option<nat>)
      modifies this`mel
      ensures State() == old(State()).(mel := saved)
    {
      mel := saved;
    }

    /** Start a generation speculatively, carry it any number of steps, undo it, and try to undo it again. */
    method Speculate(steps: seq<GenStep>) returns (undone: bool, again: bool)
      modifies this
      ensures undone && !again && SameSession(old(State()), State())
    {
      BeginGenerate(true);
      ghost var begun := State();
      var i := 0;
      while i < |steps|
        invariant i <= |steps|
        invariant Run(State(), steps[i..]) == Run(begun, steps)
      {
        assert steps[i..][1..] == steps[i + 1..];
        Advance(steps[i]);
        i := i + 1;
      }
      SpeculationRestores(old(State()), steps, true);
      undone := RestoreSpeculativeSnapshot(None, true);
      again := RestoreSpeculativeSnapshot(None, true);
    }
  }
}
