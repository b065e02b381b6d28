/**
 The chunk-history ledger of a streaming session: which stretches of the language model's key/value
 cache belong to which round, and how rounds are dropped when the cache outgrows its window.
 */
module ChunkLedger {
  import opened Arithmetic
  import opened Wrappers

  datatype ChunkKind = System | User | Assistant

  /** A cached position: the round being fed when it was cached, if any, what it was fed as, and its input. */
  datatype Position = Position(round: Option<int>, kind: ChunkKind, id: nat)

  /** One registered stretch of input. */
  datatype Entry = Entry(length: int, kind: ChunkKind, round: int, ids: Option<seq<nat>>)

  // ---------- the ledger as a list ----------

  function OfRound(h: seq<Entry>, round: int): seq<Entry> {
    if h == [] then []
    else if h[0].round == round then [h[0]] + OfRound(h[1..], round)
    else OfRound(h[1..], round)
  }

  function Without(h: seq<Entry>, round: int): (r: seq<Entry>)
    ensures |r| <= |h|
  {
    if h == [] then []
    else if h[0].round == round then Without(h[1..], round)
    else [h[0]] + Without(h[1..], round)
  }

  function TotalLength(h: seq<Entry>): int {
    if h == [] then 0 else h[0].length + TotalLength(h[1..])
  }

  predicate HasSystem(h: seq<Entry>, round: int) {
    exists i | 0 <= i < |h| :: h[i].round == round && h[i].kind == System
  }

  predicate HasRound(h: seq<Entry>, round: int) {
    exists i | 0 <= i < |h| :: h[i].round == round
  }

  predicate AllPositive(h: seq<Entry>) {
    forall i | 0 <= i < |h| :: h[i].length > 0
  }

  /** `list.remove`: the first equal element goes. */
  function RemoveFirst(h: seq<Entry>, e: Entry): (r: seq<Entry>)
    ensures |r| <= |h|
  {
    if h == [] then [] else if h[0] == e then h[1..] else [h[0]] + RemoveFirst(h[1..], e)
  }

  function RemoveEach(h: seq<Entry>, es: seq<Entry>): seq<Entry>
    decreases |es|
  {
    if es == [] then h else RemoveEach(RemoveFirst(h, es[0]), es[1..])
  }

  lemma {:induction false} RemoveEachSkips(x: Entry, t: seq<Entry>, es: seq<Entry>)
    requires x !in es
    ensures RemoveEach([x] + t, es) == [x] + RemoveEach(t, es)
    decreases |es|
  {
    if es == [] {
    } else {
      assert ([x] + t)[1..] == t;
      RemoveEachSkips(x, RemoveFirst(t, es[0]), es[1..]);
    }
  }

  lemma {:induction false} OfRoundMembers(h: seq<Entry>, round: int)
    ensures forall e | e in OfRound(h, round) :: e.round == round && e in h
    ensures OfRound(h, round) != [] <==> HasRound(h, round)
    ensures HasSystem(h, round) <==> exists e | e in OfRound(h, round) :: e.kind == System
  {
    if h == [] {
    } else {
      OfRoundMembers(h[1..], round);
      var t := h[1..];
      assert HasRound(h, round) <==> h[0].round == round || HasRound(t, round) by {
        if i :| 0 <= i < |t| && t[i].round == round { assert h[i + 1].round == round; }
        if i :| 0 <= i < |h| && h[i].round == round { if i > 0 { assert t[i - 1].round == round; } }
      }
      assert HasSystem(h, round) <==> (h[0].round == round && h[0].kind == System) || HasSystem(t, round) by {
        if i :| 0 <= i < |t| && t[i].round == round && t[i].kind == System { assert h[i + 1].round == round; }
        if i :| 0 <= i < |h| && h[i].round == round && h[i].kind == System {
          if i > 0 { assert t[i - 1].round == round; }
        }
      }
    }
  }

  /** Removing the entries of a round one by one, by value, leaves exactly the other rounds. */
  lemma {:induction false} RemoveRound(h: seq<Entry>, round: int)
    ensures RemoveEach(h, OfRound(h, round)) == Without(h, round)
  {
    if h == [] {
    } else if h[0].round == round {
      RemoveRound(h[1..], round);
      assert OfRound(h, round)[1..] == OfRound(h[1..], round);
    } else {
      RemoveRound(h[1..], round);
      OfRoundMembers(h[1..], round);
      RemoveEachSkips(h[0], h[1..], OfRound(h[1..], round));
      assert [h[0]] + h[1..] == h;
    }
  }

  lemma {:induction false} TotalSplit(h: seq<Entry>, round: int)
    ensures TotalLength(h) == TotalLength(OfRound(h, round)) + TotalLength(Without(h, round))
  {
    if h == [] {
    } else {
      TotalSplit(h[1..], round);
      assert [h[0]] + h[1..] == h;
      if h[0].round == round {
        assert OfRound(h, round)[1..] == OfRound(h[1..], round);
      } else {
        assert Without(h, round)[1..] == Without(h[1..], round);
      }
    }
  }

  lemma {:induction false} WithoutMembers(h: seq<Entry>, round: int)
    ensures forall e :: e in Without(h, round) <==> e in h && e.round != round
    ensures HasRound(h, round) ==> |Without(h, round)| < |h|
  {
    if h == [] {
    } else {
      WithoutMembers(h[1..], round);
      if HasRound(h, round) && h[0].round != round {
        var i :| 0 <= i < |h| && h[i].round == round;
        assert h[1..][i - 1].round == round;
      }
    }
  }

  lemma WithoutPositive(h: seq<Entry>, round: int)
    requires AllPositive(h)
    ensures AllPositive(Without(h, round))
  {
    WithoutMembers(h, round);
    var w := Without(h, round);
    forall i | 0 <= i < |w| ensures w[i].length > 0 { assert w[i] in w; }
  }

  /** Dropping one round leaves every other round as it was. */
  lemma {:induction false} OtherRounds(h: seq<Entry>, round: int, other: int)
    requires other != round
    ensures OfRound(Without(h, round), other) == OfRound(h, other)
  {
    if h == [] {
    } else {
      OtherRounds(h[1..], round, other);
      if h[0].round != round { assert Without(h, round)[1..] == Without(h[1..], round); }
    }
  }

  lemma {:induction false} RoundPositive(h: seq<Entry>, round: int)
    requires AllPositive(h) && HasRound(h, round)
    ensures TotalLength(OfRound(h, round)) > 0
  {
    OfRoundMembers(h, round);
    var es := OfRound(h, round);
    forall i | 0 <= i < |es| ensures es[i].length > 0 { assert es[i] in es; }
    PositiveTotal(es);
  }

  lemma {:induction false} PositiveTotal(es: seq<Entry>)
    requires AllPositive(es)
    ensures TotalLength(es) >= |es|
  {
    if es == [] {
    } else {
      PositiveTotal(es[1..]);
    }
  }

  // ---------- the cache ----------

  /** `drop_tokens_from_cache`: the `length` positions after the preserved prefix go, if there are that many. */
  function DropTokens(cache: seq<Position>, length: int, preserve: nat): (r: Option<seq<Position>>)
    ensures r.Some? ==> length > 0 && |r.value| == |cache| - length
  {
    var p := Min(preserve, |cache|);
    if length <= 0 || cache == [] || |cache| - p < length then None
    else Some(cache[..p] + cache[p + length..])
  }

  /** What the window works on. */
  datatype Ledger = Ledger(history: seq<Entry>, cache: seq<Position>, preserve: nat)

  predicate CanDrop(s: Ledger, round: int) {
    DropTokens(s.cache, TotalLength(OfRound(s.history, round)), s.preserve).Some?
  }

  /** `_drop_round`, for a round that can be dropped. */
  function DropRound(s: Ledger, round: int): Ledger
    requires CanDrop(s, round)
  {
    s.(history := Without(s.history, round),
       cache := DropTokens(s.cache, TotalLength(OfRound(s.history, round)), s.preserve).value)
  }

  /** The choice made by `_drop_next_round`: the first round, in ledger order, that is not a system round and can go. */
  function NextDroppable(s: Ledger, from: nat): (r: Option<int>)
    requires from <= |s.history|
    ensures r.Some? ==> HasRound(s.history, r.value) && !HasSystem(s.history, r.value) && CanDrop(s, r.value)
    ensures r.None? ==> forall i | from <= i < |s.history| ::
      HasSystem(s.history, s.history[i].round) || !CanDrop(s, s.history[i].round)
    decreases |s.history| - from
  {
    if from == |s.history| then None
    else
      var round := s.history[from].round;
      if !HasSystem(s.history, round) && CanDrop(s, round) then Some(round) else NextDroppable(s, from + 1)
  }

  /** `_enforce_text_window` once the cache has been found above the high limit. */
  function Shrink(s: Ledger, target: nat): (r: Ledger)
    ensures r.preserve == s.preserve
    decreases |s.history|
  {
    if |s.cache| <= target then s
    else
      var next := NextDroppable(s, 0);
      if next.None? then s
      else
        WithoutMembers(s.history, next.value);
        Shrink(DropRound(s, next.value), target)
  }

  function Enforce(s: Ledger, enabled: bool, high: int, low: int): Ledger {
    if !enabled || high <= 0 || |s.cache| <= high then s
    else Shrink(s, if low < 0 then 0 else low)
  }

  /** The rounds a shrinking window drops, in order. */
  ghost function Removed(s: Ledger, target: nat): (r: seq<int>)
    decreases |s.history|
  {
    if |s.cache| <= target then []
    else
      var next := NextDroppable(s, 0);
      if next.None? then []
      else
        WithoutMembers(s.history, next.value);
        [next.value] + Removed(DropRound(s, next.value), target)
  }

  // ---------- what the window guarantees ----------

  /** No round that may be dropped is left. */
  predicate Stuck(s: Ledger) {
    forall i | 0 <= i < |s.history| :: HasSystem(s.history, s.history[i].round) || !CanDrop(s, s.history[i].round)
  }

  /**
   The hysteresis: at or below the high limit nothing changes; above it the cache ends at or below
   the low limit, or no round without a system entry can be dropped any more.
   */
  lemma Hysteresis(s: Ledger, enabled: bool, high: int, low: int)
    ensures !enabled || high <= 0 || |s.cache| <= high ==> Enforce(s, enabled, high, low) == s
    ensures var r := Enforce(s, enabled, high, low);
      enabled && 0 < high < |s.cache| ==> |r.cache| <= low || (low < 0 && r.cache == []) || Stuck(r)
  {
    if enabled && 0 < high < |s.cache| { ShrinkEnds(s, if low < 0 then 0 else low); }
  }

  lemma {:induction false} ShrinkEnds(s: Ledger, target: nat)
    ensures |Shrink(s, target).cache| <= target || Stuck(Shrink(s, target))
    decreases |s.history|
  {
    if |s.cache| > target && NextDroppable(s, 0).Some? {
      var round := NextDroppable(s, 0).value;
      WithoutMembers(s.history, round);
      ShrinkEnds(DropRound(s, round), target);
    }
  }

  /** Conservation: the window removes as much from the cache as from the ledger. */
  lemma {:induction false} ShrinkConserves(s: Ledger, target: nat)
    ensures var r := Shrink(s, target);
      |r.cache| - TotalLength(r.history) == |s.cache| - TotalLength(s.history)
    decreases |s.history|
  {
    if |s.cache| > target && NextDroppable(s, 0).Some? {
      var round := NextDroppable(s, 0).value;
      WithoutMembers(s.history, round);
      TotalSplit(s.history, round);
      ShrinkConserves(DropRound(s, round), target);
    }
  }

  /** The ledger keeps its positive lengths, so the branch for empty rounds is never taken. */
  lemma {:induction false} ShrinkPositive(s: Ledger, target: nat)
    requires AllPositive(s.history)
    ensures AllPositive(Shrink(s, target).history)
    decreases |s.history|
  {
    if |s.cache| > target && NextDroppable(s, 0).Some? {
      var round := NextDroppable(s, 0).value;
      WithoutMembers(s.history, round);
      WithoutPositive(s.history, round);
      ShrinkPositive(DropRound(s, round), target);
    }
  }

  function WithoutAll(h: seq<Entry>, rounds: seq<int>): seq<Entry>
    decreases |rounds|
  {
    if rounds == [] then h else WithoutAll(Without(h, rounds[0]), rounds[1..])
  }

  /** The new ledger is the old one without the removed rounds, none of which holds a system entry. */
  lemma {:induction false} ShrinkRemoves(s: Ledger, target: nat)
    ensures Shrink(s, target).history == WithoutAll(s.history, Removed(s, target))
    ensures forall r | r in Removed(s, target) :: !HasSystem(s.history, r) && HasRound(s.history, r)
    decreases |s.history|
  {
    if |s.cache| > target && NextDroppable(s, 0).Some? {
      var round := NextDroppable(s, 0).value;
      WithoutMembers(s.history, round);
      var t := DropRound(s, round);
      ShrinkRemoves(t, target);
      forall r | r in Removed(t, target) ensures !HasSystem(s.history, r) && HasRound(s.history, r) {
        assert HasRound(t.history, r);
        assert r != round by {
          var i :| 0 <= i < |t.history| && t.history[i].round == r;
          assert t.history[i] in t.history;
        }
        OfRoundMembers(t.history, r);
        OfRoundMembers(s.history, r);
        OtherRounds(s.history, round, r);
      }
      assert Removed(s, target) == [round] + Removed(t, target);
    }
  }

  // ---------- when the window stops ----------

  /** Cache positions left once the first `i` of the rounds are gone. */
  function LeftAfter(s: Ledger, rounds: seq<int>, i: nat): int
    requires i <= |rounds|
  {
    |s.cache| - (TotalLength(s.history) - TotalLength(WithoutAll(s.history, rounds[..i])))
  }

  /** The rounds can be dropped one after the other, and before each of them the cache is longer than `target`. */
  ghost predicate Needed(s: Ledger, rounds: seq<int>, target: int) {
    && (forall i | 0 <= i < |rounds| :: LeftAfter(s, rounds, i) > target)
    && (forall r | r in rounds :: HasRound(s.history, r) && !HasSystem(s.history, r))
    && forall i, j | 0 <= i < j < |rounds| :: rounds[i] != rounds[j]
  }

  lemma {:induction false} ShrinkNeeds(s: Ledger, target: nat)
    ensures var r, rounds := Shrink(s, target), Removed(s, target);
      Needed(s, rounds, target) && |r.cache| == LeftAfter(s, rounds, |rounds|)
    decreases |s.history|
  {
    ShrinkRemoves(s, target);
    if |s.cache| > target && NextDroppable(s, 0).Some? {
      var round := NextDroppable(s, 0).value;
      WithoutMembers(s.history, round);
      ShrinkNeeds(DropRound(s, round), target);
      NeededMore(s, round, Removed(DropRound(s, round), target), target);
    } else {
      assert WithoutAll(s.history, [][..0]) == s.history;
    }
  }

  lemma NeededMore(s: Ledger, round: int, rest: seq<int>, target: int)
    requires HasRound(s.history, round) && !HasSystem(s.history, round) && CanDrop(s, round) && |s.cache| > target
    requires Needed(DropRound(s, round), rest, target)
    ensures Needed(s, [round] + rest, target)
    ensures LeftAfter(s, [round] + rest, |[round] + rest|) == LeftAfter(DropRound(s, round), rest, |rest|)
  {
    hide LeftAfter, CanDrop, HasRound, HasSystem;
    var rounds, t := [round] + rest, DropRound(s, round);
    LeftStep(s, round, rest, |rounds|);
    forall i | 0 <= i < |rounds| ensures LeftAfter(s, rounds, i) > target { LeftStep(s, round, rest, i); }
    forall r | r in rest ensures r != round && HasRound(s.history, r) && !HasSystem(s.history, r) {
      assert HasRound(t.history, r);
      GoneRound(s.history, round);
      OtherRounds(s.history, round, r);
      OfRoundMembers(t.history, r);
      OfRoundMembers(s.history, r);
    }
  }

  lemma GoneRound(h: seq<Entry>, round: int)
    ensures !HasRound(Without(h, round), round)
  {
    WithoutMembers(h, round);
    var w := Without(h, round);
    forall i | 0 <= i < |w| ensures w[i].round != round { assert w[i] in w; }
  }

  lemma LeftStep(s: Ledger, round: int, rest: seq<int>, i: nat)
    requires CanDrop(s, round) && i <= |rest| + 1
    ensures LeftAfter(s, [round] + rest, i)
         == if i == 0 then |s.cache| else LeftAfter(DropRound(s, round), rest, i - 1)
  {
    var rounds := [round] + rest;
    if i == 0 {
      assert rounds[..0] == [];
    } else {
      assert rounds[..i] == [round] + rest[..i - 1] && rounds[..i][1..] == rest[..i - 1];
      TotalSplit(s.history, round);
    }
  }

  /**
   The window drops no round too many: below the high limit none, and above it each round only while the
   cache is still longer than the low limit (than nothing, if that is negative). The history left is the
   old one without those rounds, and the cache is shorter by their lengths.
   */
  lemma EnforceMinimal(s: Ledger, enabled: bool, high: int, low: int) returns (rounds: seq<int>)
    ensures var r := Enforce(s, enabled, high, low);
      && r.history == WithoutAll(s.history, rounds) && |r.cache| == LeftAfter(s, rounds, |rounds|)
      && Needed(s, rounds, low) && Needed(s, rounds, 0)
      && (rounds != [] ==> enabled && 0 < high < |s.cache|)
  {
    if enabled && 0 < high < |s.cache| {
      var target := if low < 0 then 0 else low;
      rounds := Removed(s, target);
      ShrinkNeeds(s, target);
      ShrinkRemoves(s, target);
    } else {
      rounds := [];
    }
  }

  /** Rounds with a system entry are never touched. */
  lemma {:induction false} SystemRoundsKept(s: Ledger, target: nat, round: int)
    requires HasSystem(s.history, round)
    ensures OfRound(Shrink(s, target).history, round) == OfRound(s.history, round)
    decreases |s.history|
  {
    if |s.cache| > target && NextDroppable(s, 0).Some? {
      var gone := NextDroppable(s, 0).value;
      WithoutMembers(s.history, gone);
      OtherRounds(s.history, gone, round);
      OfRoundMembers(s.history, round);
      OfRoundMembers(Without(s.history, gone), round);
      SystemRoundsKept(DropRound(s, gone), target, round);
    }
  }

  /**
   Which positions are lost: whatever the rounds, one contiguous block right after the preserved
   prefix, of the size by which the cache shrank.
   */
  lemma {:induction false} ShrinkCutsAfterPrefix(s: Ledger, target: nat)
    ensures var r := Shrink(s, target);
      var p := Min(s.preserve, |s.cache|);
      |r.cache| <= |s.cache| && p + (|s.cache| - |r.cache|) <= |s.cache|
      && r.cache == s.cache[..p] + s.cache[p + (|s.cache| - |r.cache|)..]
    decreases |s.history|
  {
    var p := Min(s.preserve, |s.cache|);
    if |s.cache| > target && NextDroppable(s, 0).Some? {
      var round := NextDroppable(s, 0).value;
      WithoutMembers(s.history, round);
      var t := DropRound(s, round);
      ShrinkCutsAfterPrefix(t, target);
      assert t.cache[..p] == s.cache[..p];
    } else {
      assert s.cache == s.cache[..p] + s.cache[p..];
    }
  }

  // ---------- which rounds go ----------

  /** The first round in ledger order without a system entry. */
  function FirstFree(h: seq<Entry>, from: nat): (r: Option<int>)
    requires from <= |h|
    ensures r.Some? ==> HasRound(h, r.value) && !HasSystem(h, r.value)
    decreases |h| - from
  {
    if from == |h| then None
    else if !HasSystem(h, h[from].round) then Some(h[from].round)
    else FirstFree(h, from + 1)
  }

  /** The rounds without a system entry, oldest first. */
  ghost function FreeRounds(h: seq<Entry>): seq<int>
    decreases |h|
  {
    var first := FirstFree(h, 0);
    if first.None? then []
    else
      WithoutMembers(h, first.value);
      [first.value] + FreeRounds(Without(h, first.value))
  }

  /** Every time the window looks for a round to drop, the oldest free one can go. */
  ghost predicate EveryDropSucceeds(s: Ledger, target: nat)
    decreases |s.history|
  {
    |s.cache| <= target ||
    (var first := FirstFree(s.history, 0);
     first.None? ||
     (CanDrop(s, first.value) &&
      (WithoutMembers(s.history, first.value); EveryDropSucceeds(DropRound(s, first.value), target))))
  }

  lemma {:induction false} NextIsFirst(s: Ledger, from: nat)
    requires from <= |s.history|
    requires var first := FirstFree(s.history, from); first.Some? ==> CanDrop(s, first.value)
    ensures NextDroppable(s, from) == FirstFree(s.history, from)
    decreases |s.history| - from
  {
    if from < |s.history| && HasSystem(s.history, s.history[from].round) { NextIsFirst(s, from + 1); }
  }

  /** When every drop succeeds, the removed rounds are the oldest free ones, in order. */
  lemma {:induction false} RemovedAreOldest(s: Ledger, target: nat)
    requires EveryDropSucceeds(s, target)
    ensures Removed(s, target) <= FreeRounds(s.history)
    decreases |s.history|
  {
    if |s.cache| > target {
      NextIsFirst(s, 0);
      var first := FirstFree(s.history, 0);
      if first.Some? {
        WithoutMembers(s.history, first.value);
        RemovedAreOldest(DropRound(s, first.value), target);
      }
    }
  }

  /** It does succeed as long as the free rounds are no longer than what follows the preserved prefix. */
  lemma {:induction false} FittingRoundsDrop(s: Ledger, target: nat)
    requires AllPositive(s.history) && s.preserve <= |s.cache|
    requires TotalLength(s.history) - SystemLength(s.history, s.history) <= |s.cache| - s.preserve
    ensures EveryDropSucceeds(s, target)
    decreases |s.history|
  {
    var first := FirstFree(s.history, 0);
    if |s.cache| > target && first.Some? {
      var round := first.value;
      WithoutMembers(s.history, round);
      RoundPositive(s.history, round);
      TotalSplit(s.history, round);
      FreeLength(s.history, s.history, round);
      WithoutPositive(s.history, round);
      SystemLengthBound(Without(s.history, round), s.history);
      SystemRoundsWithout(s.history, round);
      SystemLengthSame(Without(s.history, round), s.history, round);
      FittingRoundsDrop(DropRound(s, round), target);
    }
  }

  /** Length of the entries of `h` whose round has a system entry in `all`. */
  function SystemLength(h: seq<Entry>, all: seq<Entry>): int {
    if h == [] then 0
    else (if HasSystem(all, h[0].round) then h[0].length else 0) + SystemLength(h[1..], all)
  }

  lemma {:induction false} FreeLength(h: seq<Entry>, all: seq<Entry>, round: int)
    requires !HasSystem(all, round)
    ensures SystemLength(h, all) == SystemLength(Without(h, round), all)
  {
    if h == [] {
    } else {
      FreeLength(h[1..], all, round);
      if h[0].round != round { assert Without(h, round)[1..] == Without(h[1..], round); }
    }
  }

  lemma {:induction false} SystemLengthBound(h: seq<Entry>, all: seq<Entry>)
    requires AllPositive(h)
    ensures 0 <= SystemLength(h, all) <= TotalLength(h)
  {
    if h == [] {
    } else {
      SystemLengthBound(h[1..], all);
    }
  }

  lemma SystemRoundsWithout(all: seq<Entry>, round: int)
    requires !HasSystem(all, round)
    ensures forall e | e in Without(all, round) :: HasSystem(Without(all, round), e.round) <==> HasSystem(all, e.round)
  {
    WithoutMembers(all, round);
    forall e | e in Without(all, round)
      ensures HasSystem(Without(all, round), e.round) <==> HasSystem(all, e.round)
    {
      OtherRounds(all, round, e.round);
      OfRoundMembers(all, e.round);
      OfRoundMembers(Without(all, round), e.round);
    }
  }

  lemma {:induction false} SystemLengthSame(h: seq<Entry>, all: seq<Entry>, round: int)
    requires forall e | e in h :: HasSystem(Without(all, round), e.round) <==> HasSystem(all, e.round)
    ensures SystemLength(h, Without(all, round)) == SystemLength(h, all)
  {
    if h == [] {
    } else {
      SystemLengthSame(h[1..], all, round);
    }
  }

  // ---------- histories put together ----------

  lemma {:induction false} TotalConcat(a: seq<Entry>, b: seq<Entry>)
    ensures TotalLength(a + b) == TotalLength(a) + TotalLength(b)
  {
    if a == [] {
      assert a + b == b;
    } else {
      assert (a + b)[1..] == a[1..] + b;
      TotalConcat(a[1..], b);
    }
  }

  lemma {:induction false} OfRoundConcat(a: seq<Entry>, b: seq<Entry>, round: int)
    ensures OfRound(a + b, round) == OfRound(a, round) + OfRound(b, round)
  {
    if a == [] {
      assert a + b == b;
    } else {
      assert (a + b)[1..] == a[1..] + b;
      OfRoundConcat(a[1..], b, round);
    }
  }

  lemma {:induction false} OfRoundAll(h: seq<Entry>, round: int)
    ensures (forall e | e in h :: e.round == round) ==> OfRound(h, round) == h
    ensures (forall e | e in h :: e.round != round) ==> OfRound(h, round) == []
  {
    if h == [] {
    } else {
      OfRoundAll(h[1..], round);
    }
  }

  lemma MiddleRound(before: seq<Entry>, mid: seq<Entry>, after: seq<Entry>, round: int)
    requires forall e | e in mid :: e.round == round
    requires (forall e | e in before :: e.round != round) && (forall e | e in after :: e.round != round)
    ensures OfRound(before + mid + after, round) == mid
  {
    OfRoundConcat(before + mid, after, round);
    OfRoundConcat(before, mid, round);
    OfRoundAll(before, round);
    OfRoundAll(mid, round);
    OfRoundAll(after, round);
  }
}
