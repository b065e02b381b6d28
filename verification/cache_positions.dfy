/**
 Which cached positions a dropped round takes with it. The window drops a round's registered length
 right after the preserved prefix, and never looks at where the round's positions are.
 */
module CachePositions {
  import opened Arithmetic
  import opened Wrappers
  import opened ChunkLedger

  // ---------- the positions of a round ----------

  /** How many cached positions were fed for the round. */
  function Fed(c: seq<Position>, round: int): (n: nat)
    ensures n <= |c|
  {
    if c == [] then 0
    else Fed(c[..|c| - 1], round) + if c[|c| - 1].round == Some(round) then 1 else 0
  }

  /** The cache without the round's positions. */
  function Others(c: seq<Position>, round: int): (r: seq<Position>)
    ensures |r| == |c| - Fed(c, round)
  {
    if c == [] then []
    else
      var rest := Others(c[..|c| - 1], round);
      if c[|c| - 1].round == Some(round) then rest else rest + [c[|c| - 1]]
  }

  /** The round's positions are neighbours. */
  predicate Together(c: seq<Position>, round: int) {
    forall i, j, k | 0 <= i <= j <= k < |c| ::
      c[i].round == Some(round) && c[k].round == Some(round) ==> c[j].round == Some(round)
  }

  /** The round's first position is `n`. */
  predicate FirstAt(c: seq<Position>, round: int, n: nat) {
    n < |c| && c[n].round == Some(round) && forall i | 0 <= i < n :: c[i].round != Some(round)
  }

  /** The round's positions are the `len` ones from `n` on, and no others. */
  predicate Occupies(c: seq<Position>, round: int, n: nat, len: nat) {
    n + len <= |c| && forall i | 0 <= i < |c| :: c[i].round == Some(round) <==> n <= i < n + len
  }

  lemma OccupiedFed(c: seq<Position>, round: int, n: nat, len: nat)
    requires Occupies(c, round, n, len)
    ensures Fed(c, round) == len && Others(c, round) == c[..n] + c[n + len..]
  {
    hide Fed, Others;
    var a, x, b := c[..n], c[n..n + len], c[n + len..];
    assert c == a + x + b;
    OthersParts(a, x, b, round);
    assert |Others(c, round)| == |c| - len;
  }

  lemma OthersParts(a: seq<Position>, x: seq<Position>, b: seq<Position>, round: int)
    requires forall i | 0 <= i < |a| :: a[i].round != Some(round)
    requires forall i | 0 <= i < |b| :: b[i].round != Some(round)
    requires forall i | 0 <= i < |x| :: x[i].round == Some(round)
    ensures Others(a + x + b, round) == a + b
  {
    hide Others;
    OthersWhole(a, round);
    OthersNone(x, round);
    OthersWhole(b, round);
    OthersConcat(a, x, round);
    OthersConcat(a + x, b, round);
    assert a + [] == a;
  }

  lemma {:induction false} OthersConcat(a: seq<Position>, b: seq<Position>, round: int)
    ensures Others(a + b, round) == Others(a, round) + Others(b, round)
  {
    if b == [] {
      assert a + b == a;
    } else {
      assert (a + b)[..|a + b| - 1] == a + b[..|b| - 1];
      OthersConcat(a, b[..|b| - 1], round);
    }
  }

  lemma {:induction false} OthersWhole(c: seq<Position>, round: int)
    requires forall i | 0 <= i < |c| :: c[i].round != Some(round)
    ensures Others(c, round) == c
  {
    if c != [] {
      OthersWhole(c[..|c| - 1], round);
    }
  }

  lemma {:induction false} OthersNone(c: seq<Position>, round: int)
    requires forall i | 0 <= i < |c| :: c[i].round == Some(round)
    ensures Others(c, round) == []
  {
    if c != [] {
      OthersNone(c[..|c| - 1], round);
    }
  }

  /** Neighbours that start at `n` are the next ones from there, as many as were fed. */
  lemma {:induction false} TogetherOccupies(c: seq<Position>, round: int, n: nat)
    requires Together(c, round) && FirstAt(c, round, n)
    ensures Occupies(c, round, n, Fed(c, round))
  {
    var m := |c| - 1;
    if n == m {
      assert Occupies(c, round, m, 1);
      OccupiedFed(c, round, m, 1);
    } else {
      TogetherOccupies(c[..m], round, n);
      var len := Fed(c[..m], round);
      assert Occupies(c[..m], round, n, len);
      assert n + len < m ==> c[..m][n + len].round != Some(round);
    }
  }

  // ---------- what a drop takes ----------

  /** The positions dropped are exactly the round's. */
  predicate DropsOwn(s: Ledger, round: int)
    requires CanDrop(s, round)
  {
    Occupies(s.cache, round, Min(s.preserve, |s.cache|), TotalLength(OfRound(s.history, round)))
  }

  /**
   A dropped round takes exactly its own positions with it if and only if they are neighbours, the
   preserved prefix ends where they start, and its registered length is the number of positions fed for it.
   */
  lemma DropHitsRound(s: Ledger, round: int)
    requires CanDrop(s, round)
    ensures DropsOwn(s, round) <==>
      && Together(s.cache, round) && FirstAt(s.cache, round, s.preserve)
      && TotalLength(OfRound(s.history, round)) == Fed(s.cache, round)
  {
    var p, len := Min(s.preserve, |s.cache|), TotalLength(OfRound(s.history, round));
    if DropsOwn(s, round) {
      OccupiedFed(s.cache, round, p, len);
    }
    if Together(s.cache, round) && FirstAt(s.cache, round, s.preserve) {
      TogetherOccupies(s.cache, round, s.preserve);
    }
  }

  predicate Distinct(c: seq<Position>) {
    forall i, j | 0 <= i < j < |c| :: c[i] != c[j]
  }

  /** Said of the cache that is left: it is the old one without the round under the same condition. */
  lemma DropLeavesOthers(s: Ledger, round: int)
    requires CanDrop(s, round) && Together(s.cache, round) && Distinct(s.cache)
    ensures DropRound(s, round).cache == Others(s.cache, round) <==> DropsOwn(s, round)
  {
    var c, p, len := s.cache, Min(s.preserve, |s.cache|), TotalLength(OfRound(s.history, round));
    if DropsOwn(s, round) {
      OccupiedFed(c, round, p, len);
    } else if Fed(c, round) == len {
      var n := First(c, round);
      TogetherOccupies(c, round, n);
      OccupiedFed(c, round, n, len);
      CutsDiffer(c, p, n, len);
    }
  }

  lemma {:induction false} First(c: seq<Position>, round: int) returns (n: nat)
    requires Fed(c, round) > 0
    ensures FirstAt(c, round, n)
  {
    var m := |c| - 1;
    if Fed(c[..m], round) > 0 {
      n := First(c[..m], round);
    } else {
      n := m;
      NoneFed(c[..m], round);
    }
  }

  lemma {:induction false} NoneFed(c: seq<Position>, round: int)
    requires Fed(c, round) == 0
    ensures forall i | 0 <= i < |c| :: c[i].round != Some(round)
  {
    if c != [] {
      NoneFed(c[..|c| - 1], round);
    }
  }

  /** Cutting blocks of one size out of a duplicate-free sequence: equal results come from equal places. */
  lemma CutsDiffer(c: seq<Position>, p: nat, q: nat, len: nat)
    requires Distinct(c) && len > 0 && p + len <= |c| && q + len <= |c|
    ensures c[..p] + c[p + len..] == c[..q] + c[q + len..] <==> p == q
  {
    var x, y := c[..p] + c[p + len..], c[..q] + c[q + len..];
    if p < q { assert x[p] == c[p + len] && y[p] == c[p]; }
    if q < p { assert x[q] == c[q] && y[q] == c[q + len]; }
  }

  // ---------- caches in order ----------

  predicate AllTogether(c: seq<Position>) {
    forall i, j, k | 0 <= i <= j <= k < |c| :: c[i].round.Some? && c[k].round == c[i].round ==> c[j].round == c[i].round
  }

  lemma AnyTogether(c: seq<Position>, round: int)
    requires AllTogether(c)
    ensures Together(c, round)
  {
  }

  /** Nothing else has been cached since the round's first position. */
  predicate Trails(c: seq<Position>, round: int) {
    forall i, j | 0 <= i <= j < |c| :: c[i].round == Some(round) ==> c[j].round == Some(round)
  }

  /** No round beyond `round` has been fed. */
  predicate NotBeyond(c: seq<Position>, round: int) {
    forall i | 0 <= i < |c| :: c[i].round.Some? ==> c[i].round.value <= round
  }

  predicate Absent(c: seq<Position>, round: int) {
    forall i | 0 <= i < |c| :: c[i].round != Some(round)
  }

  predicate AllOf(c: seq<Position>, round: Option<int>) {
    forall i | 0 <= i < |c| :: c[i].round == round
  }

  lemma AppendRound(c: seq<Position>, more: seq<Position>, round: int)
    requires AllTogether(c) && Trails(c, round) && AllOf(more, Some(round))
    ensures AllTogether(c + more) && Trails(c + more, round)
  {
  }

  lemma AppendNone(c: seq<Position>, more: seq<Position>)
    requires AllTogether(c) && AllOf(more, None)
    ensures AllTogether(c + more)
  {
  }

  /** Cutting a block out keeps the order of what is left. */
  lemma CutKeeps(c: seq<Position>, p: nat, len: nat, round: int)
    requires p + len <= |c| && AllTogether(c)
    ensures var r := c[..p] + c[p + len..];
      && AllTogether(r) && (NotBeyond(c, round) ==> NotBeyond(r, round)) && (Trails(c, round) ==> Trails(r, round))
      && (Absent(c, round) ==> Absent(r, round))
  {
    var r := c[..p] + c[p + len..];
    assert forall i | 0 <= i < |r| :: r[i] == c[if i < p then i else i + len];
  }

  // ---------- system positions ----------

  /** Where the last position fed as a system message ends. */
  function SystemEnd(c: seq<Position>): (n: nat)
    ensures n <= |c| && (forall i | n <= i < |c| :: c[i].kind != System) && (n > 0 ==> c[n - 1].kind == System)
  {
    if c == [] then 0
    else if c[|c| - 1].kind == System then |c|
    else SystemEnd(c[..|c| - 1])
  }

  lemma {:induction false} SystemEndUnique(c: seq<Position>, n: nat)
    requires n <= |c| && (forall i | n <= i < |c| :: c[i].kind != System) && (n > 0 ==> c[n - 1].kind == System)
    ensures SystemEnd(c) == n
  {
    if c != [] && c[|c| - 1].kind != System {
      SystemEndUnique(c[..|c| - 1], n);
    }
  }

  /** No system position is among the `len` ones from `p` on. */
  predicate SparesSystem(c: seq<Position>, p: nat, len: int) {
    forall i | 0 <= i < |c| && c[i].kind == System :: i < p || i >= p + len
  }

  /** Every drop the cache allows spares every system position exactly when they all end within the preserved prefix. */
  lemma SystemProtected(c: seq<Position>, preserve: nat)
    ensures (forall len: int | DropTokens(c, len, preserve).Some? :: SparesSystem(c, Min(preserve, |c|), len))
      <==> SystemEnd(c) <= preserve
  {
    var n := SystemEnd(c);
    if n > preserve {
      var len := |c| - preserve;
      assert DropTokens(c, len, preserve).Some?;
      assert c[n - 1].kind == System && !SparesSystem(c, preserve, len);
    }
  }

  /** System positions before a cut stay where they are, and none comes after them. */
  lemma CutSystem(c: seq<Position>, p: nat, len: nat)
    requires p + len <= |c| && SystemEnd(c) <= p
    ensures var r := c[..p] + c[p + len..];
      SystemEnd(r) == SystemEnd(c) && r[..SystemEnd(c)] == c[..SystemEnd(c)] && SparesSystem(c, p, len)
  {
    hide SystemEnd;
    var r, n := c[..p] + c[p + len..], SystemEnd(c);
    forall i | n <= i < |r| ensures r[i].kind != System { assert r[i] == c[if i < p then i else i + len]; }
    SystemEndUnique(r, n);
  }

  /** What ends within the preserved prefix outlives every window step. */
  lemma ShrinkSystem(s: Ledger, target: nat)
    requires SystemEnd(s.cache) <= s.preserve
    ensures var r, n := Shrink(s, target), SystemEnd(s.cache);
      SystemEnd(r.cache) == n <= |r.cache| && r.cache[..n] == s.cache[..n]
  {
    hide Shrink;
    ShrinkCutsAfterPrefix(s, target);
    CutSystem(s.cache, Min(s.preserve, |s.cache|), |s.cache| - |Shrink(s, target).cache|);
  }
}
