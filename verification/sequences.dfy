/** Sequences as several parts of the model use them: products, samples, flattening, slice bounds. */
module Sequences {

  /** Number of elements of a shape. */
  function Prod(s: seq<nat>): nat {
    if s == [] then 1 else s[0] * Prod(s[1..])
  }

  lemma {:induction false} ProdConcat(a: seq<nat>, b: seq<nat>)
    ensures Prod(a + b) == Prod(a) * Prod(b)
  {
    if a == [] {
      assert a + b == b;
    } else {
      assert (a + b)[1..] == a[1..] + b;
      ProdConcat(a[1..], b);
    }
  }

  lemma ProdPair(a: nat, b: nat)
    ensures Prod([a, b]) == a * b
  {
    assert [a, b][1..] == [b] && [b][1..] == [];
    assert Prod([]) == 1 && Prod([b]) == b;
  }

  function Flatten<T>(ss: seq<seq<T>>): seq<T> {
    if ss == [] then [] else Flatten(ss[..|ss| - 1]) + ss[|ss| - 1]
  }

  lemma FlattenAppend<T>(ss: seq<seq<T>>, s: seq<T>)
    ensures Flatten(ss + [s]) == Flatten(ss) + s
  {
    assert (ss + [s])[..|ss|] == ss;
  }

  /** The first `n` values drawn. */
  function Drawn<T>(draw: nat -> T, n: nat): (r: seq<T>)
    ensures |r| == n
  {
    seq(n, i requires 0 <= i < n => draw(i))
  }

  /** A slice bound: negative ones count from the end, and all are cut to the length. */
  function Bound(i: int, n: nat): (r: nat)
    ensures r <= n
  {
    if i < 0 then (if i + n < 0 then 0 else i + n) else if i > n then n else i
  }

  // ---------- counting ----------

  /** The numbers below `k`. */
  function Below(k: nat): set<nat> {
    if k == 0 then {} else Below(k - 1) + {k - 1}
  }

  lemma {:induction false} BelowSize(k: nat)
    ensures |Below(k)| == k && forall r: nat :: r in Below(k) <==> r < k
  {
    if k > 0 {
      BelowSize(k - 1);
    }
  }

  /** Distinct elements of a set are no more than it has. */
  lemma {:induction false} DistinctFit(xs: seq<nat>, all: set<nat>)
    requires forall i, j | 0 <= i < j < |xs| :: xs[i] != xs[j]
    requires forall i | 0 <= i < |xs| :: xs[i] in all
    ensures |xs| <= |all|
  {
    if xs != [] {
      DistinctFit(xs[1..], all - {xs[0]});
    }
  }

  /** Among more numbers below `k` than `k`, one comes back. */
  lemma Pigeonhole(xs: seq<nat>, k: nat) returns (i: nat, j: nat)
    requires |xs| > k && forall i | 0 <= i < |xs| :: xs[i] < k
    ensures i < j < |xs| && xs[i] == xs[j]
  {
    BelowSize(k);
    if forall i, j | 0 <= i < j < |xs| :: xs[i] != xs[j] {
      DistinctFit(xs, Below(k));
      assert false;
    }
    i, j :| 0 <= i < j < |xs| && xs[i] == xs[j];
  }
}
