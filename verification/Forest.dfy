/** Disjoint-set forests with union by rank and path halving, as pure facts about the parent and rank vectors. */
module Forest {

  /** Parents stay in range and ranks strictly increase along parent links. */
  ghost predicate WellRanked(parent: seq<nat>, rank: seq<nat>) {
    && |parent| == |rank|
    && forall i {:trigger parent[i]} | 0 <= i < |parent| :: parent[i] < |parent| && (parent[i] != i ==> rank[i] < rank[parent[i]])
  }

  ghost function MaxRank(rank: seq<nat>): (m: nat)
    ensures forall i | 0 <= i < |rank| :: rank[i] <= m
  {
    if rank == [] then 0
    else
      var rest := MaxRank(rank[..|rank| - 1]);
      if rank[|rank| - 1] > rest then rank[|rank| - 1] else rest
  }

  ghost function Root(parent: seq<nat>, rank: seq<nat>, i: nat): (r: nat)
    requires WellRanked(parent, rank) && i < |parent|
    ensures r < |parent| && parent[r] == r
    ensures r == i || rank[i] < rank[r]
    decreases MaxRank(rank) - rank[i]
  {
    if parent[i] == i then i else Root(parent, rank, parent[i])
  }

  /** Two forests that send every index to the same root. */
  ghost predicate SameRoots(p: seq<nat>, q: seq<nat>, rank: seq<nat>) {
    && WellRanked(p, rank) && WellRanked(q, rank) && |p| == |q|
    && forall j | 0 <= j < |p| :: Root(p, rank, j) == Root(q, rank, j)
  }

  function Halved(parent: seq<nat>, i: nat): seq<nat>
    requires i < |parent| && parent[i] < |parent|
  {
    parent[i := parent[parent[i]]]
  }

  lemma {:induction false} HalvingKeepsRoot(parent: seq<nat>, rank: seq<nat>, i: nat, j: nat)
    requires WellRanked(parent, rank) && i < |parent| && j < |parent|
    requires WellRanked(Halved(parent, i), rank)
    ensures Root(Halved(parent, i), rank, j) == Root(parent, rank, j)
    decreases MaxRank(rank) - rank[j]
  {
    var q := Halved(parent, i);
    if q[j] != j {
      HalvingKeepsRoot(parent, rank, i, q[j]);
    }
  }

  lemma HalvingSameRoots(parent: seq<nat>, rank: seq<nat>, i: nat)
    requires WellRanked(parent, rank) && i < |parent|
    ensures SameRoots(parent, Halved(parent, i), rank)
  {
    assert WellRanked(Halved(parent, i), rank);
    forall j | 0 <= j < |parent| ensures Root(Halved(parent, i), rank, j) == Root(parent, rank, j) {
      HalvingKeepsRoot(parent, rank, i, j);
    }
  }

  // ── Linking one root under another ──

  function LinkedParent(parent: seq<nat>, lo: nat, hi: nat): seq<nat>
    requires lo < |parent|
  {
    parent[lo := hi]
  }

  function LinkedRank(rank: seq<nat>, lo: nat, hi: nat): (r: seq<nat>)
    requires lo < |rank| && hi < |rank|
  {
    if rank[lo] == rank[hi] then rank[hi := rank[hi] + 1] else rank
  }

  ghost predicate Linkable(parent: seq<nat>, rank: seq<nat>, lo: nat, hi: nat) {
    && WellRanked(parent, rank) && lo < |parent| && hi < |parent| && lo != hi
    && parent[lo] == lo && parent[hi] == hi && rank[lo] <= rank[hi]
  }

  lemma LinkRanked(parent: seq<nat>, rank: seq<nat>, lo: nat, hi: nat)
    requires Linkable(parent, rank, lo, hi)
    ensures WellRanked(LinkedParent(parent, lo, hi), LinkedRank(rank, lo, hi))
  {
  }

  lemma {:induction false} LinkRoot(parent: seq<nat>, rank: seq<nat>, lo: nat, hi: nat, j: nat)
    requires Linkable(parent, rank, lo, hi) && j < |parent|
    requires WellRanked(LinkedParent(parent, lo, hi), LinkedRank(rank, lo, hi))
    ensures Root(LinkedParent(parent, lo, hi), LinkedRank(rank, lo, hi), j)
         == if Root(parent, rank, j) == lo then hi else Root(parent, rank, j)
    decreases MaxRank(rank) - rank[j]
  {
    if parent[j] != j {
      LinkRoot(parent, rank, lo, hi, parent[j]);
    }
  }

  // ── Size at least 2^rank ──

  function Pow2(k: nat): (p: nat)
    ensures p >= 1
  {
    if k == 0 then 1 else Pow2(k - 1) + Pow2(k - 1)
  }

  lemma {:induction false} Pow2Monotone(j: nat, k: nat)
    requires j <= k
    ensures Pow2(j) <= Pow2(k)
  {
    if j < k {
      Pow2Monotone(j, k - 1);
    }
  }

  /** How many of the first `n` indices have root `r`. */
  ghost function Size(parent: seq<nat>, rank: seq<nat>, r: nat, n: nat): (size: nat)
    requires WellRanked(parent, rank) && n <= |parent|
    ensures size <= n
  {
    if n == 0 then 0 else Size(parent, rank, r, n - 1) + if Root(parent, rank, n - 1) == r then 1 else 0
  }

  /** Every root among the first `n` indices has a tree of at least 2^rank members. */
  ghost predicate BigEnough(parent: seq<nat>, rank: seq<nat>, n: nat)
    requires WellRanked(parent, rank) && n <= |parent|
  {
    n == 0 || (BigEnough(parent, rank, n - 1)
               && (parent[n - 1] == n - 1 ==> Pow2(rank[n - 1]) <= Size(parent, rank, n - 1, |parent|)))
  }

  ghost predicate Balanced(parent: seq<nat>, rank: seq<nat>) {
    WellRanked(parent, rank) && BigEnough(parent, rank, |parent|)
  }

  lemma {:induction false} BigEnoughAt(parent: seq<nat>, rank: seq<nat>, n: nat, r: nat)
    requires WellRanked(parent, rank) && r < n <= |parent| && BigEnough(parent, rank, n) && parent[r] == r
    ensures Pow2(rank[r]) <= Size(parent, rank, r, |parent|)
  {
    if r < n - 1 {
      BigEnoughAt(parent, rank, n - 1, r);
    }
  }

  lemma {:induction false} BigEnoughAll(parent: seq<nat>, rank: seq<nat>, n: nat)
    requires WellRanked(parent, rank) && n <= |parent|
    requires forall r | 0 <= r < |parent| && parent[r] == r :: Pow2(rank[r]) <= Size(parent, rank, r, |parent|)
    ensures BigEnough(parent, rank, n)
  {
    if n > 0 {
      BigEnoughAll(parent, rank, n - 1);
    }
  }

  lemma {:induction false} SameRootsSize(p: seq<nat>, q: seq<nat>, rank: seq<nat>, r: nat, n: nat)
    requires SameRoots(p, q, rank) && n <= |p|
    ensures Size(p, rank, r, n) == Size(q, rank, r, n)
  {
    if n > 0 {
      SameRootsSize(p, q, rank, r, n - 1);
    }
  }

  lemma SameRootsBalanced(p: seq<nat>, q: seq<nat>, rank: seq<nat>)
    requires Balanced(p, rank) && SameRoots(p, q, rank)
    ensures Balanced(q, rank)
  {
    forall r | 0 <= r < |q| && q[r] == r ensures Pow2(rank[r]) <= Size(q, rank, r, |q|) {
      assert Root(p, rank, r) == Root(q, rank, r) == r;
      BigEnoughAt(p, rank, |p|, r);
      SameRootsSize(p, q, rank, r, |q|);
    }
    BigEnoughAll(q, rank, |q|);
  }

  lemma {:induction false} LinkSize(parent: seq<nat>, rank: seq<nat>, lo: nat, hi: nat, r: nat, n: nat)
    requires Linkable(parent, rank, lo, hi) && r != lo && n <= |parent|
    requires WellRanked(LinkedParent(parent, lo, hi), LinkedRank(rank, lo, hi))
    ensures Size(LinkedParent(parent, lo, hi), LinkedRank(rank, lo, hi), r, n)
         == Size(parent, rank, r, n) + if r == hi then Size(parent, rank, lo, n) else 0
  {
    if n > 0 {
      LinkSize(parent, rank, lo, hi, r, n - 1);
      LinkRoot(parent, rank, lo, hi, n - 1);
    }
  }

  lemma Pow2Double(k: nat)
    ensures Pow2(k + 1) == Pow2(k) + Pow2(k)
  {
  }

  lemma {:induction false} LinkBalancedAt(parent: seq<nat>, rank: seq<nat>, lo: nat, hi: nat, r: nat)
    requires Linkable(parent, rank, lo, hi) && Balanced(parent, rank)
    requires WellRanked(LinkedParent(parent, lo, hi), LinkedRank(rank, lo, hi))
    requires r < |parent| && r != lo && parent[r] == r
    ensures Pow2(LinkedRank(rank, lo, hi)[r]) <= Size(LinkedParent(parent, lo, hi), LinkedRank(rank, lo, hi), r, |parent|)
  {
    LinkSize(parent, rank, lo, hi, r, |parent|);
    Pow2Double(rank[r]);
    BigEnoughAt(parent, rank, |parent|, r);
    BigEnoughAt(parent, rank, |parent|, lo);
  }

  lemma LinkBalanced(parent: seq<nat>, rank: seq<nat>, lo: nat, hi: nat)
    requires Linkable(parent, rank, lo, hi) && Balanced(parent, rank)
    ensures Balanced(LinkedParent(parent, lo, hi), LinkedRank(rank, lo, hi))
  {
    LinkRanked(parent, rank, lo, hi);
    var p := LinkedParent(parent, lo, hi);
    forall r | 0 <= r < |p| && p[r] == r
      ensures Pow2(LinkedRank(rank, lo, hi)[r]) <= Size(p, LinkedRank(rank, lo, hi), r, |p|)
    {
      LinkBalancedAt(parent, rank, lo, hi, r);
    }
    BigEnoughAll(p, LinkedRank(rank, lo, hi), |p|);
  }

  lemma {:induction false} RootCounted(parent: seq<nat>, rank: seq<nat>, r: nat, n: nat)
    requires WellRanked(parent, rank) && r < n <= |parent| && parent[r] == r
    ensures Size(parent, rank, r, n) >= 1
  {
    if n - 1 > r {
      RootCounted(parent, rank, r, n - 1);
    }
  }

  lemma SingletonsBalanced(n: nat)
    ensures Balanced(seq(n, i => i), seq(n, _ => 0))
  {
    var parent, rank := seq(n, i => i), seq(n, _ => 0);
    forall r | 0 <= r < n ensures Pow2(rank[r]) <= Size(parent, rank, r, n) {
      RootCounted(parent, rank, r, n);
    }
    BigEnoughAll(parent, rank, n);
  }

  /** Ranks are logarithmic: no rank exceeds the base-two logarithm of the number of elements. */
  lemma {:induction false} RankBound(parent: seq<nat>, rank: seq<nat>, i: nat)
    requires Balanced(parent, rank) && i < |parent|
    ensures Pow2(rank[i]) <= |parent|
    ensures Pow2(rank[Root(parent, rank, i)]) <= |parent|
  {
    var r := Root(parent, rank, i);
    BigEnoughAt(parent, rank, |parent|, r);
    Pow2Monotone(rank[i], rank[r]);
  }

  /** A byte holds any rank a forest of fewer than 2^256 elements can reach. */
  lemma RankFitsByte(parent: seq<nat>, rank: seq<nat>, i: nat)
    requires Balanced(parent, rank) && i < |parent| < Pow2(256)
    ensures rank[i] <= 255
  {
    RankBound(parent, rank, i);
    if rank[i] >= 256 {
      Pow2Monotone(256, rank[i]);
    }
  }

  /** One path-halving step from `x`. */
  lemma {:induction false} HalveStep(was: seq<nat>, parent: seq<nat>, rank: seq<nat>, x: nat)
    requires SameRoots(was, parent, rank) && Balanced(parent, rank) && x < |parent| && parent[x] != x
    ensures var q := Halved(parent, x);
      && SameRoots(was, q, rank) && Balanced(q, rank)
      && q[x] < |q| && rank[x] < rank[q[x]] && Root(q, rank, q[x]) == Root(parent, rank, x)
  {
    var q := Halved(parent, x);
    HalvingSameRoots(parent, rank, x);
    SameRootsBalanced(parent, q, rank);
    forall j | 0 <= j < |was| ensures Root(was, rank, j) == Root(q, rank, j) {
      assert Root(was, rank, j) == Root(parent, rank, j);
    }
    assert Root(q, rank, q[x]) == Root(q, rank, x);
  }

  /**
   * Lookup with path halving: every node passed is re-pointed at its grandparent. Roots are untouched, and
   * the walk takes at most a logarithmic number of steps.
   */
  method HalvingFind(parent0: seq<nat>, rank: seq<nat>, x0: nat) returns (parent: seq<nat>, x: nat, ghost steps: nat)
    requires Balanced(parent0, rank) && x0 < |parent0|
    ensures Balanced(parent, rank) && SameRoots(parent0, parent, rank)
    ensures x == Root(parent0, rank, x0) == Root(parent, rank, x0)
    ensures Pow2(steps) <= |parent0|
  {
    parent, x, steps := parent0, x0, 0;
    while parent[x] != x
      invariant Balanced(parent, rank) && SameRoots(parent0, parent, rank)
      invariant x < |parent| && Root(parent, rank, x) == Root(parent0, rank, x0)
      invariant rank[x0] + steps <= rank[x]
      decreases MaxRank(rank) - rank[x]
    {
      HalveStep(parent0, parent, rank, x);
      parent := parent[x := parent[parent[x]]];
      x := parent[x];
      steps := steps + 1;
    }
    RankBound(parent, rank, x);
    Pow2Monotone(steps, rank[x]);
  }
}
