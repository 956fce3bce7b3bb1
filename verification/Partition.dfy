/** A disjoint-set forest read as a partition: indices share a root exactly when they share a canonical label. */
module Partition {
  import opened Connectivity
  import opened Forest

  /** Indices share a root exactly when they share a label. */
  ghost predicate Labelled(parent: seq<nat>, rank: seq<nat>, lab: seq<nat>) {
    && WellRanked(parent, rank) && |parent| == |lab| && Canonical(lab)
    && forall i, j {:trigger Root(parent, rank, i), Root(parent, rank, j)} | 0 <= i < |lab| && 0 <= j < |lab| ::
         Root(parent, rank, i) == Root(parent, rank, j) <==> lab[i] == lab[j]
  }

  ghost predicate SamePair(a: nat, b: nat, c: nat, d: nat) {
    (a == c && b == d) || (a == d && b == c)
  }

  lemma {:induction false} LinkLabels(parent: seq<nat>, rank: seq<nat>, lab: seq<nat>, x: nat, y: nat, lo: nat, hi: nat)
    requires Labelled(parent, rank, lab) && x < |lab| && y < |lab| && Linkable(parent, rank, lo, hi)
    requires SamePair(Root(parent, rank, x), Root(parent, rank, y), lo, hi)
    ensures Labelled(LinkedParent(parent, lo, hi), LinkedRank(rank, lo, hi), Join(lab, x, y))
  {
    LinkRanked(parent, rank, lo, hi);
    JoinMerges(lab, x, y);
    var p, k, joined := LinkedParent(parent, lo, hi), LinkedRank(rank, lo, hi), Join(lab, x, y);
    forall i, j | 0 <= i < |lab| && 0 <= j < |lab| ensures Root(p, k, i) == Root(p, k, j) <==> joined[i] == joined[j] {
      LinkRoot(parent, rank, lo, hi, i);
      LinkRoot(parent, rank, lo, hi, j);
    }
  }

  /** A root outside the two merged trees has a label of its own. */
  lemma {:induction false} OtherRoots(parent: seq<nat>, rank: seq<nat>, lab: seq<nat>, x: nat, y: nat, lo: nat, hi: nat)
    requires Labelled(parent, rank, lab) && x < |lab| && y < |lab| && lo < |lab| && hi < |lab|
    requires parent[lo] == lo && parent[hi] == hi
    requires SamePair(Root(parent, rank, x), Root(parent, rank, y), lo, hi)
    ensures SamePair(lab[lo], lab[hi], lab[x], lab[y])
    ensures forall r | 0 <= r < |lab| && parent[r] == r && r != lo && r != hi :: lab[r] != lab[x] && lab[r] != lab[y]
  {
    assert Root(parent, rank, lo) == lo && Root(parent, rank, hi) == hi;
    forall r | 0 <= r < |lab| && parent[r] == r && r != lo && r != hi ensures lab[r] != lab[x] && lab[r] != lab[y] {
      assert Root(parent, rank, r) == r;
    }
  }

  lemma JoinSame(lab: seq<nat>, x: nat, y: nat)
    requires x < |lab| && y < |lab| && lab[x] == lab[y]
    ensures Join(lab, x, y) == lab
  {
  }

  lemma SameClassSameRoot(parent: seq<nat>, rank: seq<nat>, lab: seq<nat>, r: nat, s: nat)
    requires Labelled(parent, rank, lab) && r < |lab| && s < |lab| && parent[r] == r && parent[s] == s
    ensures r == s <==> lab[r] == lab[s]
  {
    assert Root(parent, rank, r) == r && Root(parent, rank, s) == s;
  }

  lemma {:induction false} RootAlone(parent: seq<nat>, rank: seq<nat>, lab: seq<nat>, x: nat, r: nat)
    requires Labelled(parent, rank, lab) && x < |lab| && r < |lab| && parent[r] == r && lab[r] == lab[x]
    ensures Root(parent, rank, x) == r
  {
    assert Root(parent, rank, r) == r;
  }

  /** Linking the roots of `x` and `y` joins their classes and keeps the forest balanced. */
  lemma {:induction false} LinkJoins(parent: seq<nat>, rank: seq<nat>, lab: seq<nat>, x: nat, y: nat, lo: nat, hi: nat)
    requires Balanced(parent, rank) && Labelled(parent, rank, lab)
    requires x < |lab| && y < |lab| && Linkable(parent, rank, lo, hi) && SamePair(lab[lo], lab[hi], lab[x], lab[y])
    ensures Balanced(LinkedParent(parent, lo, hi), LinkedRank(rank, lo, hi))
    ensures Labelled(LinkedParent(parent, lo, hi), LinkedRank(rank, lo, hi), Join(lab, x, y))
    ensures SamePair(Root(parent, rank, x), Root(parent, rank, y), lo, hi)
  {
    var (a, b) := if lab[lo] == lab[x] && lab[hi] == lab[y] then (lo, hi) else (hi, lo);
    RootAlone(parent, rank, lab, x, a);
    RootAlone(parent, rank, lab, y, b);
    LinkBalanced(parent, rank, lo, hi);
    LinkLabels(parent, rank, lab, x, y, lo, hi);
  }

  lemma HalvedLabelled(parent: seq<nat>, q: seq<nat>, rank: seq<nat>, lab: seq<nat>)
    requires SameRoots(parent, q, rank) && Labelled(parent, rank, lab)
    ensures Labelled(q, rank, lab)
  {
  }

  // ── A new element on its own ──

  lemma {:induction false} GrownRoot(parent: seq<nat>, rank: seq<nat>, i: nat)
    requires WellRanked(parent, rank) && i < |parent| && WellRanked(parent + [|parent|], rank + [0])
    ensures Root(parent + [|parent|], rank + [0], i) == Root(parent, rank, i)
    decreases MaxRank(rank) - rank[i]
  {
    if parent[i] != i {
      GrownRoot(parent, rank, parent[i]);
    }
  }

  lemma {:induction false} GrownSize(parent: seq<nat>, rank: seq<nat>, r: nat, n: nat)
    requires WellRanked(parent, rank) && n <= |parent| && WellRanked(parent + [|parent|], rank + [0])
    ensures Size(parent + [|parent|], rank + [0], r, n) == Size(parent, rank, r, n)
  {
    if n > 0 {
      GrownRoot(parent, rank, n - 1);
      GrownSize(parent, rank, r, n - 1);
    }
  }

  lemma GrownBalanced(parent: seq<nat>, rank: seq<nat>)
    requires Balanced(parent, rank)
    ensures Balanced(parent + [|parent|], rank + [0])
  {
    var n, p, k := |parent|, parent + [|parent|], rank + [0];
    assert WellRanked(p, k);
    forall r | 0 <= r < |p| && p[r] == r ensures Pow2(k[r]) <= Size(p, k, r, |p|) {
      GrownSize(parent, rank, r, n);
      if r < n {
        BigEnoughAt(parent, rank, n, r);
      }
    }
    BigEnoughAll(p, k, |p|);
  }

  lemma GrownLabelled(parent: seq<nat>, rank: seq<nat>, lab: seq<nat>)
    requires Labelled(parent, rank, lab)
    ensures Labelled(parent + [|parent|], rank + [0], lab + [|lab|])
  {
    var p, k, grown := parent + [|parent|], rank + [0], lab + [|lab|];
    assert WellRanked(p, k);
    forall i, j | 0 <= i < |grown| && 0 <= j < |grown| ensures Root(p, k, i) == Root(p, k, j) <==> grown[i] == grown[j] {
      if i < |lab| { GrownRoot(parent, rank, i); }
      if j < |lab| { GrownRoot(parent, rank, j); }
    }
  }
}
