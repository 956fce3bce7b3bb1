/** Ranking quality: discounted cumulative gain against its best possible order. */
module Ranking {
  import opened Ordering

  /** Per-position weights: positive, and never larger further down. */
  ghost predicate Discount(w: nat -> real) {
    && (forall i: nat :: w(i) > 0.0)
    && (forall i: nat :: Falls(w, i))
  }

  ghost predicate Falls(w: nat -> real, i: nat) {
    w(i) >= w(i + 1)
  }

  ghost predicate StrictlyFalls(w: nat -> real, i: nat) {
    w(i) > w(i + 1)
  }

  /** Discounted gain of `xs` placed from position `i` on. */
  function Dcg(xs: seq<real>, w: nat -> real, i: nat): real {
    if xs == [] then 0.0 else xs[0] * w(i) + Dcg(xs[1..], w, i + 1)
  }

  predicate AtLeast(x: real, y: real) {
    x >= y
  }

  /** `None` for an empty ranking or one with nothing to gain. */
  function Ndcg(rels: seq<real>, w: nat -> real): Option<real> {
    if rels == [] then None
    else
      var ideal := Dcg(Sort(AtLeast, rels), w, 0);
      if ideal > 0.0 then Some(Dcg(rels, w, 0) / ideal) else None
  }

  /** A larger gain is worth at least as much in front. */
  lemma LargerFirst(small: real, large: real, front: real, back: real)
    requires small <= large && front >= back
    ensures small * front + large * back <= large * front + small * back
    ensures small < large && front > back ==> small * front + large * back < large * front + small * back
  {
    assert (large - small) * (front - back) >= 0.0;
  }

  lemma {:induction false} InsertGains(x: real, s: seq<real>, w: nat -> real, i: nat)
    requires Discount(w)
    ensures Dcg(Insert(AtLeast, x, s), w, i) >= Dcg([x] + s, w, i)
  {
    if s != [] && !AtLeast(x, s[0]) {
      InsertGains(x, s[1..], w, i + 1);
      DcgCons(x, s[1..], w, i + 1);
      InsertStep(x, s[0], s[1..], w, i);
      assert s == [s[0]] + s[1..];
    }
  }

  lemma {:induction false} InsertStep(x: real, y: real, rest: seq<real>, w: nat -> real, i: nat)
    requires x <= y && Falls(w, i) && Dcg(Insert(AtLeast, x, rest), w, i + 1) >= x * w(i + 1) + Dcg(rest, w, i + 2)
    ensures Dcg([y] + Insert(AtLeast, x, rest), w, i) >= Dcg([x] + ([y] + rest), w, i)
  {
    DcgCons(y, Insert(AtLeast, x, rest), w, i);
    DcgTwo(x, y, rest, w, i);
    LargerAhead(Dcg([y] + Insert(AtLeast, x, rest), w, i), Dcg([x] + ([y] + rest), w, i), x, y, w(i), w(i + 1),
                Dcg(Insert(AtLeast, x, rest), w, i + 1), Dcg(rest, w, i + 2));
  }

  lemma DcgTwo(x: real, y: real, rest: seq<real>, w: nat -> real, i: nat)
    ensures Dcg([x] + ([y] + rest), w, i) == x * w(i) + (y * w(i + 1) + Dcg(rest, w, i + 2))
  {
    DcgCons(x, [y] + rest, w, i);
    DcgCons(y, rest, w, i + 1);
  }

  /** Putting the larger gain in front loses nothing, whatever comes after. */
  lemma LargerAhead(ahead: real, behind: real, small: real, large: real, front: real, back: real, after: real, rest: real)
    requires small <= large && front >= back && after >= small * back + rest
    requires ahead == large * front + after && behind == small * front + (large * back + rest)
    ensures ahead >= behind
  {
    LargerFirst(small, large, front, back);
  }

  lemma {:induction false} DcgCons(x: real, s: seq<real>, w: nat -> real, i: nat)
    ensures Dcg([x] + s, w, i) == x * w(i) + Dcg(s, w, i + 1)
  {
    assert ([x] + s)[1..] == s;
  }

  lemma {:induction false} PrependGains(x: real, s: seq<real>, t: seq<real>, w: nat -> real, i: nat)
    requires Dcg(s, w, i + 1) <= Dcg(t, w, i + 1)
    ensures Dcg([x] + s, w, i) <= Dcg([x] + t, w, i)
  {
    assert ([x] + s)[1..] == s && ([x] + t)[1..] == t;
  }

  /** No order gains more than the descending one: the rearrangement inequality. */
  lemma {:induction false} SortedIsBest(s: seq<real>, w: nat -> real, i: nat)
    requires Discount(w)
    ensures Dcg(s, w, i) <= Dcg(Sort(AtLeast, s), w, i)
  {
    if s != [] {
      SortedIsBest(s[1..], w, i + 1);
      PrependGains(s[0], s[1..], Sort(AtLeast, s[1..]), w, i);
      assert [s[0]] + s[1..] == s;
      InsertGains(s[0], Sort(AtLeast, s[1..]), w, i);
    }
  }

  lemma {:induction false} GainsNonnegative(s: seq<real>, w: nat -> real, i: nat)
    requires Discount(w) && forall x | x in s :: x >= 0.0
    ensures Dcg(s, w, i) >= 0.0
  {
    if s != [] {
      assert s[0] in s && forall x | x in s[1..] :: x in s;
      NonnegativeProduct(s[0], w(i));
      GainsNonnegative(s[1..], w, i + 1);
    }
  }

  lemma NonnegativeProduct(x: real, y: real)
    requires x >= 0.0 && y > 0.0
    ensures x * y >= 0.0
  {
  }

  lemma QuotientBounds(a: real, b: real)
    requires b > 0.0
    ensures a <= b ==> a / b <= 1.0
    ensures a < b ==> a / b < 1.0
    ensures a == b ==> a / b == 1.0
    ensures a >= 0.0 ==> a / b >= 0.0
  {
  }

  /** The score never exceeds 1, and is not negative for the nonnegative gains feedback yields. */
  lemma NdcgBounds(rels: seq<real>, w: nat -> real)
    requires Discount(w) && Ndcg(rels, w).Some?
    ensures Ndcg(rels, w).value <= 1.0
    ensures (forall x | x in rels :: x >= 0.0) ==> Ndcg(rels, w).value >= 0.0
  {
    SortedIsBest(rels, w, 0);
    QuotientBounds(Dcg(rels, w, 0), Dcg(Sort(AtLeast, rels), w, 0));
    if forall x | x in rels :: x >= 0.0 {
      GainsNonnegative(rels, w, 0);
    }
  }

  ghost predicate Descending(s: seq<real>) {
    forall k | 0 <= k < |s| - 1 :: s[k] >= s[k + 1]
  }

  lemma {:induction false} DescendingIsSorted(s: seq<real>)
    requires Descending(s)
    ensures Sort(AtLeast, s) == s
  {
    if s != [] {
      DescendingIsSorted(s[1..]);
      if |s| > 1 { assert s[0] >= s[1]; }
    }
  }

  /** Swaps the gains at positions `k` and `k + 1`. */
  function Swapped(s: seq<real>, k: nat): seq<real>
    requires k + 1 < |s|
  {
    s[k := s[k + 1]][k + 1 := s[k]]
  }

  /** Fixing an adjacent inversion never lowers the gain, and raises it where the discount falls. */
  lemma {:induction false} FixingGains(s: seq<real>, k: nat, w: nat -> real, i: nat)
    requires Discount(w) && k + 1 < |s| && s[k] < s[k + 1]
    ensures Dcg(Swapped(s, k), w, i) >= Dcg(s, w, i)
    ensures StrictlyFalls(w, i + k) ==> Dcg(Swapped(s, k), w, i) > Dcg(s, w, i)
  {
    var t := Swapped(s, k);
    if k == 0 {
      assert Falls(w, i);
      LargerFirst(s[0], s[1], w(i), w(i + 1));
      assert t[1..][1..] == s[1..][1..];
    } else {
      assert t[1..] == Swapped(s[1..], k - 1);
      FixingGains(s[1..], k - 1, w, i + 1);
    }
  }

  lemma SwapPermutes(s: seq<real>, k: nat)
    requires k + 1 < |s|
    ensures multiset(Swapped(s, k)) == multiset(s)
  {
  }

  lemma {:induction false} SameIdeal(s: seq<real>, t: seq<real>)
    requires multiset(s) == multiset(t)
    ensures Sort(AtLeast, s) == Sort(AtLeast, t)
  {
    SortPermuted(AtLeast, s, t);
  }

  lemma QuotientGrows(a: real, b: real, d: real)
    requires d > 0.0 && a <= b
    ensures a / d <= b / d
  {
  }

  /** Moving a better item up past a worse neighbour never lowers the score. */
  lemma FixingNeverLowers(rels: seq<real>, k: nat, w: nat -> real)
    requires Discount(w) && k + 1 < |rels| && rels[k] < rels[k + 1] && Ndcg(rels, w).Some?
    ensures Ndcg(Swapped(rels, k), w).Some? && Ndcg(Swapped(rels, k), w).value >= Ndcg(rels, w).value
  {
    SwapPermutes(rels, k);
    SameIdeal(rels, Swapped(rels, k));
    FixingGains(rels, k, w, 0);
    QuotientGrows(Dcg(rels, w, 0), Dcg(Swapped(rels, k), w, 0), Dcg(Sort(AtLeast, rels), w, 0));
  }

  /** Under a strictly falling discount the score is 1 exactly on a descending ranking. */
  lemma PerfectIff(rels: seq<real>, w: nat -> real)
    requires Discount(w) && (forall i: nat :: StrictlyFalls(w, i)) && Ndcg(rels, w).Some?
    ensures Ndcg(rels, w).value == 1.0 <==> Descending(rels)
  {
    var ideal := Dcg(Sort(AtLeast, rels), w, 0);
    QuotientBounds(Dcg(rels, w, 0), ideal);
    if Descending(rels) {
      DescendingIsSorted(rels);
    } else {
      var k: nat :| k < |rels| - 1 && rels[k] < rels[k + 1];
      SwapPermutes(rels, k);
      SameIdeal(rels, Swapped(rels, k));
      FixingGains(rels, k, w, 0);
      SortedIsBest(Swapped(rels, k), w, 0);
      assert StrictlyFalls(w, k);
    }
  }
}
