/** Which weak edges the guarded pass gives way to: the best connection is taken first, and only better ones can stop it. */
module BestConnection {
  import opened Ordering
  import opened Connectivity
  import opened LinkModel
  import opened LinkComponents
  import opened LinkComponentsLaws

  /** The higher score, on equal scores the smaller endpoints. */
  predicate Outscores(f: Edge, e: Edge) {
    f.score > e.score || (f.score == e.score && (f.a < e.a || (f.a == e.a && f.b < e.b)))
  }

  function Precedes(e: Edge): Edge -> bool {
    (f: Edge) => f.strong || Outscores(f, e)
  }

  /** The edges with a better claim than `e`: the strong ones, and the weak ones that outscore it. */
  function Better(es: seq<Edge>, e: Edge): (r: seq<Edge>)
    ensures forall f :: f in r <==> f in es && (f.strong || Outscores(f, e))
  {
    Filter(Precedes(e), es)
  }

  /** The story `s` has been delivered and some cluster of it is in the class of `i`. */
  ghost predicate Holds(lab: seq<nat>, own: seq<set<Uuid>>, i: nat, s: Uuid)
    requires |lab| == |own| && i < |lab|
  {
    exists j | 0 <= j < |lab| :: lab[j] == lab[i] && s in own[j]
  }

  lemma HoldsClass(lab: seq<nat>, own: seq<set<Uuid>>, i: nat, s: Uuid)
    requires |lab| == |own| && i < |lab|
    ensures Holds(lab, own, i, s) <==> s in ClassStories(lab, own, lab[i])
  {
    if s in ClassStories(lab, own, lab[i]) {
      var j: nat :| j < |lab| && lab[j] == lab[i] && s in own[j];
    }
  }

  // ── The pass over the better edges is the pass up to the edge ──

  function Weak(): Edge -> bool {
    (f: Edge) => !f.strong
  }

  lemma {:induction false} WeakOnlyFilters(es: seq<Edge>)
    ensures WeakOnly(es) == Filter(Weak(), es)
  {
    if es != [] {
      WeakOnlyFilters(es[1..]);
    }
  }

  function Above(e: Edge): Edge -> bool {
    (f: Edge) => Outscores(f, e)
  }

  lemma {:induction false} WeakOfBetter(es: seq<Edge>, e: Edge)
    ensures Filter(Weak(), Filter(Precedes(e), es)) == Filter(Above(e), Filter(Weak(), es))
  {
    FilterCommutes(Weak(), Precedes(e), es);
    FilterAgrees(Precedes(e), Above(e), Filter(Weak(), es));
  }

  lemma StrongerTotal()
    ensures Total(StrongerFirst)
  {
  }

  /** The weak edges that outscore `e`, in the order the pass takes them. */
  lemma BetterOrder(es: seq<Edge>, e: Edge)
    ensures WeakOrder(Better(es, e)) == Filter(Above(e), WeakOrder(es))
  {
    WeakOnlyFilters(es);
    WeakOnlyFilters(Better(es, e));
    WeakOfBetter(es, e);
    StrongerTotal();
    SortFiltered(StrongerFirst, Above(e), Filter(Weak(), es));
  }

  lemma {:induction false} BetterStrong(es: seq<Edge>, e: Edge)
    ensures StrongPairs(Better(es, e)) == StrongPairs(es)
  {
    if es != [] {
      var front, last := es[..|es| - 1], es[|es| - 1];
      assert es == front + [last];
      BetterStrong(front, e);
      FilterAppend(Precedes(e), front, [last]);
      LastFiltered(Precedes(e), last);
      StrongSnoc(Better(front, e), last);
    }
  }

  lemma LastFiltered(p: Edge -> bool, x: Edge)
    ensures Filter(p, [x]) == if p(x) then [x] else []
  {
    FilterCons(p, x, []);
    assert [x] + [] == [x];
  }

  lemma {:induction false} StrongSnoc(es: seq<Edge>, e: Edge)
    ensures StrongPairs(es + [e]) == StrongPairs(es) + if e.strong then [(e.a, e.b)] else []
    ensures es + [] == es
  {
    assert (es + [e])[..|es|] == es;
  }

  /** The `k` edges with `p` come first, and then one with the ends of `e`. */
  ghost predicate PrefixEndsAt(ordered: seq<Edge>, p: Edge -> bool, e: Edge, k: nat) {
    k < |ordered| && ordered[..k] == Filter(p, ordered) && ordered[k].a == e.a && ordered[k].b == e.b
  }

  lemma PrefixCons(first: Edge, rest: seq<Edge>, p: Edge -> bool, e: Edge, k: nat)
    requires p(first) && PrefixEndsAt(rest, p, e, k)
    ensures PrefixEndsAt([first] + rest, p, e, k + 1)
  {
    FilterCons(p, first, rest);
    assert ([first] + rest)[..k + 1] == [first] + rest[..k];
  }

  /** The edges that outscore `e` come first, and then one with its ends. */
  lemma {:induction false} AboveIsPrefix(ordered: seq<Edge>, e: Edge) returns (k: nat)
    requires Sorted(StrongerFirst, ordered) && e in ordered
    ensures PrefixEndsAt(ordered, Above(e), e, k)
  {
    if Outscores(ordered[0], e) {
      assert ordered == [ordered[0]] + ordered[1..] && !Outscores(e, e);
      var i :| 0 <= i < |ordered| && ordered[i] == e;
      assert ordered[1..][i - 1] == e;
      k := AboveIsPrefix(ordered[1..], e);
      PrefixCons(ordered[0], ordered[1..], Above(e), e, k);
      k := k + 1;
    } else {
      k := 0;
      NoneAbove(ordered, e);
      FilterNone(Above(e), ordered);
    }
  }

  lemma NoneAbove(ordered: seq<Edge>, e: Edge)
    requires Sorted(StrongerFirst, ordered) && e in ordered && !Outscores(ordered[0], e)
    ensures (forall f | f in ordered :: !Above(e)(f)) && ordered[0].a == e.a && ordered[0].b == e.b
  {
    StrongerTotal();
    SortedLeast(StrongerFirst, ordered, e);
    forall f | f in ordered ensures !Above(e)(f) {
      SortedLeast(StrongerFirst, ordered, f);
    }
  }

  lemma {:induction false} PassSplit(lab: seq<nat>, own: seq<set<Uuid>>, weak: seq<Edge>, k: nat)
    requires |lab| == |own| && InRange(weak, |lab|) && k <= |weak| && InRange(weak[..k], |lab|) && InRange(weak[k..], |lab|)
    ensures GuardedPass(lab, own, weak) == GuardedPass(GuardedPass(lab, own, weak[..k]), own, weak[k..])
    decreases k
  {
    if k == 0 {
      assert weak[..0] == [] && weak[0..] == weak;
    } else {
      var e := weak[0];
      assert e in weak;
      var next := if Blocked(lab, own, e.a, e.b) then lab else Join(lab, e.a, e.b);
      assert weak[1..][..k - 1] == weak[..k][1..] && weak[1..][k - 1..] == weak[k..] && weak[..k][0] == e;
      PassSplit(next, own, weak[1..], k - 1);
    }
  }

  /** One step and the rest: what is not blocked at its turn is joined for good. */
  lemma {:induction false} PassTakes(lab: seq<nat>, own: seq<set<Uuid>>, weak: seq<Edge>)
    requires |lab| == |own| && InRange(weak, |lab|) && Canonical(lab) && weak != [] && weak[0].a < |lab| && weak[0].b < |lab|
    requires !Blocked(lab, own, weak[0].a, weak[0].b)
    ensures GuardedPass(lab, own, weak)[weak[0].a] == GuardedPass(lab, own, weak)[weak[0].b]
  {
    JoinMerges(lab, weak[0].a, weak[0].b);
    PassCoarsens(Join(lab, weak[0].a, weak[0].b), own, weak[1..]);
  }

  lemma PassedUpTo(own: seq<set<Uuid>>, es: seq<Edge>, e: Edge) returns (k: nat)
    requires InRange(es, |own|) && e in es && !e.strong
    ensures InRange(WeakOrder(es), |own|) && k < |WeakOrder(es)| && WeakOrder(es)[k].a == e.a && WeakOrder(es)[k].b == e.b
    ensures InRange(Better(es, e), |own|) && InRange(WeakOrder(es)[..k], |own|)
    ensures FinalLabels(own, Better(es, e)) == GuardedPass(StrongLabels(|own|, es), own, WeakOrder(es)[..k])
  {
    WeakInRange(es, |own|);
    StrongerTotal();
    SortSorted(StrongerFirst, WeakOnly(es));
    k := AboveIsPrefix(WeakOrder(es), e);
    BetterOrder(es, e);
    BetterStrong(es, e);
  }

  // ── The best connection first ──

  lemma TakenUnlessBlocked(own: seq<set<Uuid>>, es: seq<Edge>, e: Edge)
    requires InRange(es, |own|) && e in es && !e.strong && InRange(Better(es, e), |own|)
    requires !Blocked(FinalLabels(own, Better(es, e)), own, e.a, e.b)
    ensures FinalLabels(own, es)[e.a] == FinalLabels(own, es)[e.b]
  {
    var ordered, strong := WeakOrder(es), StrongLabels(|own|, es);
    var k := PassedUpTo(own, es, e);
    StrongCanonical(|own|, es);
    PassCoarsens(strong, own, ordered[..k]);
    PassSplit(strong, own, ordered, k);
    PassTakes(GuardedPass(strong, own, ordered[..k]), own, ordered[k..]);
  }

  /**
   * A weak edge left crossing two stories was stopped by better edges alone: the strong ones and those that
   * outscore it already put its ends into two classes with delivered stories, and none in common.
   */
  lemma CrossingBlockedByBetter(own: seq<set<Uuid>>, es: seq<Edge>, e: Edge)
    requires InRange(es, |own|) && e in es && FinalLabels(own, es)[e.a] != FinalLabels(own, es)[e.b]
    ensures !e.strong && InRange(Better(es, e), |own|)
    ensures var lab := FinalLabels(own, Better(es, e));
      && lab[e.a] != lab[e.b] && (exists s :: Holds(lab, own, e.a, s)) && (exists s :: Holds(lab, own, e.b, s))
      && forall s :: !(Holds(lab, own, e.a, s) && Holds(lab, own, e.b, s))
  {
    FinalCoarsens(own, es);
    if !Blocked(FinalLabels(own, Better(es, e)), own, e.a, e.b) {
      TakenUnlessBlocked(own, es, e);
      assert false;
    }
    BlockedHolds(FinalLabels(own, Better(es, e)), own, e.a, e.b);
  }

  lemma BlockedHolds(lab: seq<nat>, own: seq<set<Uuid>>, a: nat, b: nat)
    requires |lab| == |own| && a < |lab| && b < |lab| && Blocked(lab, own, a, b)
    ensures lab[a] != lab[b] && (exists s :: Holds(lab, own, a, s)) && (exists s :: Holds(lab, own, b, s))
    ensures forall s :: !(Holds(lab, own, a, s) && Holds(lab, own, b, s))
  {
    forall s ensures (Holds(lab, own, a, s) <==> s in ClassStories(lab, own, lab[a])) && (Holds(lab, own, b, s) <==> s in ClassStories(lab, own, lab[b])) {
      HoldsClass(lab, own, a, s);
      HoldsClass(lab, own, b, s);
    }
    var x :| x in ClassStories(lab, own, lab[a]);
    var y :| y in ClassStories(lab, own, lab[b]);
    assert Holds(lab, own, a, x) && Holds(lab, own, b, y);
  }

  ghost predicate Touches(e: Edge, u: nat) {
    e.a == u || e.b == u
  }

  lemma Untouched(own: seq<set<Uuid>>, es: seq<Edge>, u: nat, v: nat)
    requires InRange(es, |own|) && u < |own| && v < |own| && forall f | f in es :: !Touches(f, u)
    ensures FinalLabels(own, es)[u] == FinalLabels(own, es)[v] <==> u == v
  {
    var realised := Realised(es, FinalLabels(own, es));
    StoriesAreConnected(own, es, u, v);
    if Connected(realised, u, v) {
      ConnectedCarries(realised, w => w == u, u, v);
    }
  }

  /** A cluster new to the subscriber, with weak edges only, joins the story at the far end of its best one. */
  lemma FreshJoinsBest(own: seq<set<Uuid>>, es: seq<Edge>, u: nat, e: Edge)
    requires InRange(es, |own|) && u < |own| && own[u] == {} && e in es && Touches(e, u)
    requires forall f | f in es && Touches(f, u) :: !f.strong && !Outscores(f, e)
    ensures FinalLabels(own, es)[e.a] == FinalLabels(own, es)[e.b]
  {
    if FinalLabels(own, es)[e.a] != FinalLabels(own, es)[e.b] {
      CrossingBlockedByBetter(own, es, e);
      var lab := FinalLabels(own, Better(es, e));
      var s :| Holds(lab, own, u, s);
      var j: nat :| j < |lab| && lab[j] == lab[u] && s in own[j];
      Untouched(own, Better(es, e), u, j);
      assert false;
    }
  }

  /** An edge between two clusters of one delivered story never stays crossing. */
  lemma SharedStoryNeverCrosses(own: seq<set<Uuid>>, es: seq<Edge>, e: Edge, s: Uuid)
    requires InRange(es, |own|) && e in es && s in own[e.a] && s in own[e.b]
    ensures FinalLabels(own, es)[e.a] == FinalLabels(own, es)[e.b]
  {
    if FinalLabels(own, es)[e.a] != FinalLabels(own, es)[e.b] {
      var lab := FinalLabels(own, Better(es, e));
      HoldsOwn(lab, own, e.a, s);
      HoldsOwn(lab, own, e.b, s);
      CrossingBlockedByBetter(own, es, e);
      assert false;
    }
  }

  lemma HoldsOwn(lab: seq<nat>, own: seq<set<Uuid>>, i: nat, s: Uuid)
    requires |lab| == |own| && i < |lab| && s in own[i]
    ensures Holds(lab, own, i, s)
  {
  }

  /** For instance: between two delivered stories a fresh cluster goes to the one it scores 0.9 with, not 0.4. */
  lemma BestOfTwo(reason: string)
    ensures InRange([Edge(0, 2, false, 0.9, reason), Edge(1, 2, false, 0.4, reason)], 3)
    ensures FinalLabels([{1}, {2}, {}], [Edge(0, 2, false, 0.9, reason), Edge(1, 2, false, 0.4, reason)]) == [0, 1, 0]
  {
    NearerWins([{1}, {2}, {}], Edge(0, 2, false, 0.9, reason), Edge(1, 2, false, 0.4, reason));
  }

  lemma NearerWins(own: seq<set<Uuid>>, near: Edge, far: Edge)
    requires own == [{1}, {2}, {}] && near.a == 0 && far.a == 1 && near.b == far.b == 2
    requires !near.strong && !far.strong && near.score > far.score
    ensures InRange([near, far], 3) && FinalLabels(own, [near, far]) == [0, 1, 0]
  {
    FreshJoinsBest(own, [near, far], 2, near);
    FinalCoarsens(own, [near, far]);
    DeliveredApart(own, [near, far]);
    ThreeLabels(FinalLabels(own, [near, far]));
  }

  lemma ThreeLabels(lab: seq<nat>)
    requires |lab| == 3 && Canonical(lab) && lab[0] == lab[2] && lab[0] != lab[1]
    ensures lab == [0, 1, 0]
  {
    assert lab[lab[0]] == lab[0] && lab[lab[1]] == lab[1];
  }

  lemma DeliveredApart(own: seq<set<Uuid>>, es: seq<Edge>)
    requires own == [{1}, {2}, {}] && InRange(es, 3) && forall e | e in es :: !e.strong
    ensures FinalLabels(own, es)[0] != FinalLabels(own, es)[1]
  {
    var lab := FinalLabels(own, es);
    NoTies(own, es);
    if lab[0] == lab[1] {
      OwnInClass(lab, own, 0);
      OwnInClass(lab, own, 1);
      NoStrongMergeNoMerge(own, es, 0, 1, 2);
      assert false;
    }
  }

  lemma OwnInClass(lab: seq<nat>, own: seq<set<Uuid>>, i: nat)
    requires |lab| == |own| && i < |lab|
    ensures own[i] <= ClassStories(lab, own, lab[i])
  {
  }

  lemma NoTies(own: seq<set<Uuid>>, es: seq<Edge>)
    requires own == [{1}, {2}, {}] && InRange(es, 3) && forall e | e in es :: !e.strong
    ensures forall p | p in StrongTies(own, es) :: p.0 == p.1
  {
    var strong := StrongLabels(3, es);
    NoStrongPairs(es);
    assert strong == [0, 1, 2];
    forall p | p in StrongTies(own, es) ensures p.0 == p.1 {
      var i: nat, s, t :| i < 3 && s in ClassStories(strong, own, strong[i]) && t in ClassStories(strong, own, strong[i]) && p == (s, t);
      AloneInClass(own, i, s);
      AloneInClass(own, i, t);
    }
  }

  lemma AloneInClass(own: seq<set<Uuid>>, i: nat, s: Uuid)
    requires own == [{1}, {2}, {}] && i < 3 && s in ClassStories([0, 1, 2], own, i)
    ensures s == i + 1
  {
    var j: nat :| j < 3 && [0, 1, 2][j] == i && s in own[j];
  }

  lemma {:induction false} NoStrongPairs(es: seq<Edge>)
    requires forall e | e in es :: !e.strong
    ensures StrongPairs(es) == []
  {
    if es != [] {
      assert es[|es| - 1] in es;
      NoStrongPairs(es[..|es| - 1]);
    }
  }
}
