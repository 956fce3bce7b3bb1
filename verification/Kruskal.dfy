/** The maximum spanning forest a descending pass keeps, and why its weakest edge is the component's bottleneck. */
module Kruskal {
  import opened Connectivity
  import opened IdentityModel

  /** Two edge sets that connect the same tokens. */
  ghost predicate SameReach(p: set<(string, string)>, q: set<(string, string)>) {
    forall x, y :: Connected(p, x, y) <==> Connected(q, x, y)
  }

  lemma SameReachAdd(p: set<(string, string)>, q: set<(string, string)>, a: string, b: string)
    requires SameReach(p, q)
    ensures SameReach(p + {(a, b)}, q + {(a, b)})
  {
    forall x, y ensures Connected(p + {(a, b)}, x, y) <==> Connected(q + {(a, b)}, x, y) {
      ConnectedAdd(p, a, b, x, y);
      ConnectedAdd(q, a, b, x, y);
    }
  }

  /** An edge between tokens already connected reaches nothing new. */
  lemma SameReachSkip(p: set<(string, string)>, a: string, b: string)
    requires Connected(p, a, b)
    ensures SameReach(p, p + {(a, b)})
  {
    ConnectedSymmetric(p, a, b);
    forall x, y ensures Connected(p, x, y) <==> Connected(p + {(a, b)}, x, y) {
      ConnectedAdd(p, a, b, x, y);
      if Connected(p, x, a) && Connected(p, b, y) {
        ConnectedTransitive(p, x, a, b);
        ConnectedTransitive(p, x, b, y);
      }
      if Connected(p, x, b) && Connected(p, a, y) {
        ConnectedTransitive(p, x, b, a);
        ConnectedTransitive(p, x, a, y);
      }
    }
  }

  lemma SameReachChain(p: set<(string, string)>, q: set<(string, string)>, r: set<(string, string)>)
    requires SameReach(p, q) && SameReach(q, r)
    ensures SameReach(p, r)
  {
    forall x, y ensures Connected(p, x, y) <==> Connected(r, x, y) {
      assert Connected(p, x, y) <==> Connected(q, x, y);
    }
  }

  ghost function EdgesOf(es: seq<Edge>): set<Edge> {
    set e | e in es
  }

  ghost predicate Descending(es: seq<Edge>) {
    forall i, j | 0 <= i < j < |es| :: es[i].confidence >= es[j].confidence
  }

  /** The pairs of the edges picked so far, by position. */
  ghost function PickedPairs(es: seq<Edge>, picked: seq<nat>): set<(string, string)>
    requires forall k | k in picked :: k < |es|
  {
    set k | k in picked :: (es[k].a, es[k].b)
  }

  /** Each picked edge joined two tokens that no earlier edge connected, and together the picked edges connect what all do. */
  ghost predicate SpanningForest(es: seq<Edge>, n: nat, picked: seq<nat>)
    requires n <= |es|
  {
    && (forall k | k in picked :: k < n)
    && (forall k | k in picked :: !Connected(Pairs(EdgesOf(es[..k])), es[k].a, es[k].b))
    && SameReach(PickedPairs(es, picked), Pairs(EdgesOf(es[..n])))
  }

  lemma PairsNext(es: seq<Edge>, n: nat)
    requires n < |es|
    ensures Pairs(EdgesOf(es[..n + 1])) == Pairs(EdgesOf(es[..n])) + {(es[n].a, es[n].b)}
  {
    assert es[..n + 1] == es[..n] + [es[n]];
    assert EdgesOf(es[..n + 1]) == EdgesOf(es[..n]) + {es[n]};
  }

  lemma EmptyForest(es: seq<Edge>)
    ensures SpanningForest(es, 0, [])
  {
    assert PickedPairs(es, []) == Pairs(EdgesOf(es[..0]));
  }

  lemma ForestSkips(es: seq<Edge>, n: nat, picked: seq<nat>)
    requires n < |es| && SpanningForest(es, n, picked) && Connected(Pairs(EdgesOf(es[..n])), es[n].a, es[n].b)
    ensures SpanningForest(es, n + 1, picked)
  {
    PairsNext(es, n);
    SameReachSkip(Pairs(EdgesOf(es[..n])), es[n].a, es[n].b);
    SameReachChain(PickedPairs(es, picked), Pairs(EdgesOf(es[..n])), Pairs(EdgesOf(es[..n + 1])));
  }

  lemma ForestPicks(es: seq<Edge>, n: nat, picked: seq<nat>)
    requires n < |es| && SpanningForest(es, n, picked) && !Connected(Pairs(EdgesOf(es[..n])), es[n].a, es[n].b)
    ensures SpanningForest(es, n + 1, picked + [n])
  {
    PairsNext(es, n);
    SameReachAdd(PickedPairs(es, picked), Pairs(EdgesOf(es[..n])), es[n].a, es[n].b);
    assert PickedPairs(es, picked + [n]) == PickedPairs(es, picked) + {(es[n].a, es[n].b)};
  }

  /** Edges of confidence at least `t` all come before a weaker one. */
  lemma StrongerComeFirst(es: seq<Edge>, k: nat, t: real)
    requires Descending(es) && k < |es| && es[k].confidence < t
    ensures PairsFrom(EdgesOf(es), t) <= Pairs(EdgesOf(es[..k]))
  {
    forall p | p in PairsFrom(EdgesOf(es), t) ensures p in Pairs(EdgesOf(es[..k])) {
      var e :| e in EdgesOf(es) && e.confidence >= t && p == (e.a, e.b);
      var i :| 0 <= i < |es| && es[i] == e;
      assert i < k;
      assert e in es[..k];
    }
  }

  lemma PickedJoin(es: seq<Edge>, picked: seq<nat>, k: nat)
    requires SpanningForest(es, |es|, picked) && k in picked
    ensures Connected(Pairs(EdgesOf(es)), es[k].a, es[k].b)
  {
    assert es[..|es|] == es;
    assert (es[k].a, es[k].b) in Pairs(EdgesOf(es));
    ConnectedStep(Pairs(EdgesOf(es)), es[k].a, es[k].b);
  }

  /** A component held together at `t` has no weaker edge in its spanning forest. */
  lemma HeldMeansStrongPicks(es: seq<Edge>, picked: seq<nat>, tokens: set<string>, x: string, t: real, k: nat)
    requires Descending(es) && SpanningForest(es, |es|, picked) && k in picked
    requires es[k].a in tokens && es[k].b in tokens
    requires HeldBy(tokens, EdgesOf(es), x, t) && Connected(Pairs(EdgesOf(es)), x, es[k].a)
    ensures es[k].confidence >= t
  {
    if es[k].confidence < t {
      var strong := PairsFrom(EdgesOf(es), t);
      PickedJoin(es, picked, k);
      ConnectedTransitive(Pairs(EdgesOf(es)), x, es[k].a, es[k].b);
      ConnectedSymmetric(strong, x, es[k].a);
      ConnectedTransitive(strong, es[k].a, x, es[k].b);
      StrongerComeFirst(es, k, t);
      ConnectedMonotone(strong, Pairs(EdgesOf(es[..k])), es[k].a, es[k].b);
    }
  }

  /** A component whose spanning forest has no edge weaker than `t` is held together at `t`. */
  lemma StrongPicksHold(es: seq<Edge>, picked: seq<nat>, tokens: set<string>, x: string, t: real)
    requires SpanningForest(es, |es|, picked)
    requires forall k | k in picked && Connected(Pairs(EdgesOf(es)), x, es[k].a) :: es[k].confidence >= t
    ensures HeldBy(tokens, EdgesOf(es), x, t)
  {
    var all, strong, forest := Pairs(EdgesOf(es)), PairsFrom(EdgesOf(es), t), PickedPairs(es, picked);
    assert es[..|es|] == es;
    forall y | y in tokens && Connected(all, x, y) ensures Connected(strong, x, y) {
      ConnectedReflexive(strong, x);
      forall u, v | Adjacent(forest, u, v) && Connected(strong, x, u) ensures Connected(strong, x, v) {
        ForestStep(es, picked, x, t, u, v);
      }
      ConnectedCarries(forest, w => Connected(strong, x, w), x, y);
    }
  }

  lemma ForestStep(es: seq<Edge>, picked: seq<nat>, x: string, t: real, u: string, v: string)
    requires SpanningForest(es, |es|, picked)
    requires forall k | k in picked && Connected(Pairs(EdgesOf(es)), x, es[k].a) :: es[k].confidence >= t
    requires Adjacent(PickedPairs(es, picked), u, v) && Connected(PairsFrom(EdgesOf(es), t), x, u)
    ensures Connected(PairsFrom(EdgesOf(es), t), x, v)
  {
    var k :| k in picked && ((es[k].a, es[k].b) == (u, v) || (es[k].a, es[k].b) == (v, u));
    var all, strong := Pairs(EdgesOf(es)), PairsFrom(EdgesOf(es), t);
    ConnectedMonotone(strong, all, x, u);
    PickedJoin(es, picked, k);
    if es[k].a != u {
      ConnectedSymmetric(all, es[k].a, es[k].b);
      ConnectedTransitive(all, x, u, es[k].a);
    }
    assert es[k] in EdgesOf(es) && (es[k].a, es[k].b) in strong;
    ConnectedStep(strong, u, v);
    ConnectedTransitive(strong, x, u, v);
  }

  /**
   * Bottleneck optimality: a component stays in one piece at `t` exactly when every spanning-forest edge inside
   * it reaches `t`, however ties were broken.
   */
  lemma Bottleneck(es: seq<Edge>, picked: seq<nat>, tokens: set<string>, x: string, t: real)
    requires Descending(es) && SpanningForest(es, |es|, picked)
    requires forall e | e in es :: e.a in tokens && e.b in tokens
    ensures HeldBy(tokens, EdgesOf(es), x, t)
       <==> forall k | k in picked && Connected(Pairs(EdgesOf(es)), x, es[k].a) :: es[k].confidence >= t
  {
    if HeldBy(tokens, EdgesOf(es), x, t) {
      forall k | k in picked && Connected(Pairs(EdgesOf(es)), x, es[k].a) ensures es[k].confidence >= t {
        assert es[k] in es;
        HeldMeansStrongPicks(es, picked, tokens, x, t, k);
      }
    }
    if forall k | k in picked && Connected(Pairs(EdgesOf(es)), x, es[k].a) :: es[k].confidence >= t {
      StrongPicksHold(es, picked, tokens, x, t);
    }
  }
}
