/** Must/cannot-link constraints, and connected components under the delivered-story guard. */
module LinkComponents {
  import opened Ordering
  import opened Connectivity
  import opened Forest
  import opened Partition
  import opened LinkModel

  // ── Constraints on scored edges ──

  const MUST_LINK_REASON: string := "must-link (feedback)"

  function PairKey(a: Uuid, b: Uuid): (Uuid, Uuid) {
    if a <= b then (a, b) else (b, a)
  }

  /** Position of the cluster with the given id. */
  function IndexOf(cs: seq<Cluster>, id: Uuid): (r: Option<nat>)
    ensures r.None? <==> forall i | 0 <= i < |cs| :: cs[i].id != id
    ensures r.Some? ==> r.value < |cs| && cs[r.value].id == id
  {
    if cs == [] then None
    else if cs[0].id == id then Some(0)
    else
      match IndexOf(cs[1..], id)
      case Some(i) => Some(i + 1)
      case None => assert forall i | 1 <= i < |cs| :: cs[i] == cs[1..][i - 1]; None
  }

  predicate Forbidden(cs: seq<Cluster>, cannot: set<(Uuid, Uuid)>, e: Edge)
    requires e.a < |cs| && e.b < |cs|
  {
    PairKey(cs[e.a].id, cs[e.b].id) in cannot
  }

  /** The index pair a must-link names, when both clusters are present and distinct. */
  function MustPair(cs: seq<Cluster>, m: (Uuid, Uuid)): (r: Option<(nat, nat)>)
    ensures r.Some? ==> r.value.0 < r.value.1 < |cs|
  {
    match (IndexOf(cs, m.0), IndexOf(cs, m.1))
    case (Some(i), Some(j)) => if i == j then None else if i < j then Some((i, j)) else Some((j, i))
    case _ => None
  }

  function Forced(p: (nat, nat)): Edge {
    Edge(p.0, p.1, true, 1.0, MUST_LINK_REASON)
  }

  ghost predicate UniquePairs(es: seq<Edge>) {
    forall i, j | 0 <= i < j < |es| :: es[i].a != es[j].a || es[i].b != es[j].b
  }

  /** Upgrades the pair's edge to the forced one, or appends it. */
  function Force(es: seq<Edge>, p: (nat, nat)): (r: seq<Edge>)
    ensures UniquePairs(es) ==> forall e :: e in r <==> e == Forced(p) || (e in es && (e.a, e.b) != p)
    ensures forall e | e in r :: e == Forced(p) || e in es
  {
    if es == [] then [Forced(p)]
    else if (es[0].a, es[0].b) == p then
      assert es == [es[0]] + es[1..];
      [Forced(p)] + es[1..]
    else
      assert es == [es[0]] + es[1..];
      assert UniquePairs(es) ==> UniquePairs(es[1..]);
      [es[0]] + Force(es[1..], p)
  }

  lemma {:induction false} ForceUnique(es: seq<Edge>, p: (nat, nat))
    requires UniquePairs(es)
    ensures UniquePairs(Force(es, p))
  {
    if es != [] && (es[0].a, es[0].b) != p {
      ForceUnique(es[1..], p);
      var rest := Force(es[1..], p);
      forall j | 0 <= j < |rest| ensures es[0].a != rest[j].a || es[0].b != rest[j].b {
        assert rest[j] in rest;
      }
    }
  }

  function Retained(es: seq<Edge>, cs: seq<Cluster>, cannot: set<(Uuid, Uuid)>): (r: seq<Edge>)
    requires InRange(es, |cs|)
    ensures InRange(r, |cs|)
  {
    if es == [] then []
    else
      var e := es[|es| - 1];
      assert e in es && forall x | x in es[..|es| - 1] :: x in es;
      Retained(es[..|es| - 1], cs, cannot) + if Forbidden(cs, cannot, e) then [] else [e]
  }

  function ForcedAll(es: seq<Edge>, cs: seq<Cluster>, ms: seq<(Uuid, Uuid)>): (r: seq<Edge>)
    requires InRange(es, |cs|)
    ensures InRange(r, |cs|)
  {
    if ms == [] then es
    else
      var earlier := ForcedAll(es, cs, ms[..|ms| - 1]);
      match MustPair(cs, ms[|ms| - 1])
      case Some(p) => Force(earlier, p)
      case None => earlier
  }

  /** The scored edges with every cannot-link dropped and every must-link forced. */
  function Constrained(es: seq<Edge>, cs: seq<Cluster>, tuning: Tuning): (r: seq<Edge>)
    requires InRange(es, |cs|)
    ensures InRange(r, |cs|)
  {
    ForcedAll(Retained(es, cs, tuning.cannotLink), cs, tuning.mustLink)
  }

  method ApplyConstraints(scored: seq<Edge>, cs: seq<Cluster>, tuning: Tuning) returns (edges: seq<Edge>)
    requires InRange(scored, |cs|)
    ensures edges == Constrained(scored, cs, tuning)
  {
    if tuning.mustLink == [] && tuning.cannotLink == {} {
      RetainedAll(scored, cs);
      return scored;
    }
    edges := [];
    for k := 0 to |scored|
      invariant InRange(scored[..k], |cs|) && edges == Retained(scored[..k], cs, tuning.cannotLink)
    {
      assert scored[k] in scored;
      assert scored[..k + 1][..k] == scored[..k];
      if !Forbidden(cs, tuning.cannotLink, scored[k]) {
        edges := edges + [scored[k]];
      }
    }
    assert scored[..|scored|] == scored;
    ghost var kept := edges;
    for k := 0 to |tuning.mustLink|
      invariant edges == ForcedAll(kept, cs, tuning.mustLink[..k])
    {
      assert tuning.mustLink[..k + 1][..k] == tuning.mustLink[..k];
      var p := MustPair(cs, tuning.mustLink[k]);
      if p.Some? {
        edges := Force(edges, p.value);
      }
    }
    assert tuning.mustLink[..|tuning.mustLink|] == tuning.mustLink;
  }

  lemma {:induction false} RetainedAll(es: seq<Edge>, cs: seq<Cluster>)
    requires InRange(es, |cs|)
    ensures Retained(es, cs, {}) == es
  {
    if es != [] {
      assert es == es[..|es| - 1] + [es[|es| - 1]];
      RetainedAll(es[..|es| - 1], cs);
    }
  }

  lemma {:induction false} RetainedMeaning(es: seq<Edge>, cs: seq<Cluster>, cannot: set<(Uuid, Uuid)>)
    requires InRange(es, |cs|) && UniquePairs(es)
    ensures UniquePairs(Retained(es, cs, cannot))
    ensures forall e :: e in Retained(es, cs, cannot) <==> e in es && !Forbidden(cs, cannot, e)
  {
    if es != [] {
      var front, last := es[..|es| - 1], es[|es| - 1];
      assert es == front + [last];
      RetainedMeaning(front, cs, cannot);
      OtherPair(Retained(front, cs, cannot), front, last);
    }
  }

  lemma OtherPair(r: seq<Edge>, front: seq<Edge>, last: Edge)
    requires UniquePairs(front + [last]) && forall e | e in r :: e in front
    ensures forall i | 0 <= i < |r| :: r[i].a != last.a || r[i].b != last.b
  {
    forall i | 0 <= i < |r| ensures r[i].a != last.a || r[i].b != last.b {
      assert r[i] in r;
      var k :| 0 <= k < |front| && front[k] == r[i];
      assert (front + [last])[k] == r[i] && (front + [last])[|front|] == last;
    }
  }

  ghost predicate MustLinked(cs: seq<Cluster>, ms: seq<(Uuid, Uuid)>, a: nat, b: nat) {
    exists m | m in ms :: MustPair(cs, m) == Some((a, b))
  }

  lemma {:induction false} ForcedMeaning(es: seq<Edge>, cs: seq<Cluster>, ms: seq<(Uuid, Uuid)>)
    requires InRange(es, |cs|) && UniquePairs(es)
    ensures UniquePairs(ForcedAll(es, cs, ms))
    ensures forall e :: e in ForcedAll(es, cs, ms) <==>
      if MustLinked(cs, ms, e.a, e.b) then e == Forced((e.a, e.b)) else e in es
  {
    if ms != [] {
      var front, last := ms[..|ms| - 1], ms[|ms| - 1];
      assert ms == front + [last];
      ForcedMeaning(es, cs, front);
      var p := MustPair(cs, last);
      forall a: nat, b: nat ensures MustLinked(cs, ms, a, b) <==> MustLinked(cs, front, a, b) || p == Some((a, b)) {
        if p == Some((a, b)) { assert last in ms; }
      }
      if p.Some? {
        ForceUnique(ForcedAll(es, cs, front), p.value);
      }
    }
  }

  /**
   * The constrained edges: a must-linked pair carries exactly the forced strong edge, even over a cannot-link;
   * any other pair keeps its scored edge unless a cannot-link names it.
   */
  lemma ConstrainedMeaning(es: seq<Edge>, cs: seq<Cluster>, tuning: Tuning, e: Edge)
    requires InRange(es, |cs|) && UniquePairs(es)
    ensures UniquePairs(Constrained(es, cs, tuning))
    ensures e in Constrained(es, cs, tuning) <==>
      if MustLinked(cs, tuning.mustLink, e.a, e.b) then e == Forced((e.a, e.b))
      else e in es && !Forbidden(cs, tuning.cannotLink, e)
  {
    RetainedMeaning(es, cs, tuning.cannotLink);
    ForcedMeaning(Retained(es, cs, tuning.cannotLink), cs, tuning.mustLink);
  }

  // ── The guard ──

  /** The delivered stories carried by the class labelled `c`. */
  function ClassStories(lab: seq<nat>, own: seq<set<Uuid>>, c: nat): (r: set<Uuid>)
    requires |lab| == |own|
  {
    set i: nat, s: Uuid | i < |lab| && lab[i] == c && s in own[i] :: s
  }

  /** A weak edge may not merge two classes whose delivered stories are nonempty and disjoint. */
  predicate Blocked(lab: seq<nat>, own: seq<set<Uuid>>, a: nat, b: nat)
    requires |lab| == |own| && a < |lab| && b < |lab|
  {
    && lab[a] != lab[b]
    && ClassStories(lab, own, lab[a]) != {} && ClassStories(lab, own, lab[b]) != {}
    && ClassStories(lab, own, lab[a]) !! ClassStories(lab, own, lab[b])
  }

  lemma JoinStories(lab: seq<nat>, own: seq<set<Uuid>>, x: nat, y: nat, i: nat)
    requires |lab| == |own| && Canonical(lab) && x < |lab| && y < |lab| && i < |lab|
    ensures var r := Join(lab, x, y);
      ClassStories(r, own, r[i]) == if lab[i] == lab[x] || lab[i] == lab[y]
                                    then ClassStories(lab, own, lab[x]) + ClassStories(lab, own, lab[y])
                                    else ClassStories(lab, own, lab[i])
  {
    JoinMerges(lab, x, y);
    var r := Join(lab, x, y);
    var whole := ClassStories(lab, own, lab[x]) + ClassStories(lab, own, lab[y]);
    if lab[i] == lab[x] || lab[i] == lab[y] {
      forall s ensures s in ClassStories(r, own, r[i]) <==> s in whole {
        if s in ClassStories(r, own, r[i]) {
          var j: nat :| j < |lab| && r[j] == r[i] && s in own[j];
        }
        if s in whole {
          var j: nat :| j < |lab| && (lab[j] == lab[x] || lab[j] == lab[y]) && s in own[j];
          assert r[j] == r[i];
        }
      }
    } else {
      forall j | 0 <= j < |lab| ensures r[j] == r[i] <==> lab[j] == lab[i] {}
    }
  }

  /** Every root holds the delivered stories of its class. */
  ghost predicate Carries(parent: seq<nat>, delivered: seq<set<Uuid>>, own: seq<set<Uuid>>, lab: seq<nat>) {
    && |parent| == |delivered| == |own| == |lab|
    && forall r | 0 <= r < |lab| && parent[r] == r :: delivered[r] == ClassStories(lab, own, lab[r])
  }

  lemma HalvedLabels(parent: seq<nat>, q: seq<nat>, rank: seq<nat>, delivered: seq<set<Uuid>>, own: seq<set<Uuid>>, lab: seq<nat>)
    requires SameRoots(parent, q, rank) && Labelled(parent, rank, lab) && Carries(parent, delivered, own, lab)
    ensures Labelled(q, rank, lab) && Carries(q, delivered, own, lab)
  {
    forall r | 0 <= r < |lab| && q[r] == r ensures delivered[r] == ClassStories(lab, own, lab[r]) {
      assert Root(parent, rank, r) == Root(q, rank, r) == r;
    }
  }

  lemma {:induction false} RootClass(parent: seq<nat>, rank: seq<nat>, delivered: seq<set<Uuid>>, own: seq<set<Uuid>>, lab: seq<nat>, x: nat)
    requires Labelled(parent, rank, lab) && Carries(parent, delivered, own, lab) && x < |lab|
    ensures var r := Root(parent, rank, x);
      lab[r] == lab[x] && delivered[r] == ClassStories(lab, own, lab[x])
  {
    var r := Root(parent, rank, x);
    assert Root(parent, rank, r) == r;
  }

  /** What linking the root `lo` under `hi` leaves, with the absorbed stories moved over. */
  function Pooled(delivered: seq<set<Uuid>>, lo: nat, hi: nat): seq<set<Uuid>>
    requires lo < |delivered| && hi < |delivered|
  {
    delivered[hi := delivered[hi] + delivered[lo]][lo := {}]
  }

  lemma LinkCarries(parent: seq<nat>, delivered: seq<set<Uuid>>, own: seq<set<Uuid>>, lab: seq<nat>,
                    x: nat, y: nat, lo: nat, hi: nat)
    requires Carries(parent, delivered, own, lab) && Canonical(lab) && x < |lab| && y < |lab| && lo < |lab| && hi < |lab|
    requires parent[lo] == lo && parent[hi] == hi && lo != hi && SamePair(lab[lo], lab[hi], lab[x], lab[y])
    requires forall r | 0 <= r < |lab| && parent[r] == r && r != lo && r != hi :: lab[r] != lab[x] && lab[r] != lab[y]
    ensures Carries(LinkedParent(parent, lo, hi), Pooled(delivered, lo, hi), own, Join(lab, x, y))
  {
    var p, d, joined := LinkedParent(parent, lo, hi), Pooled(delivered, lo, hi), Join(lab, x, y);
    forall r | 0 <= r < |lab| && p[r] == r ensures d[r] == ClassStories(joined, own, joined[r]) {
      JoinStories(lab, own, x, y, r);
    }
  }

  /** Merging the classes of `x` and `y` by linking their roots. */
  lemma LinkStep(parent: seq<nat>, rank: seq<nat>, delivered: seq<set<Uuid>>, own: seq<set<Uuid>>, lab: seq<nat>,
                 x: nat, y: nat, lo: nat, hi: nat)
    requires Balanced(parent, rank) && Labelled(parent, rank, lab) && Carries(parent, delivered, own, lab)
    requires x < |lab| && y < |lab| && Linkable(parent, rank, lo, hi) && SamePair(lab[lo], lab[hi], lab[x], lab[y])
    ensures Balanced(LinkedParent(parent, lo, hi), LinkedRank(rank, lo, hi))
    ensures Labelled(LinkedParent(parent, lo, hi), LinkedRank(rank, lo, hi), Join(lab, x, y))
    ensures Carries(LinkedParent(parent, lo, hi), Pooled(delivered, lo, hi), own, Join(lab, x, y))
  {
    LinkJoins(parent, rank, lab, x, y, lo, hi);
    OtherRoots(parent, rank, lab, x, y, lo, hi);
    LinkCarries(parent, delivered, own, lab, x, y, lo, hi);
  }

  /** Union by rank: the lower-ranked root goes under the other, which takes over its delivered stories. */
  method LinkRoots(parent0: seq<nat>, rank0: seq<nat>, delivered0: seq<set<Uuid>>, ghost own: seq<set<Uuid>>, ghost lab: seq<nat>,
                   ghost x: nat, ghost y: nat, rx0: nat, ry0: nat)
    returns (parent: seq<nat>, rank: seq<nat>, delivered: seq<set<Uuid>>)
    requires Balanced(parent0, rank0) && Labelled(parent0, rank0, lab) && Carries(parent0, delivered0, own, lab)
    requires x < |lab| && y < |lab| && rx0 < |lab| && ry0 < |lab| && rx0 != ry0
    requires parent0[rx0] == rx0 && parent0[ry0] == ry0 && lab[rx0] == lab[x] && lab[ry0] == lab[y]
    ensures Balanced(parent, rank) && Labelled(parent, rank, Join(lab, x, y)) && Carries(parent, delivered, own, Join(lab, x, y))
  {
    var rx, ry := rx0, ry0;
    if rank0[rx] < rank0[ry] {
      rx, ry := ry, rx;
    }
    LinkStep(parent0, rank0, delivered0, own, lab, x, y, ry, rx);
    parent, rank := parent0[ry := rx], rank0;
    if rank[rx] == rank[ry] {
      rank := rank[rx := rank[rx] + 1];
    }
    delivered := delivered0[rx := delivered0[rx] + delivered0[ry]][ry := {}];
    assert parent == LinkedParent(parent0, ry, rx) && rank == LinkedRank(rank0, ry, rx);
    assert delivered == Pooled(delivered0, ry, rx);
  }

  /** Disjoint sets over cluster indices, each root carrying the delivered stories of its class. */
  class UnionFind {
    var parent: seq<nat>
    var rank: seq<nat>
    var delivered: seq<set<Uuid>>
    ghost var own: seq<set<Uuid>>
    ghost var lab: seq<nat>

    ghost predicate Valid()
      reads this
    {
      Balanced(parent, rank) && Labelled(parent, rank, lab) && Carries(parent, delivered, own, lab)
    }

    constructor (stories: seq<set<Uuid>>)
      ensures Valid() && fresh(this)
      ensures own == stories && lab == Singletons(|stories|)
    {
      parent := seq(|stories|, i => i);
      rank := seq(|stories|, _ => 0);
      delivered := stories;
      own := stories;
      lab := Singletons(|stories|);
      new;
      SingletonsBalanced(|stories|);
      forall r | 0 <= r < |lab| ensures delivered[r] == ClassStories(lab, own, lab[r]) {}
    }

    /** Path-halving lookup: the root, reached in at most log2(n) steps, with the partition untouched. */
    method Find(x0: nat) returns (x: nat, ghost steps: nat)
      requires Valid() && x0 < |lab|
      modifies this`parent
      ensures Valid() && |parent| == old(|parent|)
      ensures forall r | 0 <= r < |parent| && old(parent)[r] == r :: parent[r] == r
      ensures x < |lab| && parent[x] == x && lab[x] == lab[x0]
      ensures Pow2(steps) <= |lab|
    {
      ghost var was := parent;
      parent, x, steps := HalvingFind(parent, rank, x0);
      HalvedLabels(was, parent, rank, delivered, own, lab);
      RootClass(parent, rank, delivered, own, lab, x0);
      forall r | 0 <= r < |parent| && was[r] == r ensures parent[r] == r {
        assert Root(was, rank, r) == Root(parent, rank, r);
      }
    }

    /** Merges the classes of `x` and `y`, pooling their delivered stories at the surviving root. */
    method Union(x: nat, y: nat)
      requires Valid() && x < |lab| && y < |lab|
      modifies this
      ensures Valid() && own == old(own) && lab == Join(old(lab), x, y)
    {
      var rx, _ := Find(x);
      var ry, _ := Find(y);
      if rx == ry {
        JoinSame(lab, x, y);
        return;
      }
      parent, rank, delivered := LinkRoots(parent, rank, delivered, own, lab, x, y, rx, ry);
      lab := Join(lab, x, y);
    }

    /** Whether a weak edge between `a` and `b` would merge two different delivered stories. */
    method MergesDistinctDelivered(a: nat, b: nat) returns (blocked: bool)
      requires Valid() && a < |lab| && b < |lab|
      modifies this`parent
      ensures Valid() && blocked == Blocked(lab, own, a, b)
    {
      var ra, _ := Find(a);
      var rb, _ := Find(b);
      SameClassSameRoot(parent, rank, lab, ra, rb);
      if ra == rb {
        return false;
      }
      return delivered[ra] != {} && delivered[rb] != {} && delivered[ra] !! delivered[rb];
    }
  }

  // ── The prior assignment ──

  /** The story each cluster belonged to; a later row overrides an earlier one. */
  function PriorStory(prior: seq<PriorMember>): map<Uuid, Uuid> {
    if prior == [] then map[]
    else
      var last := prior[|prior| - 1];
      PriorStory(prior[..|prior| - 1])[last.clusterId := last.storyId]
  }

  function DeliveredStories(prior: seq<PriorMember>): set<Uuid> {
    set p | p in prior && p.delivered :: p.storyId
  }

  /** The delivered prior story a cluster belongs to, as a set of at most one. */
  function OwnStory(c: Cluster, prior: map<Uuid, Uuid>, delivered: set<Uuid>): set<Uuid> {
    if c.id in prior && prior[c.id] in delivered then {prior[c.id]} else {}
  }

  function OwnStories(cs: seq<Cluster>, prior: map<Uuid, Uuid>, delivered: set<Uuid>): (own: seq<set<Uuid>>)
    ensures |own| == |cs|
  {
    seq(|cs|, i requires 0 <= i < |cs| => OwnStory(cs[i], prior, delivered))
  }

  // ── Two passes: strong edges merge anything, weak edges respect the guard ──

  function StrongPairs(es: seq<Edge>): (r: seq<(nat, nat)>)
    ensures forall p :: p in r <==> exists e | e in es :: e.strong && p == (e.a, e.b)
  {
    if es == [] then []
    else
      var e := es[|es| - 1];
      assert es == es[..|es| - 1] + [e];
      StrongPairs(es[..|es| - 1]) + if e.strong then [(e.a, e.b)] else []
  }

  function WeakOnly(es: seq<Edge>): (r: seq<Edge>)
    ensures forall e :: e in r <==> e in es && !e.strong
  {
    if es == [] then []
    else
      assert es == [es[0]] + es[1..];
      (if es[0].strong then [] else [es[0]]) + WeakOnly(es[1..])
  }

  /** Higher score first, then ascending endpoints. */
  predicate StrongerFirst(x: Edge, y: Edge) {
    x.score > y.score || (x.score == y.score && (x.a < y.a || (x.a == y.a && x.b <= y.b)))
  }

  function WeakOrder(es: seq<Edge>): seq<Edge> {
    Sort(StrongerFirst, WeakOnly(es))
  }

  ghost function StrongLabels(n: nat, es: seq<Edge>): (lab: seq<nat>)
    requires InRange(es, n)
    ensures |lab| == n
  {
    Labels(n, StrongPairs(es))
  }

  /** Joins each weak edge in turn unless the guard blocks it at that moment. */
  ghost function GuardedPass(lab: seq<nat>, own: seq<set<Uuid>>, weak: seq<Edge>): (r: seq<nat>)
    requires |lab| == |own| && InRange(weak, |lab|)
    ensures |r| == |lab|
    decreases |weak|
  {
    if weak == [] then lab
    else
      var e := weak[0];
      GuardedPass(if Blocked(lab, own, e.a, e.b) then lab else Join(lab, e.a, e.b), own, weak[1..])
  }

  lemma WeakInRange(es: seq<Edge>, n: nat)
    requires InRange(es, n)
    ensures InRange(WeakOrder(es), n)
    ensures forall e :: e in WeakOrder(es) <==> e in es && !e.strong
  {
    SortMembers(StrongerFirst, WeakOnly(es));
  }

  /** The partition into stories. */
  ghost function FinalLabels(own: seq<set<Uuid>>, es: seq<Edge>): (lab: seq<nat>)
    requires InRange(es, |own|)
    ensures |lab| == |own|
  {
    WeakInRange(es, |own|);
    GuardedPass(StrongLabels(|own|, es), own, WeakOrder(es))
  }

  /** The indices below `k` with label `c`, ascending. */
  ghost function Members(lab: seq<nat>, c: nat, k: nat): (ms: seq<nat>)
    requires k <= |lab|
    ensures forall i: nat :: i in ms <==> i < k && lab[i] == c
  {
    if k == 0 then [] else Members(lab, c, k - 1) + if lab[k - 1] == c then [k - 1] else []
  }

  /** The first `k` indices grouped by class, each group filed under one of its members. */
  ghost predicate Groups(comps: map<nat, seq<nat>>, roots: seq<nat>, lab: seq<nat>, k: nat)
    requires |roots| == |lab| && k <= |lab|
  {
    && (forall i | 0 <= i < k :: roots[i] in comps)
    && (forall r | r in comps :: r < |lab| && roots[r] == r && comps[r] != [] && comps[r] == Members(lab, lab[r], k))
  }

  /** Roots pick one member per class. */
  ghost predicate ClassRoots(roots: seq<nat>, lab: seq<nat>) {
    && |roots| == |lab|
    && (forall i {:trigger roots[i]} | 0 <= i < |lab| :: roots[i] < |lab| && lab[roots[i]] == lab[i])
    && (forall i, j {:trigger roots[i], roots[j]} | 0 <= i < |lab| && 0 <= j < |lab| && lab[i] == lab[j] :: roots[i] == roots[j])
  }

  /** One group per class: its members in ascending order, filed under one of them. */
  ghost predicate OneGroupPerClass(comps: map<nat, seq<nat>>, lab: seq<nat>) {
    && (forall r | r in comps :: r < |lab| && comps[r] == Members(lab, lab[r], |lab|))
    && (forall i: nat | i < |lab| :: HasGroup(comps, lab, i))
    && (forall r, s | r in comps && s in comps && lab[r] == lab[s] :: r == s)
  }

  ghost predicate HasGroup(comps: map<nat, seq<nat>>, lab: seq<nat>, i: nat) {
    exists r | r in comps :: i in comps[r]
  }

  lemma GroupsCoverClasses(comps: map<nat, seq<nat>>, roots: seq<nat>, lab: seq<nat>)
    requires ClassRoots(roots, lab) && Groups(comps, roots, lab, |lab|)
    ensures OneGroupPerClass(comps, lab)
  {
    forall i: nat | i < |lab| ensures HasGroup(comps, lab, i) {
      var r := roots[i];
      assert r in comps && lab[r] == lab[i];
      assert i in comps[r];
    }
    forall r, s | r in comps && s in comps && lab[r] == lab[s] ensures r == s {
      assert r < |lab| && s < |lab| && roots[r] == r && roots[s] == s;
      assert roots[r] == roots[s];
    }
  }

  method StrongPass(uf: UnionFind, es: seq<Edge>)
    requires uf.Valid() && InRange(es, |uf.lab|) && uf.lab == Singletons(|uf.lab|)
    modifies uf
    ensures uf.Valid() && uf.own == old(uf.own) && uf.lab == StrongLabels(|old(uf.lab)|, es)
  {
    ghost var n := |uf.lab|;
    for k := 0 to |es|
      invariant uf.Valid() && uf.own == old(uf.own)
      invariant uf.lab == StrongLabels(n, es[..k])
    {
      StrongPairsNext(es, k);
      assert es[k] in es;
      if es[k].strong {
        LabelsNext(n, StrongPairs(es[..k]), (es[k].a, es[k].b));
        uf.Union(es[k].a, es[k].b);
      } else {
        assert StrongPairs(es[..k + 1]) == StrongPairs(es[..k]);
      }
    }
    assert es[..|es|] == es;
  }

  method WeakPass(uf: UnionFind, weak: seq<Edge>)
    requires uf.Valid() && InRange(weak, |uf.lab|)
    modifies uf
    ensures uf.Valid() && uf.own == old(uf.own) && uf.lab == GuardedPass(old(uf.lab), old(uf.own), weak)
  {
    ghost var own, goal := uf.own, GuardedPass(uf.lab, uf.own, weak);
    for k := 0 to |weak|
      invariant uf.Valid() && uf.own == own && |uf.lab| == |own|
      invariant GuardedPass(uf.lab, own, weak[k..]) == goal
    {
      assert weak[k] in weak;
      assert weak[k..][1..] == weak[k + 1..];
      var blocked := uf.MergesDistinctDelivered(weak[k].a, weak[k].b);
      if !blocked {
        uf.Union(weak[k].a, weak[k].b);
      }
    }
  }

  method Components(cs: seq<Cluster>, es: seq<Edge>, prior: seq<PriorMember>)
    returns (comps: map<nat, seq<nat>>, ghost roots: seq<nat>, ghost lab: seq<nat>)
    requires InRange(es, |cs|)
    ensures lab == FinalLabels(OwnStories(cs, PriorStory(prior), DeliveredStories(prior)), es)
    ensures ClassRoots(roots, lab) && Groups(comps, roots, lab, |lab|)
    ensures OneGroupPerClass(comps, FinalLabels(OwnStories(cs, PriorStory(prior), DeliveredStories(prior)), es))
  {
    var uf := new UnionFind(OwnStories(cs, PriorStory(prior), DeliveredStories(prior)));
    StrongPass(uf, es);
    WeakInRange(es, |cs|);
    WeakPass(uf, WeakOrder(es));
    lab := uf.lab;
    comps, roots := GroupByRoot(uf);
    GroupsCoverClasses(comps, roots, lab);
  }

  lemma {:induction false} LabelsNext(n: nat, ps: seq<(nat, nat)>, p: (nat, nat))
    requires p.0 < n && p.1 < n && forall q | q in ps :: q.0 < n && q.1 < n
    ensures Labels(n, ps + [p]) == Join(Labels(n, ps), p.0, p.1)
  {
    assert (ps + [p])[..|ps + [p]| - 1] == ps;
  }

  lemma StrongPairsNext(es: seq<Edge>, k: nat)
    requires k < |es|
    ensures StrongPairs(es[..k + 1]) == StrongPairs(es[..k]) + if es[k].strong then [(es[k].a, es[k].b)] else []
  {
    assert es[..k + 1][..k] == es[..k];
  }

  lemma RootsOfClasses(parent: seq<nat>, rank: seq<nat>, lab: seq<nat>) returns (roots: seq<nat>)
    requires Labelled(parent, rank, lab)
    ensures ClassRoots(roots, lab)
    ensures forall i {:trigger roots[i]} | 0 <= i < |lab| :: parent[roots[i]] == roots[i]
  {
    roots := seq(|lab|, i requires 0 <= i < |lab| => Root(parent, rank, i));
    forall i | 0 <= i < |lab| ensures roots[i] < |lab| && lab[roots[i]] == lab[i] {
      assert Root(parent, rank, roots[i]) == roots[i];
    }
  }

  method GroupByRoot(uf: UnionFind) returns (comps: map<nat, seq<nat>>, ghost roots: seq<nat>)
    requires uf.Valid()
    modifies uf`parent
    ensures uf.Valid() && ClassRoots(roots, uf.lab) && Groups(comps, roots, uf.lab, |uf.lab|)
  {
    comps := map[];
    ghost var lab, was, rank := uf.lab, uf.parent, uf.rank;
    roots := RootsOfClasses(was, rank, lab);
    for i := 0 to |uf.parent|
      invariant uf.Valid() && |uf.parent| == |lab| && uf.lab == lab
      invariant forall r | 0 <= r < |lab| && was[r] == r :: uf.parent[r] == r
      invariant Groups(comps, roots, lab, i)
    {
      var r, _ := uf.Find(i);
      assert r == roots[i] by {
        assert was[roots[i]] == roots[i];
        SameClassSameRoot(uf.parent, uf.rank, lab, r, roots[i]);
      }
      GroupsNext(comps, roots, lab, i);
      comps := comps[r := (if r in comps then comps[r] else []) + [i]];
    }
  }

  lemma {:induction false} NoGroupYet(comps: map<nat, seq<nat>>, roots: seq<nat>, lab: seq<nat>, i: nat)
    requires ClassRoots(roots, lab) && i < |lab| && Groups(comps, roots, lab, i) && roots[i] !in comps
    ensures Members(lab, lab[i], i) == []
  {
    forall j: nat | j < i ensures lab[j] != lab[i] {
      assert roots[j] in comps;
    }
    NoMembers(lab, lab[i], i);
  }

  lemma {:induction false} NoMembers(lab: seq<nat>, c: nat, k: nat)
    requires k <= |lab| && forall j: nat | j < k :: lab[j] != c
    ensures Members(lab, c, k) == []
  {
    if k > 0 {
      NoMembers(lab, c, k - 1);
    }
  }

  lemma {:induction false} OtherGroup(comps: map<nat, seq<nat>>, roots: seq<nat>, lab: seq<nat>, i: nat, s: nat)
    requires ClassRoots(roots, lab) && i < |lab| && Groups(comps, roots, lab, i) && s in comps && s != roots[i]
    ensures comps[s] == Members(lab, lab[s], i + 1)
  {
    assert roots[s] == s;
    assert lab[s] != lab[i];
  }

  lemma {:induction false} GrownGroup(comps: map<nat, seq<nat>>, roots: seq<nat>, lab: seq<nat>, i: nat)
    requires ClassRoots(roots, lab) && i < |lab| && Groups(comps, roots, lab, i)
    ensures (if roots[i] in comps then comps[roots[i]] else []) + [i] == Members(lab, lab[i], i + 1)
  {
    if roots[i] !in comps {
      NoGroupYet(comps, roots, lab, i);
    }
  }

  lemma {:induction false} GroupAt(comps: map<nat, seq<nat>>, next: map<nat, seq<nat>>, roots: seq<nat>, lab: seq<nat>, i: nat, s: nat)
    requires ClassRoots(roots, lab) && i < |lab| && Groups(comps, roots, lab, i) && s in next
    requires next == comps[roots[i] := (if roots[i] in comps then comps[roots[i]] else []) + [i]]
    ensures s < |lab| && roots[s] == s && next[s] != [] && next[s] == Members(lab, lab[s], i + 1)
  {
    if s == roots[i] {
      assert lab[s] == lab[i];
      GrownGroup(comps, roots, lab, i);
    } else {
      OtherGroup(comps, roots, lab, i, s);
    }
  }

  lemma GroupsNext(comps: map<nat, seq<nat>>, roots: seq<nat>, lab: seq<nat>, i: nat)
    requires ClassRoots(roots, lab) && i < |lab| && Groups(comps, roots, lab, i)
    ensures Groups(comps[roots[i] := (if roots[i] in comps then comps[roots[i]] else []) + [i]], roots, lab, i + 1)
  {
    var next := comps[roots[i] := (if roots[i] in comps then comps[roots[i]] else []) + [i]];
    GroupsGrow(comps, next, roots, lab, i);
    StillFiled(comps, next, roots, i);
  }

  lemma {:induction false} GroupsGrow(comps: map<nat, seq<nat>>, next: map<nat, seq<nat>>, roots: seq<nat>, lab: seq<nat>, i: nat)
    requires ClassRoots(roots, lab) && i < |lab| && Groups(comps, roots, lab, i)
    requires next == comps[roots[i] := (if roots[i] in comps then comps[roots[i]] else []) + [i]]
    ensures forall s | s in next :: s < |lab| && roots[s] == s && next[s] != [] && next[s] == Members(lab, lab[s], i + 1)
  {
    forall s | s in next ensures s < |lab| && roots[s] == s && next[s] != [] && next[s] == Members(lab, lab[s], i + 1) {
      GroupAt(comps, next, roots, lab, i, s);
    }
  }

  lemma StillFiled(comps: map<nat, seq<nat>>, next: map<nat, seq<nat>>, roots: seq<nat>, i: nat)
    requires i < |roots| && (forall j | 0 <= j < i :: roots[j] in comps) && forall r :: r in next <==> r in comps || r == roots[i]
    ensures forall j | 0 <= j < i + 1 :: roots[j] in next
  {
  }
}
