/** What the two guarded passes guarantee about stories, whatever the order of the edges. */
module LinkComponentsLaws {
  import opened Connectivity
  import opened LinkModel
  import opened LinkComponents

  // ── The passes only merge, and only along edges that end up inside a story ──

  lemma {:induction false} PassCoarsens(lab: seq<nat>, own: seq<set<Uuid>>, weak: seq<Edge>)
    requires |lab| == |own| && InRange(weak, |lab|) && Canonical(lab)
    ensures Canonical(GuardedPass(lab, own, weak)) && Refines(lab, GuardedPass(lab, own, weak))
    decreases |weak|
  {
    if weak != [] {
      var e := weak[0];
      assert e in weak;
      JoinMerges(lab, e.a, e.b);
      PassCoarsens(if Blocked(lab, own, e.a, e.b) then lab else Join(lab, e.a, e.b), own, weak[1..]);
    }
  }

  /** The pass yields the finest partition that keeps the start together and closes the edges it realises. */
  lemma {:induction false} PassFinest(lab: seq<nat>, own: seq<set<Uuid>>, weak: seq<Edge>, f: seq<nat>)
    requires |lab| == |own| && InRange(weak, |lab|) && Canonical(lab) && Refines(lab, f)
    requires var r := GuardedPass(lab, own, weak);
      forall e | e in weak && r[e.a] == r[e.b] :: f[e.a] == f[e.b]
    ensures Refines(GuardedPass(lab, own, weak), f)
    decreases |weak|
  {
    if weak != [] {
      var e := weak[0];
      assert e in weak;
      JoinMerges(lab, e.a, e.b);
      var next := if Blocked(lab, own, e.a, e.b) then lab else Join(lab, e.a, e.b);
      PassCoarsens(next, own, weak[1..]);
      PassFinest(next, own, weak[1..], f);
    }
  }

  lemma StrongCanonical(n: nat, es: seq<Edge>)
    requires InRange(es, n)
    ensures Canonical(StrongLabels(n, es))
    ensures forall e | e in es && e.strong :: StrongLabels(n, es)[e.a] == StrongLabels(n, es)[e.b]
  {
    LabelsCanonical(n, StrongPairs(es));
    forall e | e in es && e.strong ensures StrongLabels(n, es)[e.a] == StrongLabels(n, es)[e.b] {
      LabelsRespect(n, StrongPairs(es), (e.a, e.b));
    }
  }

  lemma FinalCoarsens(own: seq<set<Uuid>>, es: seq<Edge>)
    requires InRange(es, |own|)
    ensures Canonical(FinalLabels(own, es)) && Refines(StrongLabels(|own|, es), FinalLabels(own, es))
    ensures forall e | e in es && e.strong :: FinalLabels(own, es)[e.a] == FinalLabels(own, es)[e.b]
  {
    WeakInRange(es, |own|);
    StrongCanonical(|own|, es);
    PassCoarsens(StrongLabels(|own|, es), own, WeakOrder(es));
  }

  /** The edges whose two ends landed in one story. */
  ghost function Realised(es: seq<Edge>, lab: seq<nat>): set<(nat, nat)>
    requires InRange(es, |lab|)
  {
    set e | e in es && lab[e.a] == lab[e.b] :: (e.a, e.b)
  }

  ghost function RealisedPairs(es: seq<Edge>, lab: seq<nat>): (ps: seq<(nat, nat)>)
    requires InRange(es, |lab|)
    ensures forall p :: p in ps <==> p in Realised(es, lab)
  {
    if es == [] then []
    else
      assert es == [es[0]] + es[1..];
      (if lab[es[0].a] == lab[es[0].b] then [(es[0].a, es[0].b)] else []) + RealisedPairs(es[1..], lab)
  }

  lemma FinalFinest(own: seq<set<Uuid>>, es: seq<Edge>, f: seq<nat>)
    requires InRange(es, |own|) && |f| == |own|
    requires forall e | e in es && FinalLabels(own, es)[e.a] == FinalLabels(own, es)[e.b] :: f[e.a] == f[e.b]
    ensures Refines(FinalLabels(own, es), f)
  {
    WeakInRange(es, |own|);
    FinalCoarsens(own, es);
    StrongCanonical(|own|, es);
    LabelsFinest(|own|, StrongPairs(es), f);
    PassFinest(StrongLabels(|own|, es), own, WeakOrder(es), f);
  }

  /** Two clusters share a story exactly when a path of edges inside that story joins them. */
  lemma StoriesAreConnected(own: seq<set<Uuid>>, es: seq<Edge>, u: nat, v: nat)
    requires InRange(es, |own|) && u < |own| && v < |own|
    ensures FinalLabels(own, es)[u] == FinalLabels(own, es)[v]
       <==> Connected(Realised(es, FinalLabels(own, es)), u, v)
  {
    var lab := FinalLabels(own, es);
    var ps := RealisedPairs(es, lab);
    assert EdgeSet(ps) == Realised(es, lab);
    var f := Labels(|own|, ps);
    forall e | e in es && lab[e.a] == lab[e.b] ensures f[e.a] == f[e.b] {
      LabelsRespect(|own|, ps, (e.a, e.b));
    }
    FinalFinest(own, es, f);
    LabelsConnect(|own|, ps, u, v);
    LabelsFinest(|own|, ps, lab);
  }

  // ── Separation of delivered stories ──

  lemma ClassStoriesGrow(fine: seq<nat>, coarse: seq<nat>, own: seq<set<Uuid>>, i: nat)
    requires |fine| == |own| && Refines(fine, coarse) && i < |own|
    ensures ClassStories(fine, own, fine[i]) <= ClassStories(coarse, own, coarse[i])
  {
    forall s | s in ClassStories(fine, own, fine[i]) ensures s in ClassStories(coarse, own, coarse[i]) {
      var j: nat :| j < |fine| && fine[j] == fine[i] && s in own[j];
      assert coarse[j] == coarse[i];
    }
  }

  /** Two delivered stories are tied when one strong component holds clusters of both. */
  ghost function StrongTies(own: seq<set<Uuid>>, es: seq<Edge>): set<(Uuid, Uuid)>
    requires InRange(es, |own|)
  {
    var strong := StrongLabels(|own|, es);
    set i: nat, s, t | i < |own| && s in ClassStories(strong, own, strong[i]) && t in ClassStories(strong, own, strong[i]) :: (s, t)
  }

  /** Within each class, all delivered stories are linked by chains of `ties`. */
  ghost predicate Tied(lab: seq<nat>, own: seq<set<Uuid>>, ties: set<(Uuid, Uuid)>)
    requires |lab| == |own|
  {
    forall i, s, t | 0 <= i < |lab| && s in ClassStories(lab, own, lab[i]) && t in ClassStories(lab, own, lab[i]) ::
      Connected(ties, s, t)
  }

  lemma JoinTied(lab: seq<nat>, own: seq<set<Uuid>>, ties: set<(Uuid, Uuid)>, a: nat, b: nat)
    requires |lab| == |own| && Canonical(lab) && a < |lab| && b < |lab| && Tied(lab, own, ties)
    requires !Blocked(lab, own, a, b)
    ensures Tied(Join(lab, a, b), own, ties)
  {
    var r := Join(lab, a, b);
    var da, db := ClassStories(lab, own, lab[a]), ClassStories(lab, own, lab[b]);
    forall i, s, t | 0 <= i < |lab| && s in ClassStories(r, own, r[i]) && t in ClassStories(r, own, r[i])
      ensures Connected(ties, s, t)
    {
      JoinStories(lab, own, a, b, i);
      if (s in da && t in db && t !in da) || (s in db && t in da && s !in da) {
        var u :| u in da && u in db;
        ConnectedTransitive(ties, s, u, t);
      }
    }
  }

  lemma {:induction false} PassTied(lab: seq<nat>, own: seq<set<Uuid>>, weak: seq<Edge>, ties: set<(Uuid, Uuid)>)
    requires |lab| == |own| && InRange(weak, |lab|) && Canonical(lab) && Tied(lab, own, ties)
    ensures Tied(GuardedPass(lab, own, weak), own, ties)
    decreases |weak|
  {
    if weak != [] {
      var e := weak[0];
      assert e in weak;
      if !Blocked(lab, own, e.a, e.b) {
        JoinTied(lab, own, ties, e.a, e.b);
        JoinMerges(lab, e.a, e.b);
      }
      PassTied(if Blocked(lab, own, e.a, e.b) then lab else Join(lab, e.a, e.b), own, weak[1..], ties);
    }
  }

  /** Delivered stories share a final story only through a chain of strong components, each holding two of the chain. */
  lemma DeliveredSeparation(own: seq<set<Uuid>>, es: seq<Edge>, i: nat, s: Uuid, t: Uuid)
    requires InRange(es, |own|) && i < |own|
    requires var lab := FinalLabels(own, es); s in ClassStories(lab, own, lab[i]) && t in ClassStories(lab, own, lab[i])
    ensures Connected(StrongTies(own, es), s, t)
  {
    var strong, ties := StrongLabels(|own|, es), StrongTies(own, es);
    StrongCanonical(|own|, es);
    WeakInRange(es, |own|);
    forall j, x, y | 0 <= j < |own| && x in ClassStories(strong, own, strong[j]) && y in ClassStories(strong, own, strong[j])
      ensures Connected(ties, x, y)
    {
      ConnectedStep(ties, x, y);
    }
    PassTied(strong, own, WeakOrder(es), ties);
  }

  /** When no strong component holds two delivered stories, no final story does. */
  lemma NoStrongMergeNoMerge(own: seq<set<Uuid>>, es: seq<Edge>, i: nat, s: Uuid, t: Uuid)
    requires InRange(es, |own|) && i < |own|
    requires forall p | p in StrongTies(own, es) :: p.0 == p.1
    requires var lab := FinalLabels(own, es); s in ClassStories(lab, own, lab[i]) && t in ClassStories(lab, own, lab[i])
    ensures s == t
  {
    DeliveredSeparation(own, es, i, s, t);
    ConnectedCarries(StrongTies(own, es), w => w == s, s, t);
  }

  /** An edge the pass left crossing two classes was blocked at its turn. */
  lemma {:induction false} CrossingWasBlocked(lab: seq<nat>, own: seq<set<Uuid>>, weak: seq<Edge>, e: Edge) returns (at: seq<nat>)
    requires |lab| == |own| && InRange(weak, |lab|) && Canonical(lab) && e in weak
    requires GuardedPass(lab, own, weak)[e.a] != GuardedPass(lab, own, weak)[e.b]
    ensures Refines(at, GuardedPass(lab, own, weak)) && |at| == |own| && Blocked(at, own, e.a, e.b)
    decreases |weak|
  {
    var head := weak[0];
    assert head in weak;
    var blocked := Blocked(lab, own, head.a, head.b);
    var next := if blocked then lab else Join(lab, head.a, head.b);
    JoinMerges(lab, head.a, head.b);
    PassCoarsens(next, own, weak[1..]);
    if e == head && blocked {
      at := lab;
    } else {
      assert e != head;
      assert weak == [head] + weak[1..];
      at := CrossingWasBlocked(next, own, weak[1..], e);
    }
  }

  /** Every edge still crossing two final stories separates two different delivered stories. */
  lemma CrossingSeparatesDelivered(own: seq<set<Uuid>>, es: seq<Edge>, e: Edge) returns (s: Uuid, t: Uuid)
    requires InRange(es, |own|) && e in es
    requires FinalLabels(own, es)[e.a] != FinalLabels(own, es)[e.b]
    ensures !e.strong && s != t
    ensures var lab := FinalLabels(own, es); s in ClassStories(lab, own, lab[e.a]) && t in ClassStories(lab, own, lab[e.b])
  {
    FinalCoarsens(own, es);
    WeakInRange(es, |own|);
    StrongCanonical(|own|, es);
    var lab := FinalLabels(own, es);
    var at := CrossingWasBlocked(StrongLabels(|own|, es), own, WeakOrder(es), e);
    ClassStoriesGrow(at, lab, own, e.a);
    ClassStoriesGrow(at, lab, own, e.b);
    s :| s in ClassStories(at, own, at[e.a]);
    t :| t in ClassStories(at, own, at[e.b]);
  }

  /** With nothing delivered yet, stories are plain connected components of all edges. */
  lemma FirstLinkIsConnectivity(own: seq<set<Uuid>>, es: seq<Edge>, u: nat, v: nat)
    requires InRange(es, |own|) && u < |own| && v < |own| && forall i | 0 <= i < |own| :: own[i] == {}
    ensures FinalLabels(own, es)[u] == FinalLabels(own, es)[v]
       <==> Connected(set e | e in es :: (e.a, e.b), u, v)
  {
    var lab := FinalLabels(own, es);
    forall e | e in es ensures lab[e.a] == lab[e.b] {
      if lab[e.a] != lab[e.b] {
        var s, _ := CrossingSeparatesDelivered(own, es, e);
      }
    }
    assert Realised(es, lab) == set e | e in es :: (e.a, e.b);
    StoriesAreConnected(own, es, u, v);
  }

  // ── Relinking ──

  /** Delivered marks that are constant on each story and disjoint between stories. */
  ghost predicate MarksStories(lab: seq<nat>, own: seq<set<Uuid>>) {
    && |lab| == |own|
    && (forall i, j | 0 <= i < |lab| && 0 <= j < |lab| && lab[i] == lab[j] :: own[i] == own[j])
    && (forall i, j | 0 <= i < |lab| && 0 <= j < |lab| && lab[i] != lab[j] :: own[i] !! own[j])
  }

  lemma MarkedClass(fine: seq<nat>, lab: seq<nat>, own: seq<set<Uuid>>, i: nat)
    requires MarksStories(lab, own) && Refines(fine, lab) && i < |lab|
    ensures ClassStories(fine, own, fine[i]) == own[i]
  {
    forall s ensures s in ClassStories(fine, own, fine[i]) <==> s in own[i] {
      if s in ClassStories(fine, own, fine[i]) {
        var j: nat :| j < |fine| && fine[j] == fine[i] && s in own[j];
        assert lab[j] == lab[i];
      }
    }
  }

  /** While the partition stays within `lab`, the guard blocks exactly the fully delivered crossings. */
  lemma MarkedBlocked(fine: seq<nat>, lab: seq<nat>, own: seq<set<Uuid>>, a: nat, b: nat)
    requires MarksStories(lab, own) && Refines(fine, lab) && a < |lab| && b < |lab|
    ensures Blocked(fine, own, a, b) <==> lab[a] != lab[b] && own[a] != {} && own[b] != {}
  {
    MarkedClass(fine, lab, own, a);
    MarkedClass(fine, lab, own, b);
  }

  /** One guarded step stays within `lab`, and closes the edge unless it crosses two of its classes. */
  lemma StepWithin(fine: seq<nat>, lab: seq<nat>, own: seq<set<Uuid>>, e: Edge, next: seq<nat>)
    requires MarksStories(lab, own) && Refines(fine, lab) && Canonical(fine) && e.a < |lab| && e.b < |lab|
    requires lab[e.a] != lab[e.b] ==> own[e.a] != {} && own[e.b] != {}
    requires next == if Blocked(fine, own, e.a, e.b) then fine else Join(fine, e.a, e.b)
    ensures Refines(next, lab) && Canonical(next) && (lab[e.a] == lab[e.b] ==> next[e.a] == next[e.b])
  {
    MarkedBlocked(fine, lab, own, e.a, e.b);
    JoinMerges(fine, e.a, e.b);
  }

  lemma {:induction false} PassWithin(fine: seq<nat>, lab: seq<nat>, own: seq<set<Uuid>>, weak: seq<Edge>)
    requires MarksStories(lab, own) && Refines(fine, lab) && Canonical(fine) && InRange(weak, |lab|)
    requires forall e | e in weak && lab[e.a] != lab[e.b] :: own[e.a] != {} && own[e.b] != {}
    ensures Refines(GuardedPass(fine, own, weak), lab)
    ensures forall e | e in weak && lab[e.a] == lab[e.b] ::
      GuardedPass(fine, own, weak)[e.a] == GuardedPass(fine, own, weak)[e.b]
    decreases |weak|
  {
    if weak != [] {
      var e := weak[0];
      assert e in weak;
      var next := if Blocked(fine, own, e.a, e.b) then fine else Join(fine, e.a, e.b);
      StepWithin(fine, lab, own, e, next);
      PassWithin(next, lab, own, weak[1..]);
      PassCoarsens(next, own, weak[1..]);
      assert weak == [e] + weak[1..];
    }
  }

  /**
   * Relinking with marks that follow the stories reproduces the partition exactly when every edge left
   * crossing two stories has a delivered story on both sides.
   */
  lemma RelinkIff(own: seq<set<Uuid>>, marks: seq<set<Uuid>>, es: seq<Edge>)
    requires InRange(es, |own|) && MarksStories(FinalLabels(own, es), marks)
    ensures FinalLabels(marks, es) == FinalLabels(own, es) <==>
      var lab := FinalLabels(own, es);
      forall e | e in es && lab[e.a] != lab[e.b] :: marks[e.a] != {} && marks[e.b] != {}
  {
    var lab, again, strong := FinalLabels(own, es), FinalLabels(marks, es), StrongLabels(|own|, es);
    WeakInRange(es, |own|);
    StrongCanonical(|own|, es);
    FinalCoarsens(own, es);
    FinalCoarsens(marks, es);
    if forall e | e in es && lab[e.a] != lab[e.b] :: marks[e.a] != {} && marks[e.b] != {} {
      PassWithin(strong, lab, marks, WeakOrder(es));
      FinalFinest(own, es, again);
      CanonicalUnique(again, lab);
    }
    if again == lab {
      forall e | e in es && lab[e.a] != lab[e.b] ensures marks[e.a] != {} && marks[e.b] != {} {
        var at := CrossingWasBlocked(strong, marks, WeakOrder(es), e);
        MarkedBlocked(at, lab, marks, e.a, e.b);
      }
    }
  }
}
