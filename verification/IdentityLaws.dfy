/** What the resolution contract settles: one answer whatever the order, stable representatives, robust bands. */
module IdentityLaws {
  import opened Ordering
  import opened Connectivity
  import opened IdentityModel

  lemma {:induction false} StringLeReflexive(a: string)
    ensures StringLe(a, a)
  {
    StringOrder();
  }

  lemma {:induction false} StringLeAntisymmetric(a: string, b: string)
    requires StringLe(a, b) && StringLe(b, a)
    ensures a == b
  {
    StringOrder();
  }

  lemma RepUnique(tokens: set<string>, es: set<Edge>, prior: set<string>, x: string, y: string, r: string, s: string)
    requires IsRep(tokens, es, prior, x, r) && IsRep(tokens, es, prior, y, s) && Connected(Pairs(es), x, y)
    ensures r == s
  {
    ConnectedTransitive(Pairs(es), x, y, s);
    ConnectedSymmetric(Pairs(es), x, y);
    ConnectedTransitive(Pairs(es), y, x, r);
    assert Precedes(prior, r, s) && Precedes(prior, s, r);
    StringLeAntisymmetric(r, s);
  }

  /** Two tokens share a representative exactly when a path of eligible edges joins them. */
  lemma SameRepIffConnected(rep: map<string, string>, tokens: set<string>, es: set<Edge>, prior: set<string>, x: string, y: string)
    requires Represents(rep, tokens, es, prior) && x in tokens && y in tokens
    ensures rep[x] == rep[y] <==> Connected(Pairs(es), x, y)
  {
    assert IsRep(tokens, es, prior, x, rep[x]) && IsRep(tokens, es, prior, y, rep[y]);
    if rep[x] == rep[y] {
      ConnectedSymmetric(Pairs(es), y, rep[y]);
      ConnectedTransitive(Pairs(es), x, rep[x], y);
    }
    if Connected(Pairs(es), x, y) {
      RepUnique(tokens, es, prior, x, y, rep[x], rep[y]);
    }
  }

  lemma RepsUnique(rep: map<string, string>, other: map<string, string>, tokens: set<string>, es: set<Edge>, prior: set<string>)
    requires Represents(rep, tokens, es, prior) && Represents(other, tokens, es, prior)
    ensures rep == other
  {
    forall x | x in tokens ensures rep[x] == other[x] {
      ConnectedReflexive(Pairs(es), x);
      assert IsRep(tokens, es, prior, x, rep[x]) && IsRep(tokens, es, prior, x, other[x]);
      RepUnique(tokens, es, prior, x, x, rep[x], other[x]);
    }
  }

  lemma BandsUnique(r: Resolution, q: Resolution, tokens: set<string>, es: set<Edge>)
    requires r.rep == q.rep && r.rep.Keys == tokens && Banded(r, tokens, es) && Banded(q, tokens, es)
    ensures r == q
  {
    forall s | s in r.band ensures r.band[s] == q.band[s] {
      var x :| x in r.rep && r.rep[x] == s;
      assert r.band[r.rep[x]] == BandOf(tokens, es, x);
    }
  }

  /** The contract has one solution, so the order of nodes and edges cannot show in the result. */
  lemma ResolutionUnique(r: Resolution, q: Resolution, tokens: set<string>, es: set<Edge>, prior: set<string>)
    requires Resolves(r, tokens, es, prior) && Resolves(q, tokens, es, prior)
    ensures r == q
  {
    RepsUnique(r.rep, q.rep, tokens, es, prior);
    BandsUnique(r, q, tokens, es);
  }

  /** Reordering or repeating nodes and edges cannot change what a resolution answers. */
  lemma OrderIndependent(r: Resolution, q: Resolution, nodes: seq<string>, other: seq<string>, edges: seq<Edge>, shuffled: seq<Edge>,
                         vetoes: set<(string, string)>, theta: real, prior: set<string>)
    requires (forall n :: n in nodes <==> n in other) && forall e :: e in edges <==> e in shuffled
    requires Resolves(r, Tokens(nodes, EligibleSet(edges, vetoes, theta)), EligibleSet(edges, vetoes, theta), prior)
    requires Resolves(q, Tokens(other, EligibleSet(shuffled, vetoes, theta)), EligibleSet(shuffled, vetoes, theta), prior)
    ensures r == q
  {
    assert EligibleSet(edges, vetoes, theta) == EligibleSet(shuffled, vetoes, theta);
    assert Tokens(nodes, EligibleSet(edges, vetoes, theta)) == Tokens(other, EligibleSet(shuffled, vetoes, theta));
    ResolutionUnique(r, q, Tokens(nodes, EligibleSet(edges, vetoes, theta)), EligibleSet(edges, vetoes, theta), prior);
  }

  lemma RepOfRep(rep: map<string, string>, tokens: set<string>, es: set<Edge>, prior: set<string>, x: string)
    requires Represents(rep, tokens, es, prior) && x in tokens
    ensures rep[x] in tokens && rep[rep[x]] == rep[x]
  {
    assert IsRep(tokens, es, prior, x, rep[x]);
    ConnectedSymmetric(Pairs(es), x, rep[x]);
    SameRepIffConnected(rep, tokens, es, prior, rep[x], x);
  }

  /** A component holds one representative. */
  lemma OnlyOneRepInside(rep: map<string, string>, tokens: set<string>, es: set<Edge>, prior: set<string>, x: string, y: string)
    requires Represents(rep, tokens, es, prior) && x in tokens && y in tokens && Connected(Pairs(es), x, y)
    ensures y in Reps(rep) ==> y == rep[x]
  {
    if y in Reps(rep) {
      var z :| z in rep && rep[z] == y;
      RepOfRep(rep, tokens, es, prior, z);
      SameRepIffConnected(rep, tokens, es, prior, x, y);
    }
  }

  lemma RepPrecedesItsOwn(rep: map<string, string>, tokens: set<string>, es: set<Edge>, prior: set<string>, x: string, y: string)
    requires Represents(rep, tokens, es, prior) && x in tokens && y in tokens && Connected(Pairs(es), x, y)
    ensures Precedes(Reps(rep), rep[x], y)
  {
    OnlyOneRepInside(rep, tokens, es, prior, x, y);
    StringLeReflexive(y);
    assert rep[x] in Reps(rep);
  }

  /** Resolving again with the representatives just chosen as the prior ones changes nothing. */
  lemma ReresolveFixpoint(r: Resolution, q: Resolution, tokens: set<string>, es: set<Edge>, prior: set<string>)
    requires Resolves(r, tokens, es, prior) && Resolves(q, tokens, es, Reps(r.rep))
    ensures q == r
  {
    forall x | x in tokens ensures q.rep[x] == r.rep[x] {
      assert IsRep(tokens, es, prior, x, r.rep[x]) && IsRep(tokens, es, Reps(r.rep), x, q.rep[x]);
      ConnectedReflexive(Pairs(es), x);
      forall y | y in tokens && Connected(Pairs(es), x, y) ensures Precedes(Reps(r.rep), r.rep[x], y) {
        RepPrecedesItsOwn(r.rep, tokens, es, prior, x, y);
      }
      RepUnique(tokens, es, Reps(r.rep), x, x, r.rep[x], q.rep[x]);
    }
    BandsUnique(r, q, tokens, es);
  }

  /** No representative absorbed by the component of `x` is smaller than its own. */
  ghost predicate SmallestAbsorbed(rep: map<string, string>, tokens: set<string>, grown: set<Edge>, x: string)
    requires rep.Keys == tokens && x in tokens
  {
    forall y {:trigger rep[y]} | y in tokens && Connected(Pairs(grown), x, y) :: StringLe(rep[x], rep[y])
  }

  lemma RepReached(rep: map<string, string>, tokens: set<string>, es: set<Edge>, prior: set<string>, grown: set<Edge>, x: string, y: string)
    requires Represents(rep, tokens, es, prior) && es <= grown && x in tokens && y in tokens && Connected(Pairs(grown), x, y)
    ensures rep[y] in tokens && Connected(Pairs(grown), x, rep[y])
  {
    assert IsRep(tokens, es, prior, y, rep[y]);
    ConnectedMonotone(Pairs(es), Pairs(grown), y, rep[y]);
    ConnectedTransitive(Pairs(grown), x, y, rep[y]);
  }

  lemma KeptIsSmallest(rep: map<string, string>, tokens: set<string>, es: set<Edge>, prior: set<string>,
                       next: map<string, string>, more: set<string>, grown: set<Edge>, x: string)
    requires Represents(rep, tokens, es, prior) && Represents(next, more, grown, Reps(rep))
    requires tokens <= more && es <= grown && x in tokens && next[x] == rep[x]
    ensures SmallestAbsorbed(rep, tokens, grown, x)
  {
    forall y | y in tokens && Connected(Pairs(grown), x, y) ensures StringLe(rep[x], rep[y]) {
      RepReached(rep, tokens, es, prior, grown, x, y);
      assert IsRep(more, grown, Reps(rep), x, next[x]);
      assert Precedes(Reps(rep), next[x], rep[y]);
    }
  }

  lemma SmallestIsKept(rep: map<string, string>, tokens: set<string>, es: set<Edge>, prior: set<string>,
                       next: map<string, string>, more: set<string>, grown: set<Edge>, x: string)
    requires Represents(rep, tokens, es, prior) && Represents(next, more, grown, Reps(rep))
    requires tokens <= more && es <= grown && x in tokens && SmallestAbsorbed(rep, tokens, grown, x)
    ensures next[x] == rep[x]
  {
    ConnectedReflexive(Pairs(grown), x);
    RepReached(rep, tokens, es, prior, grown, x, x);
    assert IsRep(more, grown, Reps(rep), x, next[x]);
    assert rep[x] in Reps(rep) && Precedes(Reps(rep), next[x], rep[x]);
    var z :| z in rep && rep[z] == next[x];
    RepOfRep(rep, tokens, es, prior, z);
    assert StringLe(rep[x], rep[next[x]]);
    StringLeAntisymmetric(next[x], rep[x]);
  }

  /**
   * Over a grown graph, with the earlier representatives as the prior ones, a token keeps its representative
   * exactly when its component has taken in no component whose representative is smaller.
   */
  lemma KeepsRepIff(rep: map<string, string>, tokens: set<string>, es: set<Edge>, prior: set<string>,
                    next: map<string, string>, more: set<string>, grown: set<Edge>, x: string)
    requires Represents(rep, tokens, es, prior) && Represents(next, more, grown, Reps(rep))
    requires tokens <= more && es <= grown && x in tokens
    ensures next[x] == rep[x] <==> SmallestAbsorbed(rep, tokens, grown, x)
  {
    if next[x] == rep[x] {
      KeptIsSmallest(rep, tokens, es, prior, next, more, grown, x);
    }
    if SmallestAbsorbed(rep, tokens, grown, x) {
      SmallestIsKept(rep, tokens, es, prior, next, more, grown, x);
    }
  }

  /** An edge between two tokens resolved apart. */
  const LATE := Edge("a", "b", 1.0, ExactId)

  lemma UnlinkedApart(x: string, y: string)
    ensures Connected<string>({}, x, y) <==> x == y
  {
    ConnectedReflexive<string>({}, x);
    if Connected<string>({}, x, y) {
      ConnectedCarries({}, w => w == x, x, y);
    }
  }

  lemma LateConnects()
    ensures Pairs({LATE}) == {("a", "b")} && Connected(Pairs({LATE}), "a", "b") && Connected(Pairs({LATE}), "b", "a")
  {
    assert LATE in {LATE};
    assert Adjacent(Pairs({LATE}), "a", "b");
    ConnectedStep(Pairs({LATE}), "a", "b");
    ConnectedStep(Pairs({LATE}), "b", "a");
  }

  lemma ApartRepresents()
    ensures Represents(map["a" := "a", "b" := "b"], {"a", "b"}, {}, {})
  {
    var rep := map["a" := "a", "b" := "b"];
    assert Pairs({}) == {};
    forall x | x in {"a", "b"} ensures IsRep({"a", "b"}, {}, {}, x, rep[x]) {
      UnlinkedApart(x, x);
      forall y | y in {"a", "b"} && Connected(Pairs({}), x, y) ensures Precedes({}, rep[x], y) {
        UnlinkedApart(x, y);
        StringLeReflexive(x);
      }
    }
  }

  lemma TogetherRepresents()
    ensures Represents(map["a" := "a", "b" := "a"], {"a", "b"}, {LATE}, {"a", "b"})
  {
    LateConnects();
    StringLeReflexive("a");
    ConnectedReflexive(Pairs({LATE}), "a");
    assert StringLe("a", "b");
    forall x | x in {"a", "b"} ensures IsRep({"a", "b"}, {LATE}, {"a", "b"}, x, "a") {
      forall y | y in {"a", "b"} ensures Precedes({"a", "b"}, "a", y) {}
    }
  }

  /** A component that gains one edge, to an older component of smaller representative, does not keep its own. */
  lemma AbsorbedLosesRep(rep: map<string, string>, next: map<string, string>)
    requires Represents(rep, {"a", "b"}, {}, {}) && Represents(next, {"a", "b"}, {LATE}, Reps(rep))
    ensures rep == map["a" := "a", "b" := "b"] && next == map["a" := "a", "b" := "a"]
  {
    ApartRepresents();
    RepsUnique(rep, map["a" := "a", "b" := "b"], {"a", "b"}, {}, {});
    assert rep["a"] == "a" && rep["b"] == "b";
    assert Reps(rep) == {"a", "b"};
    TogetherRepresents();
    RepsUnique(next, map["a" := "a", "b" := "a"], {"a", "b"}, {LATE}, {"a", "b"});
  }

  /** A component that takes in only new tokens keeps its representative. */
  lemma GrowingKeepsRep(rep: map<string, string>, tokens: set<string>, es: set<Edge>, prior: set<string>,
                        next: map<string, string>, more: set<string>, grown: set<Edge>, x: string)
    requires Represents(rep, tokens, es, prior) && Represents(next, more, grown, Reps(rep))
    requires tokens <= more && es <= grown && x in tokens
    requires forall y | y in tokens && Connected(Pairs(grown), x, y) :: Connected(Pairs(es), x, y)
    ensures next[x] == rep[x]
  {
    forall y | y in tokens && Connected(Pairs(grown), x, y) ensures StringLe(rep[x], rep[y]) {
      SameRepIffConnected(rep, tokens, es, prior, x, y);
      StringLeReflexive(rep[x]);
    }
    SmallestIsKept(rep, tokens, es, prior, next, more, grown, x);
  }

  // ── Bands ──

  /** Exactly the two cutoffs: the band is read off the weakest link a component cannot do without. */
  lemma BandCutoffs(tokens: set<string>, es: set<Edge>, x: string)
    ensures BandOf(tokens, es, x) == Confirmed <==> HeldBy(tokens, es, x, CONFIRMED_FLOOR)
    ensures BandOf(tokens, es, x) != Uncertain <==> HeldBy(tokens, es, x, PROBABLE_FLOOR)
  {
    if HeldBy(tokens, es, x, CONFIRMED_FLOOR) {
      HeldByWeaker(tokens, es, x, CONFIRMED_FLOOR, PROBABLE_FLOOR);
    }
  }

  lemma HeldByWeaker(tokens: set<string>, es: set<Edge>, x: string, t: real, u: real)
    requires HeldBy(tokens, es, x, t) && u <= t
    ensures HeldBy(tokens, es, x, u)
  {
    forall y | y in tokens && Connected(Pairs(es), x, y) ensures Connected(PairsFrom(es, u), x, y) {
      ConnectedMonotone(PairsFrom(es, t), PairsFrom(es, u), x, y);
    }
  }

  /** A redundant edge, between tokens already connected, never lowers a band. */
  lemma RedundantEdgeKeepsHold(tokens: set<string>, es: set<Edge>, e: Edge, x: string, t: real)
    requires Connected(Pairs(es), e.a, e.b) && HeldBy(tokens, es, x, t)
    ensures HeldBy(tokens, es + {e}, x, t)
  {
    assert Pairs(es + {e}) == Pairs(es) + {(e.a, e.b)};
    ConnectedSymmetric(Pairs(es), e.a, e.b);
    forall y | y in tokens && Connected(Pairs(es + {e}), x, y) ensures Connected(PairsFrom(es + {e}, t), x, y) {
      ConnectedAdd(Pairs(es), e.a, e.b, x, y);
      if Connected(Pairs(es), x, e.a) && Connected(Pairs(es), e.b, y) {
        ConnectedTransitive(Pairs(es), x, e.a, e.b);
        ConnectedTransitive(Pairs(es), x, e.b, y);
      } else if Connected(Pairs(es), x, e.b) && Connected(Pairs(es), e.a, y) {
        ConnectedTransitive(Pairs(es), x, e.b, e.a);
        ConnectedTransitive(Pairs(es), x, e.a, y);
      }
      ConnectedMonotone(PairsFrom(es, t), PairsFrom(es + {e}, t), x, y);
    }
  }

  /** A token with no eligible edge is certainly itself. */
  lemma SingletonConfirmed(tokens: set<string>, es: set<Edge>, x: string)
    requires forall e | e in es :: e.a == e.b || (e.a != x && e.b != x)
    ensures BandOf(tokens, es, x) == Confirmed
  {
    forall y | y in tokens && Connected(Pairs(es), x, y) ensures Connected(PairsFrom(es, CONFIRMED_FLOOR), x, y) {
      ConnectedCarries(Pairs(es), w => w == x, x, y);
      ConnectedReflexive(PairsFrom(es, CONFIRMED_FLOOR), x);
    }
  }

  /** Links that all fall short of the top cutoff never make two tokens one confirmed identity. */
  lemma WeakLinksNeverConfirm(tokens: set<string>, es: set<Edge>, x: string, y: string)
    requires forall e | e in es :: e.confidence < CONFIRMED_FLOOR
    requires y in tokens && x != y && Connected(Pairs(es), x, y)
    ensures BandOf(tokens, es, x) != Confirmed
  {
    var strong := PairsFrom(es, CONFIRMED_FLOOR);
    assert strong == {};
    if Connected(strong, x, y) {
      ConnectedCarries(strong, w => w == x, x, y);
    }
  }
}
