/** Three candidates linked in a chain: what the scorer makes of two shared repositories. */
module ChainEdges {
  import opened Ordering
  import opened LinkModel
  import opened LinkScoring
  import LinkComponents
  import Linking

  // ── Any two weak entities of equal weight, one shared by each pair of neighbours ──

  /** Neighbours share one weak entity each, the ends share none, and all three fall at one instant. */
  ghost predicate Chained(cs: seq<Cluster>, x: string, y: string) {
    && |cs| == 3 && cs[0].entities == [x] && cs[1].entities == [x, y] && cs[2].entities == [y]
    && cs[0].lastEventTime == cs[1].lastEventTime == cs[2].lastEventTime
    && x != y && Ascending(StringLe, [x, y]) && Strength(x) == Some(Weak) && Strength(y) == Some(Weak)
  }

  lemma ChainMentions(cs: seq<Cluster>, x: string, y: string, e: string)
    requires Chained(cs, x, y)
    ensures Linkable(e) && Mentioned(cs, e) <==> e in [x, y]
  {
    assert x in cs[0].entities && y in cs[2].entities;
  }

  lemma ChainKeys(cs: seq<Cluster>, x: string, y: string)
    requires Chained(cs, x, y)
    ensures LinkKeys(cs) == [x, y]
  {
    StringOrder();
    LinkKeysMeaning(cs);
    forall e ensures e in LinkKeys(cs) <==> e in [x, y] {
      ChainMentions(cs, x, y, e);
    }
    AscendingUnique(StringLe, LinkKeys(cs), [x, y]);
  }

  function Part(present: bool, weight: real): real {
    if present then weight else 0.0
  }

  lemma {:induction false} TwoShared(cs: seq<Cluster>, w: string -> real, x: string, y: string, a: nat, b: nat)
    requires a < |cs| && b < |cs|
    ensures SharedWeight(cs, w, [x, y], a, b) == Part(Shared(cs, a, b, x), w(x)) + Part(Shared(cs, a, b, y), w(y))
  {
    assert [x, y][..1] == [x] && [x][..0] == [];
    assert SharedWeight(cs, w, [x], a, b) == SharedWeight(cs, w, [], a, b) + Part(Shared(cs, a, b, x), w(x));
  }

  lemma {:induction false} TwoCarried(cs: seq<Cluster>, w: string -> real, x: string, y: string, a: nat)
    requires a < |cs|
    ensures ClusterWeight(cs, w, [x, y], a) == Part(x in cs[a].entities, w(x)) + Part(y in cs[a].entities, w(y))
  {
    assert [x, y][..1] == [x] && [x][..0] == [];
    assert ClusterWeight(cs, w, [x], a) == ClusterWeight(cs, w, [], a) + Part(x in cs[a].entities, w(x));
  }

  /** Half the union is shared and the times agree, so the score is 0.7 / 2 + 0.3. */
  lemma HalfShared(g: real)
    requires g > 0.0
    ensures WeightedJaccard(g, g, g + g) == WeightedJaccard(g, g + g, g) == 0.5 && Blend(0.5, 1.0) == 0.65
  {
    assert g + (g + g) - g == 2.0 * g;
    assert g / (2.0 * g) == 0.5;
  }

  /** `key` is the one of two weak entities that the pair shares. */
  ghost predicate Only(cs: seq<Cluster>, x: string, y: string, a: nat, b: nat, key: string)
    requires a < |cs| && b < |cs|
  {
    && (key == x || key == y) && Strength(x) == Some(Weak) && Strength(y) == Some(Weak)
    && (Shared(cs, a, b, x) <==> key == x) && (Shared(cs, a, b, y) <==> key == y)
  }

  lemma {:induction false} OnlyNotStrong(cs: seq<Cluster>, x: string, y: string, a: nat, b: nat)
    requires a < |cs| && b < |cs| && Strength(x) == Some(Weak) && Strength(y) == Some(Weak)
    ensures FirstStrong(cs, [x, y], a, b).None?
  {
    assert [x, y][..1] == [x] && [x][..0] == [];
    assert FirstStrong(cs, [], a, b).None? && FirstStrong(cs, [x], a, b).None?;
  }

  lemma {:induction false} OnlyIsHeaviest(cs: seq<Cluster>, w: string -> real, x: string, y: string, a: nat, b: nat, key: string)
    requires a < |cs| && b < |cs| && Only(cs, x, y, a, b, key) && x != y
    ensures HeaviestWeak(cs, w, [x, y], a, b) == Some((w(key), key)) && SharesAny(cs, [x, y], a, b)
  {
    assert [x, y][..1] == [x] && [x][..0] == [];
    assert HeaviestWeak(cs, w, [x], a, b) == if key == x then Some((w(x), x)) else HeaviestWeak(cs, w, [], a, b);
    assert key in [x, y];
  }

  function Half(a: nat, b: nat, key: string): Edge {
    Edge(a, b, false, 0.65, "shared " + key)
  }

  lemma HalfBuilt(cs: seq<Cluster>, a: nat, b: nat, p: PairAcc, weightA: real, weightB: real, key: string)
    requires a < |cs| && b < |cs| && cs[a].lastEventTime == cs[b].lastEventTime
    requires p.strongKey.None? && p.bestWeak.Some? && p.bestWeak.value.1 == key
    requires WeightedJaccard(p.sharedWeight, weightA, weightB) == 0.5 && Blend(0.5, 1.0) == 0.65
    ensures BuildEdge(cs, a, b, p, weightA, weightB) == Some(Half(a, b, key))
  {
    assert TemporalCloseness(cs[a], cs[b]) == 1.0;
  }

  /** How many of the two the cluster names. */
  function Named(c: Cluster, x: string, y: string): nat {
    (if x in c.entities then 1 else 0) + if y in c.entities then 1 else 0
  }

  /** Neighbours that share one of the two get a weak edge named after it. */
  lemma HalfEdge(cs: seq<Cluster>, w: string -> real, x: string, y: string, a: nat, b: nat, key: string)
    requires a < |cs| && b < |cs| && LinkKeys(cs) == [x, y] && x != y && w(x) == w(y) > 0.0
    requires Only(cs, x, y, a, b, key) && cs[a].lastEventTime == cs[b].lastEventTime
    requires Named(cs[a], x, y) + Named(cs[b], x, y) == 3
    ensures NaiveEdge(cs, w, a, b) == [Half(a, b, key)]
  {
    var acc := NaiveAcc(cs, w, [x, y], a, b);
    var weightA, weightB := ClusterWeight(cs, w, [x, y], a), ClusterWeight(cs, w, [x, y], b);
    OnlyNotStrong(cs, x, y, a, b);
    OnlyIsHeaviest(cs, w, x, y, a, b, key);
    HalfWeighs(cs, w, x, y, a, b, key);
    HalfBuilt(cs, a, b, acc, weightA, weightB, key);
  }

  lemma {:induction false} HalfWeighs(cs: seq<Cluster>, w: string -> real, x: string, y: string, a: nat, b: nat, key: string)
    requires a < |cs| && b < |cs| && x != y && w(x) == w(y) > 0.0 && Only(cs, x, y, a, b, key)
    requires Named(cs[a], x, y) + Named(cs[b], x, y) == 3
    ensures WeightedJaccard(SharedWeight(cs, w, [x, y], a, b), ClusterWeight(cs, w, [x, y], a), ClusterWeight(cs, w, [x, y], b)) == 0.5
    ensures Blend(0.5, 1.0) == 0.65
  {
    TwoShared(cs, w, x, y, a, b);
    TwoCarried(cs, w, x, y, a);
    TwoCarried(cs, w, x, y, b);
    HalfShared(w(x));
  }

  lemma NearEdge(cs: seq<Cluster>, w: string -> real, x: string, y: string)
    requires Chained(cs, x, y) && LinkKeys(cs) == [x, y] && w(x) == w(y) > 0.0
    ensures NaiveEdge(cs, w, 0, 1) == [Half(0, 1, x)]
  {
    HalfEdge(cs, w, x, y, 0, 1, x);
  }

  lemma FarEdge(cs: seq<Cluster>, w: string -> real, x: string, y: string)
    requires Chained(cs, x, y) && LinkKeys(cs) == [x, y] && w(x) == w(y) > 0.0
    ensures NaiveEdge(cs, w, 1, 2) == [Half(1, 2, y)]
  {
    HalfEdge(cs, w, x, y, 1, 2, y);
  }

  lemma EndsApart(cs: seq<Cluster>, w: string -> real, x: string, y: string)
    requires Chained(cs, x, y) && LinkKeys(cs) == [x, y]
    ensures NaiveEdge(cs, w, 0, 2) == []
  {
  }

  lemma ThreePairs<T>(entry: (nat, nat) -> seq<T>)
    ensures Rows(entry, 3, 3) == entry(0, 1) + entry(0, 2) + entry(1, 2)
  {
    assert Row(entry, 0, 3) == entry(0, 1) + entry(0, 2);
    assert Row(entry, 1, 3) == entry(1, 2) && Row(entry, 2, 3) == [];
    assert Rows(entry, 3, 1) == Row(entry, 0, 3);
  }

  lemma ChainScored(cs: seq<Cluster>, w: string -> real, x: string, y: string)
    requires Chained(cs, x, y) && w(x) == w(y) > 0.0
    ensures GradedEdges(cs, w) == [Half(0, 1, x), Half(1, 2, y)]
  {
    ChainKeys(cs, x, y);
    NearEdge(cs, w, x, y);
    FarEdge(cs, w, x, y);
    EndsApart(cs, w, x, y);
    ThreePairs(NaiveEntry(cs, w));
  }

  lemma {:induction false} TwoHold(cs: seq<Cluster>, e: string)
    requires |cs| == 3 && e in cs[1].entities && (e in cs[0].entities <==> e !in cs[2].entities)
    ensures |Holders(cs, e, 3)| == 2
  {
    assert |Holders(cs, e, 2)| == |Holders(cs, e, 1)| + 1;
    assert |Holders(cs, e, 1)| == |Holders(cs, e, 0)| + if e in cs[0].entities then 1 else 0;
  }

  lemma {:induction false} TwoOfThree(cs: seq<Cluster>, e: string, ln: real -> real)
    requires |cs| == 3 && |Holders(cs, e, 3)| == 2 && ln(4.0 / 3.0) >= 0.0 && NamespacePrior(e) > 0.0
    ensures Grading(cs, map[], ln)(e) == Doubly(NamespacePrior(e), ln(4.0 / 3.0)) > 0.0
  {
    Positive(NamespacePrior(e), ln(4.0 / 3.0) + 1.0);
  }

  /** The grade of an entity that two of three candidates carry. */
  function Doubly(prior: real, log: real): real {
    prior * (log + 1.0) * 1.0
  }

  lemma ChainGrades(cs: seq<Cluster>, x: string, y: string, ln: real -> real)
    requires Chained(cs, x, y) && ln(4.0 / 3.0) >= 0.0 && NamespacePrior(x) == NamespacePrior(y) > 0.0
    ensures var w := Grading(cs, map[], ln); w(x) == w(y) > 0.0
  {
    TwoHold(cs, x);
    TwoHold(cs, y);
    TwoOfThree(cs, x, ln);
    TwoOfThree(cs, y, ln);
  }

  lemma Positive(x: real, y: real)
    requires x > 0.0 && y > 0.0
    ensures x * y * 1.0 > 0.0
  {
  }

  lemma Unconstrained(es: seq<Edge>, cs: seq<Cluster>)
    requires InRange(es, |cs|)
    ensures LinkComponents.Constrained(es, cs, PLAIN) == es
  {
    LinkComponents.RetainedAll(es, cs);
  }

  /** Without feedback the chain's edges are the two weak ones, whatever the two entities weigh. */
  lemma ChainedEdges(cs: seq<Cluster>, x: string, y: string, ln: real -> real)
    requires Chained(cs, x, y) && ln(4.0 / 3.0) >= 0.0 && NamespacePrior(x) == NamespacePrior(y) > 0.0
    ensures Linking.LinkEdges(cs, PLAIN, ln) == [Half(0, 1, x), Half(1, 2, y)]
  {
    ChainGrades(cs, x, y, ln);
    ChainScored(cs, Grading(cs, map[], ln), x, y);
    Unconstrained([Half(0, 1, x), Half(1, 2, y)], cs);
  }

  /** A candidate on its own has no edge. */
  lemma LoneUnlinked(c: Cluster, ln: real -> real)
    ensures Linking.LinkEdges([c], PLAIN, ln) == []
  {
    var entry := NaiveEntry([c], Grading([c], map[], ln));
    assert Rows(entry, 1, 1) == Rows(entry, 1, 0) + Row(entry, 0, 1);
    Unconstrained([], [c]);
  }

  // ── Two repositories ──

  const X := "repo:a/x"
  const Y := "repo:a/y"

  /** The repositories each cluster of the chain names. */
  function Repos(id: Uuid): seq<string> {
    if id == 11 then [X] else if id == 12 then [X, Y] else [Y]
  }

  function Item(id: Uuid): Cluster {
    Cluster(id, Repos(id), 0, 0, Rss, 1, Message, None, false)
  }

  const CHAIN := [Item(11), Item(12), Item(13)]
  const NEAR := Edge(0, 1, false, 0.65, "shared " + X)
  const FAR := Edge(1, 2, false, 0.65, "shared " + Y)
  const LINKS := [NEAR, FAR]

  /** No feedback at all. */
  const PLAIN := Tuning(map[], [], {})

  lemma RepoGraded(e: string)
    requires "repo:" <= e
    ensures Strength(e) == Some(Weak) && NamespacePrior(e) == 0.9
  {
    assert e[0] == 'r';
  }

  lemma {:induction false} PrefixOrder(p: string, a: string, b: string)
    requires StringLe(a, b)
    ensures StringLe(p + a, p + b)
  {
    if p == [] {
      assert p + a == a && p + b == b;
    } else {
      PrefixOrder(p[1..], a, b);
      SameHead(p, a);
      SameHead(p, b);
    }
  }

  lemma SameHead(p: string, a: string)
    requires p != []
    ensures p + a != [] && (p + a)[0] == p[0] && (p + a)[1..] == p[1..] + a
  {
  }

  lemma RepoOrder()
    ensures X != Y && StringLe(X, Y)
  {
    assert X[7] == 'x' && Y[7] == 'y';
    assert X == "repo:a/" + "x" && Y == "repo:a/" + "y";
    PrefixOrder("repo:a/", "x", "y");
  }

  lemma ChainIsChained()
    ensures Chained(CHAIN, X, Y)
  {
    RepoOrder();
    RepoGraded(X);
    RepoGraded(Y);
  }

  /** Under any logarithm that is not negative at 4/3, the chain's edges are the two weak ones. */
  lemma ChainLinked(ln: real -> real)
    requires ln(4.0 / 3.0) >= 0.0
    ensures Linking.LinkEdges(CHAIN, PLAIN, ln) == LINKS
  {
    ChainIsChained();
    RepoGraded(X);
    RepoGraded(Y);
    ChainedEdges(CHAIN, X, Y, ln);
  }
}
