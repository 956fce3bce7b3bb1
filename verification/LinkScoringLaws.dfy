/** What the scored edges mean: which pairs link, how strongly, and on which shared entity. */
module LinkScoringLaws {
  import opened Ordering
  import opened LinkModel
  import opened LinkScoring

  // ── The edge list holds exactly the entries of its pairs ──

  /** Each pair of indices yields at most its own edge. */
  ghost predicate OwnEdges(entry: (nat, nat) -> seq<Edge>) {
    forall a: nat, b: nat :: |entry(a, b)| <= 1 && forall e | e in entry(a, b) :: e.a == a && e.b == b
  }

  lemma {:induction false} RowExact(entry: (nat, nat) -> seq<Edge>, a: nat, b: nat, e: Edge)
    requires OwnEdges(entry) && a < b
    ensures e in Row(entry, a, b) <==> e.a == a && a < e.b < b && e in entry(e.a, e.b)
    decreases b
  {
    if b > a + 1 {
      RowExact(entry, a, b - 1, e);
    }
  }

  lemma {:induction false} RowsExact(entry: (nat, nat) -> seq<Edge>, n: nat, a: nat, e: Edge)
    requires OwnEdges(entry) && a <= n
    ensures e in Rows(entry, n, a) <==> e.a < a && e.a < e.b < n && e in entry(e.a, e.b)
  {
    if a > 0 {
      RowsExact(entry, n, a - 1, e);
      RowExact(entry, a - 1, n, e);
      InEither(Rows(entry, n, a - 1), Row(entry, a - 1, n), e);
    }
  }

  lemma InEither<T>(s: seq<T>, t: seq<T>, x: T)
    ensures x in s + t <==> x in s || x in t
  {
  }

  /** An edge is present exactly when its own pair yields it. */
  lemma EdgesExact(cs: seq<Cluster>, w: string -> real, e: Edge)
    ensures e in GradedEdges(cs, w)
       <==> e.a < e.b < |cs| && e in NaiveEdge(cs, w, e.a, e.b)
  {
    RowsExact(NaiveEntry(cs, w), |cs|, |cs|, e);
  }

  ghost predicate PairBefore(x: Edge, y: Edge) {
    x.a < y.a || (x.a == y.a && x.b < y.b)
  }

  /** Edges come in strictly ascending order of their pair, so no pair appears twice. */
  ghost predicate PairAscending(es: seq<Edge>) {
    forall i, j | 0 <= i < j < |es| :: PairBefore(es[i], es[j])
  }

  lemma {:induction false} RowAscending(entry: (nat, nat) -> seq<Edge>, a: nat, b: nat)
    requires OwnEdges(entry) && a < b
    ensures PairAscending(Row(entry, a, b))
    ensures forall e | e in Row(entry, a, b) :: e.a == a && a < e.b < b
    decreases b
  {
    if b > a + 1 {
      RowAscending(entry, a, b - 1);
      AppendAscending(Row(entry, a, b - 1), entry(a, b - 1));
    }
  }

  lemma AppendAscending(earlier: seq<Edge>, row: seq<Edge>)
    requires PairAscending(earlier) && PairAscending(row) && forall x, y | x in earlier && y in row :: PairBefore(x, y)
    ensures PairAscending(earlier + row)
  {
    var all := earlier + row;
    forall i, j | 0 <= i < j < |all| ensures PairBefore(all[i], all[j]) {
      if i < |earlier| { assert all[i] in earlier; }
      if j >= |earlier| { assert row[j - |earlier|] in row; }
    }
  }

  lemma {:induction false} RowsAscending(entry: (nat, nat) -> seq<Edge>, n: nat, a: nat)
    requires OwnEdges(entry) && a <= n
    ensures PairAscending(Rows(entry, n, a))
    ensures forall e | e in Rows(entry, n, a) :: e.a < a && e.a < e.b < n
  {
    if a > 0 {
      RowsAscending(entry, n, a - 1);
      RowAscending(entry, a - 1, n);
      AppendAscending(Rows(entry, n, a - 1), Row(entry, a - 1, n));
    }
  }

  lemma ScoredEdgesAscend(cs: seq<Cluster>, w: string -> real)
    ensures PairAscending(GradedEdges(cs, w)) && InRange(GradedEdges(cs, w), |cs|)
  {
    RowsAscending(NaiveEntry(cs, w), |cs|, |cs|);
  }

  // ── Strong edges ──

  ghost predicate SharesStrongKey(cs: seq<Cluster>, a: nat, b: nat, key: string)
    requires a < |cs| && b < |cs|
  {
    Shared(cs, a, b, key) && Strength(key) == Some(Strong)
  }

  lemma {:induction false} FirstStrongMeaning(cs: seq<Cluster>, ks: seq<string>, a: nat, b: nat)
    requires a < |cs| && b < |cs| && Ascending(StringLe, ks)
    ensures FirstStrong(cs, ks, a, b).None? <==> forall k | k in ks :: !SharesStrongKey(cs, a, b, k)
    ensures FirstStrong(cs, ks, a, b).Some? ==>
      var first := FirstStrong(cs, ks, a, b).value;
      && first in ks && SharesStrongKey(cs, a, b, first)
      && forall k | k in ks && SharesStrongKey(cs, a, b, k) :: StringLe(first, k)
  {
    if ks != [] {
      var front, e := ks[..|ks| - 1], ks[|ks| - 1];
      assert ks == front + [e];
      FirstStrongMeaning(cs, front, a, b);
      assert StringLe(e, e) by { StringOrder(); }
      if FirstStrong(cs, ks, a, b).None? {
        assert FirstStrong(cs, front, a, b).None? && !SharesStrongKey(cs, a, b, e);
      } else {
        assert SharesStrongKey(cs, a, b, FirstStrong(cs, ks, a, b).value);
      }
      if FirstStrong(cs, front, a, b).Some? {
        var i :| 0 <= i < |front| && front[i] == FirstStrong(cs, front, a, b).value;
        assert StringLe(ks[i], ks[|ks| - 1]);
      }
    }
  }

  lemma {:induction false} StrongEntry(cs: seq<Cluster>, w: string -> real, a: nat, b: nat)
    requires a < b < |cs|
    ensures FirstStrong(cs, LinkKeys(cs), a, b).Some? <==> exists key :: SharesStrongKey(cs, a, b, key)
    ensures var first := FirstStrong(cs, LinkKeys(cs), a, b);
      first.Some? ==> && SharesStrongKey(cs, a, b, first.value)
                      && (forall k | SharesStrongKey(cs, a, b, k) :: StringLe(first.value, k))
                      && NaiveEdge(cs, w, a, b) == [Edge(a, b, true, 1.0, "shared " + first.value)]
    ensures FirstStrong(cs, LinkKeys(cs), a, b).None? ==> forall e | e in NaiveEdge(cs, w, a, b) :: !e.strong
  {
    LinkKeysMeaning(cs);
    FirstStrongMeaning(cs, LinkKeys(cs), a, b);
    forall k | SharesStrongKey(cs, a, b, k) ensures k in LinkKeys(cs) {
      assert Mentioned(cs, k);
    }
  }

  /** `key` is the lexically first strong key the pair shares. */
  ghost predicate FirstSharedStrong(cs: seq<Cluster>, a: nat, b: nat, key: string)
    requires a < |cs| && b < |cs|
  {
    SharesStrongKey(cs, a, b, key) && forall k | SharesStrongKey(cs, a, b, k) :: StringLe(key, k)
  }

  lemma FirstSharedStrongUnique(cs: seq<Cluster>, a: nat, b: nat, k1: string, k2: string)
    requires a < |cs| && b < |cs| && FirstSharedStrong(cs, a, b, k1) && FirstSharedStrong(cs, a, b, k2)
    ensures k1 == k2
  {
    StringOrder();
  }

  /** A pair gets a strong edge exactly when it shares a `cve:`/`url:` key, scored 1 and named after the first such key. */
  lemma StrongEdgesExact(cs: seq<Cluster>, w: string -> real, a: nat, b: nat, score: real, reason: string)
    ensures Edge(a, b, true, score, reason) in GradedEdges(cs, w)
       <==> a < b < |cs| && score == 1.0 && exists key :: reason == "shared " + key && FirstSharedStrong(cs, a, b, key)
  {
    var e := Edge(a, b, true, score, reason);
    EdgesExact(cs, w, e);
    if a < b < |cs| {
      StrongEntry(cs, w, a, b);
      var first := FirstStrong(cs, LinkKeys(cs), a, b);
      if first.Some? {
        assert FirstSharedStrong(cs, a, b, first.value);
        if key :| reason == "shared " + key && FirstSharedStrong(cs, a, b, key) {
          FirstSharedStrongUnique(cs, a, b, key, first.value);
        }
      }
    }
  }

  // ── Weak edges ──

  lemma {:induction false} HeaviestMeaning(cs: seq<Cluster>, w: string -> real, ks: seq<string>, a: nat, b: nat)
    requires a < |cs| && b < |cs|
    ensures HeaviestWeak(cs, w, ks, a, b).Some? ==>
      var (weight, heaviest) := HeaviestWeak(cs, w, ks, a, b).value;
      && weight == w(heaviest) && heaviest in ks && Shared(cs, a, b, heaviest) && Strength(heaviest) != Some(Strong)
      && forall k | k in ks && Shared(cs, a, b, k) && Strength(k) != Some(Strong) :: w(k) <= weight
    ensures HeaviestWeak(cs, w, ks, a, b).None? <==>
      forall k | k in ks && Shared(cs, a, b, k) :: Strength(k) == Some(Strong)
  {
    if ks != [] {
      HeaviestMeaning(cs, w, ks[..|ks| - 1], a, b);
      assert ks == ks[..|ks| - 1] + [ks[|ks| - 1]];
    }
  }

  lemma {:induction false} SharedWithin(cs: seq<Cluster>, w: string -> real, ks: seq<string>, a: nat, b: nat)
    requires a < |cs| && b < |cs| && forall k | k in ks :: w(k) >= 0.0
    ensures 0.0 <= SharedWeight(cs, w, ks, a, b)
    ensures SharedWeight(cs, w, ks, a, b) <= ClusterWeight(cs, w, ks, a)
    ensures SharedWeight(cs, w, ks, a, b) <= ClusterWeight(cs, w, ks, b)
  {
    if ks != [] {
      assert forall k | k in ks[..|ks| - 1] :: k in ks;
      SharedWithin(cs, w, ks[..|ks| - 1], a, b);
    }
  }

  lemma RatioBelow(x: real, y: real)
    requires 0.0 < y
    ensures x / y >= 0.0 <==> x >= 0.0
    ensures x / y <= 1.0 <==> x <= y
  {
  }

  /**
   * The ratio lies within 0..1 exactly when the union weighs nothing or the shared weight is neither negative nor
   * above the mean of the two clusters' weights; overrides may be negative, so both can fail.
   */
  lemma JaccardBounds(shared: real, weightA: real, weightB: real)
    ensures 0.0 <= WeightedJaccard(shared, weightA, weightB) <= 1.0
       <==> weightA + weightB - shared <= 0.0 || (0.0 <= shared && 2.0 * shared <= weightA + weightB)
  {
    if weightA + weightB - shared > 0.0 {
      RatioBelow(shared, weightA + weightB - shared);
    }
  }

  /** The overlap of the pair's distinctive entities: shared weight over union weight. */
  ghost function Overlap(cs: seq<Cluster>, w: string -> real, a: nat, b: nat): real
    requires a < |cs| && b < |cs|
  {
    var ks := LinkKeys(cs);
    WeightedJaccard(SharedWeight(cs, w, ks, a, b), ClusterWeight(cs, w, ks, a), ClusterWeight(cs, w, ks, b))
  }

  /**
   * The edge joins a pair with no shared strong key, is carried by real overlap rather than by timing, has
   * overlap and score within 0..1, and cites the heaviest entity the pair shares.
   */
  ghost predicate Corroborated(cs: seq<Cluster>, w: string -> real, e: Edge) {
    && e.a < e.b < |cs| && (forall k :: !SharesStrongKey(cs, e.a, e.b, k))
    && WEAK_MIN_JACCARD <= Overlap(cs, w, e.a, e.b) <= 1.0 && WEAK_EDGE_THRESHOLD <= e.score <= 1.0
    && exists key ::
         && e.reason == "shared " + key && Shared(cs, e.a, e.b, key) && Strength(key) == Some(Weak)
         && forall k | Linkable(k) && Shared(cs, e.a, e.b, k) :: w(k) <= w(key)
  }

  lemma WeakEdgesMeaning(cs: seq<Cluster>, w: string -> real, e: Edge)
    requires e in GradedEdges(cs, w) && !e.strong
    requires forall k | k in LinkKeys(cs) :: w(k) >= 0.0
    ensures Corroborated(cs, w, e)
  {
    EdgesExact(cs, w, e);
    StrongEntry(cs, w, e.a, e.b);
    WeakEntry(cs, w, e.a, e.b);
  }

  /** Whatever feedback multiplies, as long as no multiplier is negative, every weak edge the scorer finds is corroborated. */
  lemma FeedbackKeepsEdgesSound(cs: seq<Cluster>, overrides: map<string, real>, ln: real -> real, e: Edge)
    requires e in GradedEdges(cs, Grading(cs, overrides, ln)) && !e.strong
    requires (forall k | k in overrides :: overrides[k] >= 0.0) && forall x: real | x >= 1.0 :: ln(x) >= 0.0
    ensures Corroborated(cs, Grading(cs, overrides, ln), e)
  {
    LinkKeysMeaning(cs);
    forall k | k in LinkKeys(cs) ensures Grading(cs, overrides, ln)(k) >= 0.0 {
      GradeNotNegative(cs, k, overrides, ln);
    }
    WeakEdgesMeaning(cs, Grading(cs, overrides, ln), e);
  }

  lemma {:induction false} WeakEntry(cs: seq<Cluster>, w: string -> real, a: nat, b: nat)
    requires a < b < |cs| && FirstStrong(cs, LinkKeys(cs), a, b).None?
    requires forall k | k in LinkKeys(cs) :: w(k) >= 0.0
    ensures forall e | e in NaiveEdge(cs, w, a, b) ::
      && WEAK_MIN_JACCARD <= Overlap(cs, w, a, b) <= 1.0 && WEAK_EDGE_THRESHOLD <= e.score <= 1.0
      && exists key ::
           && e.reason == "shared " + key && Shared(cs, a, b, key) && Strength(key) == Some(Weak)
           && forall k | Linkable(k) && Shared(cs, a, b, k) :: w(k) <= w(key)
  {
    var ks := LinkKeys(cs);
    LinkKeysMeaning(cs);
    HeaviestMeaning(cs, w, ks, a, b);
    SharedWithin(cs, w, ks, a, b);
    JaccardBounds(SharedWeight(cs, w, ks, a, b), ClusterWeight(cs, w, ks, a), ClusterWeight(cs, w, ks, b));
    FirstStrongMeaning(cs, ks, a, b);
    forall k | Linkable(k) && Shared(cs, a, b, k) ensures k in ks {
      assert Mentioned(cs, k);
    }
    if HeaviestWeak(cs, w, ks, a, b).Some? {
      var key := HeaviestWeak(cs, w, ks, a, b).value.1;
      assert !SharesStrongKey(cs, a, b, key);
      assert Shared(cs, a, b, key) && Strength(key) == Some(Weak);
    }
  }

  /** `key` is the heaviest weak entity the pair shares, the lexically first among equals. */
  ghost predicate LeadingWeak(cs: seq<Cluster>, w: string -> real, a: nat, b: nat, key: string)
    requires a < |cs| && b < |cs|
  {
    && Shared(cs, a, b, key) && Strength(key) == Some(Weak)
    && forall k | Shared(cs, a, b, k) && Strength(k) == Some(Weak) :: w(k) < w(key) || (w(k) == w(key) && StringLe(key, k))
  }

  lemma LeadingWeakUnique(cs: seq<Cluster>, w: string -> real, a: nat, b: nat, k1: string, k2: string)
    requires a < |cs| && b < |cs| && LeadingWeak(cs, w, a, b, k1) && LeadingWeak(cs, w, a, b, k2)
    ensures k1 == k2
  {
    StringOrder();
  }

  lemma {:induction false} HeaviestFirst(cs: seq<Cluster>, w: string -> real, ks: seq<string>, a: nat, b: nat)
    requires a < |cs| && b < |cs| && Ascending(StringLe, ks) && HeaviestWeak(cs, w, ks, a, b).Some?
    ensures var (weight, key) := HeaviestWeak(cs, w, ks, a, b).value;
      && key in ks
      && forall k | k in ks && Shared(cs, a, b, k) && Strength(k) != Some(Strong) :: w(k) < weight || StringLe(key, k)
  {
    var front, e := ks[..|ks| - 1], ks[|ks| - 1];
    assert ks == front + [e];
    assert StringLe(e, e) by { StringOrder(); }
    HeaviestMeaning(cs, w, front, a, b);
    if HeaviestWeak(cs, w, front, a, b).Some? {
      HeaviestFirst(cs, w, front, a, b);
      var i :| 0 <= i < |front| && front[i] == HeaviestWeak(cs, w, front, a, b).value.1;
      assert StringLe(ks[i], ks[|ks| - 1]);
    }
  }

  lemma {:induction false} LeadingEntry(cs: seq<Cluster>, w: string -> real, a: nat, b: nat)
    requires a < b < |cs| && FirstStrong(cs, LinkKeys(cs), a, b).None?
    ensures SharesAny(cs, LinkKeys(cs), a, b) <==> HeaviestWeak(cs, w, LinkKeys(cs), a, b).Some?
    ensures HeaviestWeak(cs, w, LinkKeys(cs), a, b).Some? ==>
      LeadingWeak(cs, w, a, b, HeaviestWeak(cs, w, LinkKeys(cs), a, b).value.1)
    ensures HeaviestWeak(cs, w, LinkKeys(cs), a, b).None? ==> forall key :: !LeadingWeak(cs, w, a, b, key)
  {
    var ks := LinkKeys(cs);
    LinkKeysMeaning(cs);
    FirstStrongMeaning(cs, ks, a, b);
    HeaviestMeaning(cs, w, ks, a, b);
    forall k | Shared(cs, a, b, k) && Linkable(k) ensures k in ks && Strength(k) == Some(Weak) {
      assert Mentioned(cs, k);
      assert !SharesStrongKey(cs, a, b, k);
    }
    if HeaviestWeak(cs, w, ks, a, b).Some? {
      HeaviestFirst(cs, w, ks, a, b);
    }
  }

  /** The bar a weak edge clears: real overlap, and an absolute floor where the overlap is saturated. */
  ghost predicate ClearsBar(cs: seq<Cluster>, w: string -> real, a: nat, b: nat, score: real)
    requires a < |cs| && b < |cs|
  {
    && score >= WEAK_EDGE_THRESHOLD && Overlap(cs, w, a, b) >= WEAK_MIN_JACCARD
    && (Overlap(cs, w, a, b) >= SATURATED_WJ ==> SharedWeight(cs, w, LinkKeys(cs), a, b) >= MIN_SATURATED_SHARED_WEIGHT)
  }

  /**
   * A pair gets a weak edge exactly when it shares no strong key but some weak one and clears the bar; the
   * edge blends overlap with timing and names the heaviest shared entity, the lexically first among equals.
   */
  lemma WeakEdgesExact(cs: seq<Cluster>, w: string -> real, a: nat, b: nat, score: real, reason: string)
    ensures Edge(a, b, false, score, reason) in GradedEdges(cs, w) <==>
      && a < b < |cs| && (forall key :: !SharesStrongKey(cs, a, b, key))
      && (exists key :: reason == "shared " + key && LeadingWeak(cs, w, a, b, key))
      && score == Blend(Overlap(cs, w, a, b), TemporalCloseness(cs[a], cs[b])) && ClearsBar(cs, w, a, b, score)
  {
    EdgesExact(cs, w, Edge(a, b, false, score, reason));
    if a < b < |cs| {
      StrongEntry(cs, w, a, b);
      if FirstStrong(cs, LinkKeys(cs), a, b).None? {
        LeadingEntry(cs, w, a, b);
        var best := HeaviestWeak(cs, w, LinkKeys(cs), a, b);
        if key :| reason == "shared " + key && LeadingWeak(cs, w, a, b, key) {
          LeadingWeakUnique(cs, w, a, b, key, best.value.1);
        }
      }
    }
  }

  // ── A lone shared token ──

  /** A grade is not negative where its override is not, for any logarithm that is nonnegative from 1 on. */
  lemma GradeNotNegative(cs: seq<Cluster>, e: string, overrides: map<string, real>, ln: real -> real)
    requires e in overrides ==> overrides[e] >= 0.0
    requires forall x: real | x >= 1.0 :: ln(x) >= 0.0
    ensures Grading(cs, overrides, ln)(e) >= 0.0
  {
    HoldersCount(cs, e, |cs|);
    PositiveIdf(|Holders(cs, e, |cs|)|, |cs|, ln);
    ProductNotNegative(NamespacePrior(e), Idf(|Holders(cs, e, |cs|)|, |cs|, ln), Multiplier(e, overrides));
  }

  lemma PositiveIdf(df: nat, n: nat, ln: real -> real)
    requires df <= n && forall x: real | x >= 1.0 :: ln(x) >= 0.0
    ensures Idf(df, n, ln) >= 1.0
  {
    RatioAtLeastOne(n as real + 1.0, df as real + 1.0);
  }

  lemma RatioAtLeastOne(x: real, y: real)
    requires 0.0 < y <= x
    ensures x / y >= 1.0
  {
  }

  lemma ProductNotNegative(x: real, y: real, z: real)
    requires x >= 0.0 && y >= 0.0 && z >= 0.0
    ensures x * y * z >= 0.0
  {
    assert x * y >= 0.0;
  }

  lemma {:induction false} HoldersCount(cs: seq<Cluster>, e: string, k: nat)
    requires k <= |cs|
    ensures |Holders(cs, e, k)| <= k
  {
    if k > 0 {
      HoldersCount(cs, e, k - 1);
    }
  }

  /** Both clusters carry `e` and nothing else linkable. */
  ghost predicate SoleKey(cs: seq<Cluster>, a: nat, b: nat, e: string)
    requires a < |cs| && b < |cs|
  {
    && Linkable(e) && Shared(cs, a, b, e)
    && forall k | Linkable(k) && (k in cs[a].entities || k in cs[b].entities) :: k == e
  }

  lemma {:induction false} SoleKeySums(cs: seq<Cluster>, w: string -> real, ks: seq<string>, a: nat, b: nat, e: string)
    requires a < |cs| && b < |cs| && SoleKey(cs, a, b, e) && Distinct(ks) && forall k | k in ks :: Linkable(k)
    ensures var total := if e in ks then w(e) else 0.0;
      SharedWeight(cs, w, ks, a, b) == ClusterWeight(cs, w, ks, a) == ClusterWeight(cs, w, ks, b) == total
  {
    if ks != [] {
      var front, last := ks[..|ks| - 1], ks[|ks| - 1];
      assert ks == front + [last];
      assert Linkable(last) && last !in front;
      SoleKeySums(cs, w, front, a, b, e);
      assert Shared(cs, a, b, last) <==> last == e;
      assert last in cs[a].entities <==> last == e;
      assert last in cs[b].entities <==> last == e;
    }
  }

  /**
   * Two clusters whose only linkable entity is one weak token both carry saturate the ratio, so they link
   * exactly when the token's graded weight reaches the absolute floor, however close in time they are.
   */
  lemma SoleTokenLinks(cs: seq<Cluster>, w: string -> real, a: nat, b: nat, e: string)
    requires a < b < |cs| && SoleKey(cs, a, b, e) && Strength(e) == Some(Weak)
    ensures NaiveEdge(cs, w, a, b) != [] <==> w(e) >= MIN_SATURATED_SHARED_WEIGHT
  {
    var ks := LinkKeys(cs);
    LinkKeysMeaning(cs);
    assert Mentioned(cs, e);
    SoleKeySums(cs, w, ks, a, b, e);
    FirstStrongMeaning(cs, ks, a, b);
    HeaviestMeaning(cs, w, ks, a, b);
    SelfRatio(w(e));
  }

  lemma SelfRatio(x: real)
    ensures WeightedJaccard(x, x, x) == if x > 0.0 then 1.0 else 0.0
  {
    if x > 0.0 {
      assert x + x - x == x && x / x == 1.0;
    }
  }

  ghost predicate StrictlyIncreasing(ln: real -> real) {
    forall x, y {:trigger ln(x), ln(y)} | 0.0 < x < y :: ln(x) < ln(y)
  }

  function Multiplier(e: string, overrides: map<string, real>): real {
    if e in overrides then overrides[e] else 1.0
  }

  lemma GradeAtLeast(prior: real, idf: real, mult: real, bar: real)
    requires prior > 0.0 && mult > 0.0
    ensures prior * idf * mult >= prior * bar * mult <==> idf >= bar
  {
    var f := prior * mult;
    assert f > 0.0 && prior * idf * mult == f * idf && prior * bar * mult == f * bar;
    if idf < bar {
      assert f * (bar - idf) > 0.0;
    } else {
      assert f * (idf - bar) >= 0.0;
    }
  }

  lemma QuotientAtLeast(x: real, y: real, r: real)
    requires y > 0.0
    ensures x / y >= r <==> x >= r * y
  {
    assert (x / y) * y == x;
    if x / y >= r {
      assert (x / y - r) * y >= 0.0;
    } else {
      assert (r - x / y) * y > 0.0;
    }
  }

  lemma LogAtLeast(ln: real -> real, x: real, y: real)
    requires StrictlyIncreasing(ln) && x > 0.0 && y > 0.0
    ensures ln(x) >= ln(y) <==> x >= y
  {
  }

  /** Its rarity: one over the smoothed share of the candidates that carry it. */
  function Rarity(cs: seq<Cluster>, e: string): real {
    (|cs| as real + 1.0) / (|Holders(cs, e, |cs|)| as real + 1.0)
  }

  /**
   * The share of the candidates past which a lone weak token stops fusing, for any multiplier: where `ratio` is
   * the rarity at which its grade meets the floor, it fuses two clusters carrying nothing else exactly when
   * it is carried by few enough, `df + 1 <= (n + 1) / ratio`.
   */
  lemma {:induction false} CommonTokenFusesIff(cs: seq<Cluster>, overrides: map<string, real>, ln: real -> real, a: nat, b: nat, e: string, ratio: real)
    requires a < b < |cs| && SoleKey(cs, a, b, e) && Strength(e) == Some(Weak) && StrictlyIncreasing(ln)
    requires Multiplier(e, overrides) > 0.0 && ratio > 0.0
    requires GradeOf(NamespacePrior(e), ln(ratio), Multiplier(e, overrides)) == MIN_SATURATED_SHARED_WEIGHT
    ensures NaiveEdge(cs, Grading(cs, overrides, ln), a, b) != [] <==> RareEnough(|cs| as real, |Holders(cs, e, |cs|)| as real, ratio)
  {
    var rare := RareEnough(|cs| as real, |Holders(cs, e, |cs|)| as real, ratio);
    WeakPrior(e);
    FloorMet(NamespacePrior(e), Multiplier(e, overrides), ln, |cs| as real, |Holders(cs, e, |cs|)| as real, ratio);
    GradeReaches(cs, e, overrides, ln, rare);
    FusesWhen(cs, Grading(cs, overrides, ln), a, b, e, rare);
  }

  /** At most one candidate in `ratio` carries it, smoothed as the weights are. */
  predicate RareEnough(n: real, df: real, ratio: real) {
    ratio * (df + 1.0) <= n + 1.0
  }

  lemma FusesWhen(cs: seq<Cluster>, w: string -> real, a: nat, b: nat, e: string, heavy: bool)
    requires a < b < |cs| && SoleKey(cs, a, b, e) && Strength(e) == Some(Weak) && (w(e) >= MIN_SATURATED_SHARED_WEIGHT <==> heavy)
    ensures NaiveEdge(cs, w, a, b) != [] <==> heavy
  {
    SoleTokenLinks(cs, w, a, b, e);
  }

  /** A token's grade: its namespace prior, its smoothed inverse document frequency, and the feedback multiplier. */
  function GradeOf(prior: real, log: real, mult: real): real {
    prior * (log + 1.0) * mult
  }

  lemma GradeReaches(cs: seq<Cluster>, e: string, overrides: map<string, real>, ln: real -> real, heavy: bool)
    requires GradeOf(NamespacePrior(e), ln(Rarity(cs, e)), Multiplier(e, overrides)) >= MIN_SATURATED_SHARED_WEIGHT <==> heavy
    ensures Grading(cs, overrides, ln)(e) >= MIN_SATURATED_SHARED_WEIGHT <==> heavy
  {
    var df, n := |Holders(cs, e, |cs|)|, |cs|;
    assert Grading(cs, overrides, ln)(e) == NamespacePrior(e) * Idf(df, n, ln) * Multiplier(e, overrides);
  }

  lemma WeakPrior(e: string)
    requires Strength(e) == Some(Weak)
    ensures NamespacePrior(e) > 0.0
  {
  }

  lemma FloorMet(prior: real, mult: real, ln: real -> real, n: real, df: real, ratio: real)
    requires StrictlyIncreasing(ln) && prior > 0.0 && mult > 0.0 && n >= 0.0 && df >= 0.0 && ratio > 0.0
    requires GradeOf(prior, ln(ratio), mult) == MIN_SATURATED_SHARED_WEIGHT
    ensures GradeOf(prior, ln((n + 1.0) / (df + 1.0)), mult) >= MIN_SATURATED_SHARED_WEIGHT <==> RareEnough(n, df, ratio)
  {
    GradeAtLeast(prior, ln((n + 1.0) / (df + 1.0)) + 1.0, mult, ln(ratio) + 1.0);
    QuotientAtLeast(n + 1.0, df + 1.0, ratio);
    PositiveRarity(n + 1.0, df + 1.0);
    LogAtLeast(ln, (n + 1.0) / (df + 1.0), ratio);
  }

  lemma PositiveRarity(x: real, y: real)
    requires x > 0.0 && y > 0.0
    ensures x / y > 0.0
  {
  }

  lemma BroadPrior(e: string)
    requires "place:" <= e || "org:" <= e
    ensures Strength(e) == Some(Weak) && 0.7 <= NamespacePrior(e) <= 0.8
  {
    assert e[1] == 'l' || e[0] == 'o';
  }

  lemma BroadGrade(prior: real, log: real, mult: real)
    requires 0.0 <= prior <= 0.8 && 0.0 <= mult <= 1.0 && log < 0.5
    ensures GradeOf(prior, log, mult) < 1.2
  {
    var idf := log + 1.0;
    assert GradeOf(prior, log, mult) == mult * (prior * idf);
    if idf > 0.0 {
      Shrinks(prior, 0.8, idf);
      Shrinks(mult, 1.0, prior * idf);
    } else {
      Opposes(prior, idf);
      Opposes(mult, prior * idf);
    }
  }

  lemma Shrinks(x: real, y: real, f: real)
    requires 0.0 <= x <= y && f >= 0.0
    ensures 0.0 <= x * f <= y * f
  {
    assert (y - x) * f >= 0.0;
  }

  lemma Opposes(x: real, y: real)
    requires x >= 0.0 && y <= 0.0
    ensures x * y <= 0.0
  {
  }

  /**
   * A `place:` or `org:` that recurs across enough of the candidates never fuses two clusters on its own, unless
   * feedback boosts it: enough is a share at which its inverse document frequency falls below one and a half.
   */
  lemma PervasiveTokenNeverFuses(cs: seq<Cluster>, overrides: map<string, real>, ln: real -> real, a: nat, b: nat, e: string)
    requires a < b < |cs| && SoleKey(cs, a, b, e) && ("place:" <= e || "org:" <= e)
    requires 0.0 <= Multiplier(e, overrides) <= 1.0 && ln(Rarity(cs, e)) < 0.5
    ensures NaiveEdge(cs, Grading(cs, overrides, ln), a, b) == []
  {
    BroadPrior(e);
    BroadGrade(NamespacePrior(e), ln(Rarity(cs, e)), Multiplier(e, overrides));
    GradeReaches(cs, e, overrides, ln, false);
    FusesWhen(cs, Grading(cs, overrides, ln), a, b, e, false);
  }

  // ── One token under all the coverage ──

  /** Every candidate carries `e` and nothing else linkable. */
  ghost predicate AllSole(cs: seq<Cluster>, e: string) {
    forall i | 0 <= i < |cs| :: e in cs[i].entities && forall k | k in cs[i].entities && Linkable(k) :: k == e
  }

  lemma {:induction false} AllHold(cs: seq<Cluster>, e: string, k: nat)
    requires AllSole(cs, e) && k <= |cs|
    ensures |Holders(cs, e, k)| == k
  {
    if k > 0 {
      AllHold(cs, e, k - 1);
    }
  }

  /**
   * Where one weak token is all that any candidate carries, however many there are, they link exactly when the
   * token's prior times its multiplier reaches the absolute floor: its inverse document frequency is one.
   */
  lemma UniversalTokenLinksIff(cs: seq<Cluster>, overrides: map<string, real>, ln: real -> real, a: nat, b: nat, e: string)
    requires a < b < |cs| && AllSole(cs, e) && Strength(e) == Some(Weak) && ln(1.0) == 0.0
    ensures NaiveEdge(cs, Grading(cs, overrides, ln), a, b) != []
       <==> NamespacePrior(e) * Multiplier(e, overrides) >= MIN_SATURATED_SHARED_WEIGHT
  {
    var heavy := NamespacePrior(e) * Multiplier(e, overrides) >= MIN_SATURATED_SHARED_WEIGHT;
    AllHold(cs, e, |cs|);
    UniversalGrade(cs, overrides, ln, e);
    GradeReaches(cs, e, overrides, ln, heavy);
    AllSolePair(cs, a, b, e);
    FusesWhen(cs, Grading(cs, overrides, ln), a, b, e, heavy);
  }

  lemma AllSolePair(cs: seq<Cluster>, a: nat, b: nat, e: string)
    requires AllSole(cs, e) && a < |cs| && b < |cs| && Linkable(e)
    ensures SoleKey(cs, a, b, e)
  {
  }

  lemma {:induction false} UniversalGrade(cs: seq<Cluster>, overrides: map<string, real>, ln: real -> real, e: string)
    requires |Holders(cs, e, |cs|)| == |cs| && ln(1.0) == 0.0
    ensures GradeOf(NamespacePrior(e), ln(Rarity(cs, e)), Multiplier(e, overrides)) == NamespacePrior(e) * Multiplier(e, overrides)
  {
    WholeShare(|cs| as real + 1.0);
    Idle(NamespacePrior(e), Multiplier(e, overrides));
  }

  lemma Idle(prior: real, mult: real)
    ensures GradeOf(prior, 0.0, mult) == prior * mult
  {
  }

  lemma WholeShare(x: real)
    requires x > 0.0
    ensures x / x == 1.0
  {
  }

  lemma PriorAtMostOne(e: string)
    ensures NamespacePrior(e) <= 1.0
  {
  }

  /** So without feedback no weak token ever fuses candidates that share it alone, all of them. */
  lemma UniversalTokenAlone(cs: seq<Cluster>, ln: real -> real, e: string)
    requires AllSole(cs, e) && Strength(e) == Some(Weak) && ln(1.0) == 0.0
    ensures GradedEdges(cs, Grading(cs, map[], ln)) == []
  {
    var es := GradedEdges(cs, Grading(cs, map[], ln));
    if es != [] {
      assert es[0] in es;
      EdgesExact(cs, Grading(cs, map[], ln), es[0]);
      PriorAtMostOne(e);
      UniversalTokenLinksIff(cs, map[], ln, es[0].a, es[0].b, e);
      assert false;
    }
  }

  function Outlet(id: Uuid): Cluster {
    Cluster(id, ["place:oslo"], 0, 0, Rss, 1, Message, None, false)
  }

  /** Three outlets covering one happening, with one shared place, at one instant. */
  const COVERAGE := [Outlet(1), Outlet(2), Outlet(3)]

  /** They do not link. */
  lemma SharedPlaceDoesNotLink(ln: real -> real)
    requires ln(1.0) == 0.0
    ensures GradedEdges(COVERAGE, Grading(COVERAGE, map[], ln)) == []
  {
    BroadPrior("place:oslo");
    UniversalTokenAlone(COVERAGE, ln, "place:oslo");
  }
}
