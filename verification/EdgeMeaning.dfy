/** What links two candidates, by prefix, time, number and id: no name of the scorer's own in between. */
module EdgeMeaning {
  import opened Ordering
  import opened LinkModel
  import opened LinkComponents
  import opened Linking
  import LinkScoring
  import LinkScoringLaws
  import LinkLaws

  // ── Which entities link ──

  /** Vulnerabilities and addresses. */
  predicate StrongKey(k: string) {
    "cve:" <= k || "url:" <= k
  }

  /** Repositories, places, organisations, persons, and users that are no bots. */
  predicate WeakKey(k: string) {
    || "repo:" <= k || "place:" <= k || "org:" <= k || "person:" <= k
    || ("user:" <= k && !(|k| >= 10 && k[|k| - 5..] == "[bot]"))
  }

  lemma KeyClasses(k: string)
    ensures LinkScoring.Strength(k) == Some(LinkScoring.Strong) <==> StrongKey(k)
    ensures LinkScoring.Strength(k) == Some(LinkScoring.Weak) <==> WeakKey(k)
    ensures LinkScoring.Linkable(k) <==> StrongKey(k) || WeakKey(k)
  {
    Initials(k);
    if "user:" <= k {
      var login := k[5..];
      assert |k| >= 10 ==> login[|login| - 5..] == k[|k| - 5..];
    }
  }

  /** The prefixes exclude each other. */
  lemma Initials(k: string)
    ensures ("cve:" <= k ==> k[0] == 'c') && ("url:" <= k ==> k[0] == 'u' && k[1] == 'r') && ("user:" <= k ==> k[0] == 'u' && k[1] == 's')
    ensures ("repo:" <= k ==> k[0] == 'r') && ("place:" <= k ==> k[0] == 'p' && k[1] == 'l') && ("org:" <= k ==> k[0] == 'o')
    ensures "person:" <= k ==> k[0] == 'p' && k[1] == 'e'
  {
  }

  ghost predicate Both(cs: seq<Cluster>, a: nat, b: nat, k: string)
    requires a < |cs| && b < |cs|
  {
    k in cs[a].entities && k in cs[b].entities
  }

  // ── Strong edges ──

  ghost predicate FirstStrongKey(cs: seq<Cluster>, a: nat, b: nat, key: string)
    requires a < |cs| && b < |cs|
  {
    StrongKey(key) && Both(cs, a, b, key) && forall k | StrongKey(k) && Both(cs, a, b, k) :: StringLe(key, k)
  }

  lemma SharedStrong(cs: seq<Cluster>, a: nat, b: nat, k: string)
    requires a < |cs| && b < |cs|
    ensures LinkScoringLaws.SharesStrongKey(cs, a, b, k) <==> StrongKey(k) && Both(cs, a, b, k)
  {
    KeyClasses(k);
  }

  lemma FirstStrongAgrees(cs: seq<Cluster>, a: nat, b: nat, key: string)
    requires a < |cs| && b < |cs|
    ensures LinkScoringLaws.FirstSharedStrong(cs, a, b, key) <==> FirstStrongKey(cs, a, b, key)
  {
    forall k ensures LinkScoringLaws.SharesStrongKey(cs, a, b, k) <==> StrongKey(k) && Both(cs, a, b, k) {
      SharedStrong(cs, a, b, k);
    }
  }

  /** Two candidates get a strong edge exactly when both name one vulnerability or address; it scores 1 and cites the lexically first. */
  lemma StrongEdges(cs: seq<Cluster>, w: string -> real, a: nat, b: nat, score: real, reason: string)
    ensures Edge(a, b, true, score, reason) in LinkScoring.GradedEdges(cs, w)
       <==> a < b < |cs| && score == 1.0 && exists key :: reason == "shared " + key && FirstStrongKey(cs, a, b, key)
  {
    LinkScoringLaws.StrongEdgesExact(cs, w, a, b, score, reason);
    if a < b < |cs| {
      forall key ensures LinkScoringLaws.FirstSharedStrong(cs, a, b, key) <==> FirstStrongKey(cs, a, b, key) {
        FirstStrongAgrees(cs, a, b, key);
      }
    }
  }

  // ── Weak edges ──

  /** Whole seconds between the last events, in days. */
  function DaysApart(x: Cluster, y: Cluster): real {
    var micros := if x.lastEventTime <= y.lastEventTime then y.lastEventTime - x.lastEventTime else x.lastEventTime - y.lastEventTime;
    (micros / 1_000_000) as real / 86_400.0
  }

  /** One at the same instant, falling in a straight line to nothing at fourteen days. */
  function Closeness(x: Cluster, y: Cluster): real {
    if DaysApart(x, y) >= 14.0 then 0.0 else 1.0 - DaysApart(x, y) / 14.0
  }

  lemma ClosenessAgrees(x: Cluster, y: Cluster)
    ensures LinkScoring.TemporalCloseness(x, y) == Closeness(x, y)
  {
    FourteenDays(DaysApart(x, y));
  }

  lemma FourteenDays(d: real)
    ensures 1.0 - d / 14.0 < 0.0 <==> d > 14.0
    ensures d == 14.0 ==> 1.0 - d / 14.0 == 0.0
  {
  }

  /** The heaviest weak entity both name, the lexically first among equals. */
  ghost predicate HeaviestWeakKey(cs: seq<Cluster>, w: string -> real, a: nat, b: nat, key: string)
    requires a < |cs| && b < |cs|
  {
    && WeakKey(key) && Both(cs, a, b, key)
    && forall k | WeakKey(k) && Both(cs, a, b, k) :: w(k) < w(key) || (w(k) == w(key) && StringLe(key, k))
  }

  lemma HeaviestAgrees(cs: seq<Cluster>, w: string -> real, a: nat, b: nat, key: string)
    requires a < |cs| && b < |cs|
    ensures LinkScoringLaws.LeadingWeak(cs, w, a, b, key) <==> HeaviestWeakKey(cs, w, a, b, key)
  {
    forall k ensures LinkScoring.Strength(k) == Some(LinkScoring.Weak) <==> WeakKey(k) {
      KeyClasses(k);
    }
  }

  /** Whether the numbers carry a weak edge: enough score, real overlap, and weight of its own where the overlap is total. */
  predicate Carries(overlap: real, shared: real, score: real) {
    score >= 0.35 && overlap >= 0.2 && (overlap >= 0.999 ==> shared >= 1.2)
  }

  /**
   * Two candidates get a weak edge exactly when they name no vulnerability or address in common but some other
   * linking entity, and the numbers carry it: seven tenths overlap, three tenths closeness in time.
   */
  lemma {:induction false} WeakEdges(cs: seq<Cluster>, w: string -> real, a: nat, b: nat, score: real, reason: string)
    ensures Edge(a, b, false, score, reason) in LinkScoring.GradedEdges(cs, w) <==>
      && a < b < |cs| && (forall k :: !(StrongKey(k) && Both(cs, a, b, k)))
      && (exists key :: reason == "shared " + key && HeaviestWeakKey(cs, w, a, b, key))
      && var overlap := LinkScoringLaws.Overlap(cs, w, a, b);
         score == 0.7 * overlap + 0.3 * Closeness(cs[a], cs[b])
         && Carries(overlap, LinkScoring.SharedWeight(cs, w, LinkScoring.LinkKeys(cs), a, b), score)
  {
    LinkScoringLaws.WeakEdgesExact(cs, w, a, b, score, reason);
    if a < b < |cs| {
      forall k ensures LinkScoringLaws.SharesStrongKey(cs, a, b, k) <==> StrongKey(k) && Both(cs, a, b, k) {
        SharedStrong(cs, a, b, k);
      }
      forall key ensures LinkScoringLaws.LeadingWeak(cs, w, a, b, key) <==> HeaviestWeakKey(cs, w, a, b, key) {
        HeaviestAgrees(cs, w, a, b, key);
      }
      ClosenessAgrees(cs[a], cs[b]);
    }
  }

  // ── Grades ──

  /** How telling a kind of entity is. */
  function KindWeight(k: string): real {
    if "cve:" <= k || "url:" <= k || "person:" <= k then 1.0
    else if "repo:" <= k || "user:" <= k then 0.9
    else if "org:" <= k then 0.8
    else if "place:" <= k then 0.7
    else 0.0
  }

  /** The candidates below `n` that name the entity. */
  ghost function Carriers(cs: seq<Cluster>, k: string, n: nat): set<nat>
    requires n <= |cs|
  {
    set i: nat | i < n && k in cs[i].entities
  }

  lemma {:induction false} ListCounted(hs: seq<nat>, s: set<nat>)
    requires (forall p, q | 0 <= p < q < |hs| :: hs[p] < hs[q]) && forall h: nat :: h in hs <==> h in s
    ensures |hs| == |s|
  {
    if hs == [] {
      assert s == {};
    } else {
      var front, last := hs[..|hs| - 1], hs[|hs| - 1];
      assert hs == front + [last];
      ListCounted(front, s - {last});
    }
  }

  lemma HoldersCounted(cs: seq<Cluster>, k: string, n: nat)
    requires n <= |cs|
    ensures |LinkScoring.Holders(cs, k, n)| == |Carriers(cs, k, n)|
  {
    ListCounted(LinkScoring.Holders(cs, k, n), Carriers(cs, k, n));
  }

  /** An entity weighs what its kind does, times its smoothed rarity among the candidates, times any feedback. */
  lemma GradeMeaning(cs: seq<Cluster>, overrides: map<string, real>, ln: real -> real, k: string)
    ensures LinkScoring.Grading(cs, overrides, ln)(k)
         == KindWeight(k) * (ln((|cs| as real + 1.0) / (|Carriers(cs, k, |cs|)| as real + 1.0)) + 1.0)
            * if k in overrides then overrides[k] else 1.0
  {
    HoldersCounted(cs, k, |cs|);
  }

  // ── Corrections from feedback ──

  /** A must-link names the two clusters, in either order. */
  ghost predicate Must(cs: seq<Cluster>, tuning: Tuning, a: nat, b: nat)
    requires a < |cs| && b < |cs|
  {
    (cs[a].id, cs[b].id) in tuning.mustLink || (cs[b].id, cs[a].id) in tuning.mustLink
  }

  /** A cannot-link names them, the smaller id first. */
  ghost predicate Cannot(cs: seq<Cluster>, tuning: Tuning, a: nat, b: nat)
    requires a < |cs| && b < |cs|
  {
    if cs[a].id <= cs[b].id then (cs[a].id, cs[b].id) in tuning.cannotLink else (cs[b].id, cs[a].id) in tuning.cannotLink
  }

  lemma MustAgrees(cs: seq<Cluster>, tuning: Tuning, a: nat, b: nat)
    requires Candidates(cs) && a < b < |cs|
    ensures MustLinked(cs, tuning.mustLink, a, b) <==> Must(cs, tuning, a, b)
  {
    if m :| m in tuning.mustLink && MustPair(cs, m) == Some((a, b)) {
    }
    if (cs[a].id, cs[b].id) in tuning.mustLink {
      PairFound(cs, a, b);
      assert MustPair(cs, (cs[a].id, cs[b].id)) == Some((a, b));
    }
    if (cs[b].id, cs[a].id) in tuning.mustLink {
      PairFound(cs, a, b);
      assert MustPair(cs, (cs[b].id, cs[a].id)) == Some((a, b));
    }
  }

  lemma {:induction false} PairFound(cs: seq<Cluster>, a: nat, b: nat)
    requires Candidates(cs) && a < |cs| && b < |cs|
    ensures IndexOf(cs, cs[a].id) == Some(a) && IndexOf(cs, cs[b].id) == Some(b)
  {
    if IndexOf(cs, cs[a].id).Some? {
      UniqueId(cs, IndexOf(cs, cs[a].id).value, a);
    }
    if IndexOf(cs, cs[b].id).Some? {
      UniqueId(cs, IndexOf(cs, cs[b].id).value, b);
    }
  }

  /** The edges linking works over: a must-link forces a strong edge, a cannot-link otherwise removes the scored one. */
  lemma CorrectedEdges(cs: seq<Cluster>, tuning: Tuning, ln: real -> real, e: Edge)
    requires Candidates(cs) && e.a < e.b < |cs|
    ensures e in LinkEdges(cs, tuning, ln) <==>
      if Must(cs, tuning, e.a, e.b) then e == Edge(e.a, e.b, true, 1.0, "must-link (feedback)")
      else e in LinkScoring.GradedEdges(cs, LinkScoring.Grading(cs, tuning.entityWeights, ln)) && !Cannot(cs, tuning, e.a, e.b)
  {
    var scored := LinkScoring.GradedEdges(cs, LinkScoring.Grading(cs, tuning.entityWeights, ln));
    LinkScoringLaws.ScoredEdgesAscend(cs, LinkScoring.Grading(cs, tuning.entityWeights, ln));
    LinkLaws.ScoredUnique(scored);
    ConstrainedMeaning(scored, cs, tuning, e);
    MustAgrees(cs, tuning, e.a, e.b);
  }
}
