/** Blocking and graded edge scoring over candidate clusters. */
module LinkScoring {
  import opened Ordering
  import opened LinkModel

  const WEAK_EDGE_THRESHOLD: real := 0.35
  const WEAK_MIN_JACCARD: real := 0.2
  const SATURATED_WJ: real := 0.999
  const MIN_SATURATED_SHARED_WEIGHT: real := 1.2
  const TEMPORAL_WINDOW_DAYS: real := 14.0

  // ── Grading one entity ──

  datatype LinkStrength = Strong | Weak

  function Strength(entity: string): Option<LinkStrength> {
    if "cve:" <= entity || "url:" <= entity then Some(Strong)
    else if "user:" <= entity then
      if IsBotLogin(entity[5..]) then None else Some(Weak)
    else if "repo:" <= entity || "place:" <= entity || "org:" <= entity || "person:" <= entity then Some(Weak)
    else None
  }

  predicate IsBotLogin(login: string) {
    |login| >= 5 && login[|login| - 5..] == "[bot]"
  }

  predicate Linkable(entity: string) {
    Strength(entity).Some?
  }

  function NamespacePrior(entity: string): real {
    if "cve:" <= entity || "url:" <= entity || "person:" <= entity then 1.0
    else if "repo:" <= entity || "user:" <= entity then 0.9
    else if "org:" <= entity then 0.8
    else if "place:" <= entity then 0.7
    else 0.0
  }

  /** Smoothed inverse document frequency; `ln` is the natural logarithm. */
  function Idf(df: nat, n: nat, ln: real -> real): real {
    ln((n as real + 1.0) / (df as real + 1.0)) + 1.0
  }

  function EntityWeight(entity: string, df: nat, n: nat, overrides: map<string, real>, ln: real -> real): real {
    var mult := if entity in overrides then overrides[entity] else 1.0;
    NamespacePrior(entity) * Idf(df, n, ln) * mult
  }

  /** Whole seconds between two instants, sign dropped. */
  function SecondsApart(a: Time, b: Time): nat {
    (if a <= b then b - a else a - b) / 1_000_000
  }

  function TemporalCloseness(a: Cluster, b: Cluster): (c: real)
    ensures 0.0 <= c <= 1.0
  {
    var deltaDays := SecondsApart(a.lastEventTime, b.lastEventTime) as real / 86_400.0;
    var c := 1.0 - deltaDays / TEMPORAL_WINDOW_DAYS;
    if c < 0.0 then 0.0 else c
  }

  // ── The reference definition: every pair of clusters, entity by entity ──

  /** The clusters among the first `k` that carry `e`, in order. */
  function Holders(cs: seq<Cluster>, e: string, k: nat): (hs: seq<nat>)
    requires k <= |cs|
    ensures forall h: nat :: h in hs <==> h < k && e in cs[h].entities
    ensures forall p, q | 0 <= p < q < |hs| :: hs[p] < hs[q]
  {
    if k == 0 then []
    else
      var earlier := Holders(cs, e, k - 1);
      assert forall p | 0 <= p < |earlier| :: earlier[p] in earlier;
      earlier + if e in cs[k - 1].entities then [k - 1] else []
  }

  function Mentions(cs: seq<Cluster>): seq<string> {
    if cs == [] then [] else cs[0].entities + Mentions(cs[1..])
  }

  /** The linkable entities of the candidate set, in lexical order. */
  function LinkKeys(cs: seq<Cluster>): seq<string> {
    Keys(StringLe, OnlyLinkable(Mentions(cs)))
  }

  function OnlyLinkable(es: seq<string>): (r: seq<string>)
    ensures forall e :: e in r <==> e in es && Linkable(e)
  {
    if es == [] then [] else (if Linkable(es[0]) then [es[0]] else []) + OnlyLinkable(es[1..])
  }

  ghost predicate Mentioned(cs: seq<Cluster>, e: string) {
    exists i :: 0 <= i < |cs| && e in cs[i].entities
  }

  lemma {:induction false} MentionsAll(cs: seq<Cluster>, e: string)
    ensures e in Mentions(cs) <==> Mentioned(cs, e)
  {
    if cs != [] {
      MentionsAll(cs[1..], e);
      if i :| 0 <= i < |cs| && e in cs[i].entities {
        if i > 0 { assert e in cs[1..][i - 1].entities; }
      }
      if i :| 0 <= i < |cs[1..]| && e in cs[1..][i].entities {
        assert e in cs[i + 1].entities;
      }
    }
  }

  lemma LinkKeysMeaning(cs: seq<Cluster>)
    ensures Ascending(StringLe, LinkKeys(cs))
    ensures forall e :: e in LinkKeys(cs) <==> Linkable(e) && Mentioned(cs, e)
  {
    StringOrder();
    KeysAscending(StringLe, OnlyLinkable(Mentions(cs)));
    forall e ensures e in LinkKeys(cs) <==> Linkable(e) && Mentioned(cs, e) {
      MentionsAll(cs, e);
    }
  }

  /** The weight of sharing `e`, graded by how many clusters carry it. */
  function Grade(cs: seq<Cluster>, e: string, overrides: map<string, real>, ln: real -> real): real {
    EntityWeight(e, |Holders(cs, e, |cs|)|, |cs|, overrides, ln)
  }

  function Grading(cs: seq<Cluster>, overrides: map<string, real>, ln: real -> real): string -> real {
    e => Grade(cs, e, overrides, ln)
  }

  predicate Shared(cs: seq<Cluster>, a: nat, b: nat, e: string)
    requires a < |cs| && b < |cs|
  {
    e in cs[a].entities && e in cs[b].entities
  }

  function ClusterWeight(cs: seq<Cluster>, w: string -> real, ks: seq<string>, i: nat): real
    requires i < |cs|
  {
    if ks == [] then 0.0
    else
      var e := ks[|ks| - 1];
      ClusterWeight(cs, w, ks[..|ks| - 1], i) + if e in cs[i].entities then w(e) else 0.0
  }

  function SharedWeight(cs: seq<Cluster>, w: string -> real, ks: seq<string>, a: nat, b: nat): real
    requires a < |cs| && b < |cs|
  {
    if ks == [] then 0.0
    else
      var e := ks[|ks| - 1];
      SharedWeight(cs, w, ks[..|ks| - 1], a, b) + if Shared(cs, a, b, e) then w(e) else 0.0
  }

  /** The lexically first shared strong key. */
  function FirstStrong(cs: seq<Cluster>, ks: seq<string>, a: nat, b: nat): Option<string>
    requires a < |cs| && b < |cs|
  {
    if ks == [] then None
    else
      var e, earlier := ks[|ks| - 1], FirstStrong(cs, ks[..|ks| - 1], a, b);
      if earlier.None? && Shared(cs, a, b, e) && Strength(e) == Some(Strong) then Some(e) else earlier
  }

  /** The heaviest shared weak entity, the lexically first among equals. */
  function HeaviestWeak(cs: seq<Cluster>, w: string -> real, ks: seq<string>, a: nat, b: nat): Option<(real, string)>
    requires a < |cs| && b < |cs|
  {
    if ks == [] then None
    else
      var e, earlier := ks[|ks| - 1], HeaviestWeak(cs, w, ks[..|ks| - 1], a, b);
      if Shared(cs, a, b, e) && Strength(e) != Some(Strong) && (earlier.None? || w(e) > earlier.value.0)
      then Some((w(e), e)) else earlier
  }

  predicate SharesAny(cs: seq<Cluster>, ks: seq<string>, a: nat, b: nat)
    requires a < |cs| && b < |cs|
  {
    exists e | e in ks :: Shared(cs, a, b, e)
  }

  /** What one candidate pair accumulates. */
  datatype PairAcc = PairAcc(sharedWeight: real, strongKey: Option<string>, bestWeak: Option<(real, string)>)

  function NaiveAcc(cs: seq<Cluster>, w: string -> real, ks: seq<string>, a: nat, b: nat): PairAcc
    requires a < |cs| && b < |cs|
  {
    PairAcc(SharedWeight(cs, w, ks, a, b), FirstStrong(cs, ks, a, b), HeaviestWeak(cs, w, ks, a, b))
  }

  function WeightedJaccard(shared: real, weightA: real, weightB: real): real {
    var union := weightA + weightB - shared;
    if union > 0.0 then shared / union else 0.0
  }

  /** A weak edge's score: overlap weighs 0.7 and timing 0.3. */
  function Blend(overlap: real, closeness: real): real {
    0.7 * overlap + 0.3 * closeness
  }

  /** One accumulated pair as an edge, or `None` when it does not clear the bar. */
  function BuildEdge(cs: seq<Cluster>, a: nat, b: nat, p: PairAcc, weightA: real, weightB: real): (e: Option<Edge>)
    requires a < |cs| && b < |cs|
    ensures e.Some? ==> e.value.a == a && e.value.b == b && (e.value.strong <==> p.strongKey.Some?)
  {
    if p.strongKey.Some? then Some(Edge(a, b, true, 1.0, "shared " + p.strongKey.value))
    else
      var wj := WeightedJaccard(p.sharedWeight, weightA, weightB);
      var score := Blend(wj, TemporalCloseness(cs[a], cs[b]));
      if score < WEAK_EDGE_THRESHOLD || wj < WEAK_MIN_JACCARD then None
      else if wj >= SATURATED_WJ && p.sharedWeight < MIN_SATURATED_SHARED_WEIGHT then None
      else if p.bestWeak.None? then None
      else Some(Edge(a, b, false, score, "shared " + p.bestWeak.value.1))
  }

  function NaiveEdge(cs: seq<Cluster>, w: string -> real, a: nat, b: nat): seq<Edge>
    requires a < |cs| && b < |cs|
  {
    var ks := LinkKeys(cs);
    if SharesAny(cs, ks, a, b) then
      match BuildEdge(cs, a, b, NaiveAcc(cs, w, ks, a, b), ClusterWeight(cs, w, ks, a), ClusterWeight(cs, w, ks, b))
      case Some(e) => [e]
      case None => []
    else []
  }

  /** One entry per pair `a < b`, in ascending order of the pair: the pairs `(a, a + 1 .. b)`. */
  function Row<T>(entry: (nat, nat) -> seq<T>, a: nat, b: nat): seq<T>
    requires a < b
    decreases b
  {
    if b == a + 1 then [] else Row(entry, a, b - 1) + entry(a, b - 1)
  }

  /** All rows below `a` of the triangle on `n` indices. */
  function Rows<T>(entry: (nat, nat) -> seq<T>, n: nat, a: nat): seq<T>
    requires a <= n
  {
    if a == 0 then [] else Rows(entry, n, a - 1) + Row(entry, a - 1, n)
  }

  /** All-pairs scoring, in ascending order of the pair. */
  function GradedEdges(cs: seq<Cluster>, w: string -> real): seq<Edge> {
    Rows(NaiveEntry(cs, w), |cs|, |cs|)
  }

  function NaiveEntry(cs: seq<Cluster>, w: string -> real): (nat, nat) -> seq<Edge> {
    (a: nat, b: nat) => if a < |cs| && b < |cs| then NaiveEdge(cs, w, a, b) else []
  }

  // ── The implementation: an inverted index scattered once ──

  /** The index after the first `i` clusters and the entities `seen` of the next one. */
  ghost predicate IndexIs(cs: seq<Cluster>, i: nat, seen: seq<string>, ks: seq<string>, index: map<string, seq<nat>>)
    requires i <= |cs|
  {
    && Ascending(StringLe, ks)
    && (forall e :: e in index <==> e in ks)
    && (forall e :: e in ks <==> Linkable(e) && (Mentioned(cs[..i], e) || e in seen))
    && (forall e | e in index :: index[e] == Holders(cs, e, i) + if e in seen then [i] else [])
  }

  lemma IndexSkips(cs: seq<Cluster>, i: nat, seen: seq<string>, ks: seq<string>, index: map<string, seq<nat>>, e: string)
    requires i < |cs| && IndexIs(cs, i, seen, ks, index) && !Linkable(e)
    ensures IndexIs(cs, i, seen + [e], ks, index)
  {
  }

  function Posted(index: map<string, seq<nat>>, e: string, i: nat): map<string, seq<nat>> {
    index[e := (if e in index then index[e] else []) + [i]]
  }

  lemma {:induction false} PostedLists(cs: seq<Cluster>, i: nat, seen: seq<string>, index: map<string, seq<nat>>, e: string)
    requires i < |cs| && e !in seen && (e !in index ==> Holders(cs, e, i) == [])
    requires forall x | x in index :: index[x] == Holders(cs, x, i) + if x in seen then [i] else []
    ensures forall x | x in Posted(index, e, i) ::
      Posted(index, e, i)[x] == Holders(cs, x, i) + if x in seen + [e] then [i] else []
  {
    forall x | x in Posted(index, e, i)
      ensures Posted(index, e, i)[x] == Holders(cs, x, i) + if x in seen + [e] then [i] else []
    {
      assert x in seen + [e] <==> x in seen || x == e;
      if x == e && e in index {
        assert index[e] == Holders(cs, e, i);
      }
    }
  }

  lemma IndexAdds(cs: seq<Cluster>, i: nat, seen: seq<string>, ks: seq<string>, index: map<string, seq<nat>>, e: string)
    requires i < |cs| && IndexIs(cs, i, seen, ks, index) && Linkable(e) && e !in seen
    ensures IndexIs(cs, i, seen + [e], AddKey(StringLe, e, ks), Posted(index, e, i))
  {
    assert Ascending(StringLe, AddKey(StringLe, e, ks)) by {
      StringOrder();
      AddKeyAscending(StringLe, e, ks);
    }
    if e !in index {
      NoHolders(cs, e, i);
    }
    PostedLists(cs, i, seen, index, e);
  }

  lemma IndexNext(cs: seq<Cluster>, i: nat, ks: seq<string>, index: map<string, seq<nat>>)
    requires i < |cs| && IndexIs(cs, i, cs[i].entities, ks, index)
    ensures IndexIs(cs, i + 1, [], ks, index)
  {
    forall e ensures Mentioned(cs[..i + 1], e) <==> Mentioned(cs[..i], e) || e in cs[i].entities {
      MentionedNext(cs, i, e);
    }
  }

  method IndexCluster(cs: seq<Cluster>, i: nat, before: seq<string>, index0: map<string, seq<nat>>)
    returns (ks: seq<string>, index: map<string, seq<nat>>)
    requires i < |cs| && Distinct(cs[i].entities) && IndexIs(cs, i, [], before, index0)
    ensures IndexIs(cs, i + 1, [], ks, index)
  {
    ks, index := before, index0;
    var es := cs[i].entities;
    for j := 0 to |es|
      invariant IndexIs(cs, i, es[..j], ks, index)
    {
      var e := es[j];
      assert es[..j + 1] == es[..j] + [e];
      if Linkable(e) {
        IndexAdds(cs, i, es[..j], ks, index, e);
        index := Posted(index, e, i);
        ks := AddKey(StringLe, e, ks);
      } else {
        IndexSkips(cs, i, es[..j], ks, index, e);
      }
    }
    assert es[..|es|] == es;
    IndexNext(cs, i, ks, index);
  }

  method BuildIndex(cs: seq<Cluster>) returns (ks: seq<string>, index: map<string, seq<nat>>)
    requires forall i | 0 <= i < |cs| :: Distinct(cs[i].entities)
    ensures ks == LinkKeys(cs)
    ensures forall e :: e in index <==> e in ks
    ensures forall e | e in index :: index[e] == Holders(cs, e, |cs|)
  {
    ks, index := [], map[];
    for i := 0 to |cs|
      invariant IndexIs(cs, i, [], ks, index)
    {
      ks, index := IndexCluster(cs, i, ks, index);
    }
    IndexComplete(cs, ks, index);
  }

  lemma IndexComplete(cs: seq<Cluster>, ks: seq<string>, index: map<string, seq<nat>>)
    requires IndexIs(cs, |cs|, [], ks, index)
    ensures ks == LinkKeys(cs)
  {
    assert cs[..|cs|] == cs;
    StringOrder();
    LinkKeysMeaning(cs);
    AscendingUnique(StringLe, ks, LinkKeys(cs));
  }

  lemma MentionedNext(cs: seq<Cluster>, i: nat, e: string)
    requires i < |cs|
    ensures Mentioned(cs[..i + 1], e) <==> Mentioned(cs[..i], e) || e in cs[i].entities
  {
    if j :| 0 <= j < |cs[..i]| && e in cs[..i][j].entities {
      assert e in cs[..i + 1][j].entities;
    }
    if e in cs[i].entities {
      assert e in cs[..i + 1][i].entities;
    }
  }

  lemma {:induction false} NoHolders(cs: seq<Cluster>, e: string, i: nat)
    requires i <= |cs| && !Mentioned(cs[..i], e)
    ensures Holders(cs, e, i) == []
  {
    if i > 0 {
      MentionedNext(cs, i - 1, e);
      NoHolders(cs, e, i - 1);
    }
  }

  /** Adds one entity's weight to every cluster carrying it. */
  method AddClusterWeight(cs: seq<Cluster>, w: string -> real, ghost ks: seq<string>, k: nat, e: string,
                          members: seq<nat>, before: seq<real>) returns (after: seq<real>)
    requires k < |ks| && e == ks[k] && members == Holders(cs, e, |cs|) && |before| == |cs|
    requires forall i | 0 <= i < |cs| :: before[i] == ClusterWeight(cs, w, ks[..k], i)
    ensures |after| == |cs|
    ensures forall i | 0 <= i < |cs| :: after[i] == ClusterWeight(cs, w, ks[..k + 1], i)
  {
    after := before;
    for m := 0 to |members|
      invariant |after| == |cs|
      invariant forall i | 0 <= i < |cs| :: after[i] == before[i] + if i in members[..m] then w(e) else 0.0
    {
      assert members[..m + 1] == members[..m] + [members[m]];
      assert members[m] in members;
      after := after[members[m] := after[members[m]] + w(e)];
    }
    assert members[..|members|] == members;
    assert ks[..k + 1][..k] == ks[..k];
  }

  /** The accumulator agrees with the reference on the pair `(a, b)`. */
  ghost predicate AccIs(acc: map<(nat, nat), PairAcc>, cs: seq<Cluster>, w: string -> real, ks: seq<string>, a: nat, b: nat)
    requires a < |cs| && b < |cs|
  {
    && ((a, b) in acc <==> SharesAny(cs, ks, a, b))
    && PairOf(acc, a, b) == NaiveAcc(cs, w, ks, a, b)
  }

  /** The pair's entry, or the empty accumulator. */
  function PairOf(acc: map<(nat, nat), PairAcc>, a: nat, b: nat): PairAcc {
    if (a, b) in acc then acc[(a, b)] else PairAcc(0.0, None, None)
  }

  ghost predicate AccAgrees(acc: map<(nat, nat), PairAcc>, cs: seq<Cluster>, w: string -> real, ks: seq<string>) {
    forall a, b | 0 <= a < b < |cs| :: AccIs(acc, cs, w, ks, a, b)
  }

  /** One shared entity lands on one pair. */
  function Scatter(p: PairAcc, w: string -> real, e: string): PairAcc {
    var heavier := p.(sharedWeight := p.sharedWeight + w(e));
    if Strength(e) == Some(Strong) then
      heavier.(strongKey := if p.strongKey.None? then Some(e) else p.strongKey)
    else if p.bestWeak.None? || w(e) > p.bestWeak.value.0 then
      heavier.(bestWeak := Some((w(e), e)))
    else heavier
  }

  lemma ScatterAgrees(cs: seq<Cluster>, w: string -> real, ks: seq<string>, k: nat, a: nat, b: nat)
    requires k < |ks| && a < |cs| && b < |cs|
    ensures NaiveAcc(cs, w, ks[..k + 1], a, b)
         == if Shared(cs, a, b, ks[k]) then Scatter(NaiveAcc(cs, w, ks[..k], a, b), w, ks[k])
            else NaiveAcc(cs, w, ks[..k], a, b)
    ensures SharesAny(cs, ks[..k + 1], a, b) <==> SharesAny(cs, ks[..k], a, b) || Shared(cs, a, b, ks[k])
  {
    assert ks[..k + 1][..k] == ks[..k];
    assert ks[..k + 1] == ks[..k] + [ks[k]];
  }

  /** Everything below `Bound(ms, p, n)` in `ms` sits before position `p`. */
  ghost function Bound(ms: seq<nat>, p: nat, n: nat): nat {
    if p < |ms| then ms[p] else n
  }

  lemma BoundNext(ms: seq<nat>, p: nat, n: nat)
    requires p < |ms| && forall i, j | 0 <= i < j < |ms| :: ms[i] < ms[j]
    requires forall x | x in ms :: x < n
    ensures forall x | x in ms :: x < Bound(ms, p + 1, n) <==> x < ms[p] || x == ms[p]
  {
    forall x | x in ms ensures x < Bound(ms, p + 1, n) <==> x < ms[p] || x == ms[p] {
      var q :| 0 <= q < |ms| && ms[q] == x;
      if q > p + 1 { assert ms[p + 1] < ms[q]; }
    }
  }

  /** Whether the scatter over `ms`, stopped just before the pair (row `r`, column `c`), has reached `(a, b)`. */
  ghost predicate Reached(ms: seq<nat>, r: nat, c: nat, a: nat, b: nat) {
    a in ms && b in ms && (a < r || (a == r && b < c))
  }

  /** The pairs reached so far have key `k` folded in; the others do not yet. */
  ghost predicate Scattered(acc: map<(nat, nat), PairAcc>, cs: seq<Cluster>, w: string -> real, ks: seq<string>, k: nat,
                            ms: seq<nat>, r: nat, c: nat)
    requires k < |ks|
  {
    forall a, b | 0 <= a < b < |cs| ::
      && (Reached(ms, r, c, a, b) ==> AccIs(acc, cs, w, ks[..k + 1], a, b))
      && (!Reached(ms, r, c, a, b) ==> AccIs(acc, cs, w, ks[..k], a, b))
  }

  lemma {:induction false} ScatteredPair(acc: map<(nat, nat), PairAcc>, acc': map<(nat, nat), PairAcc>, cs: seq<Cluster>, w: string -> real,
                      ks: seq<string>, k: nat, ms: seq<nat>, p: nat, q: nat)
    requires k < |ks| && ms == Holders(cs, ks[k], |cs|) && p < q < |ms|
    requires Scattered(acc, cs, w, ks, k, ms, ms[p], ms[q])
    requires acc' == acc[(ms[p], ms[q]) := Scatter(PairOf(acc, ms[p], ms[q]), w, ks[k])]
    ensures Scattered(acc', cs, w, ks, k, ms, ms[p], Bound(ms, q + 1, |cs|))
  {
    var i, j, c := ms[p], ms[q], Bound(ms, q + 1, |cs|);
    assert i in ms && j in ms;
    BoundNext(ms, q, |cs|);
    forall a, b | 0 <= a < b < |cs|
      ensures Reached(ms, i, c, a, b) ==> AccIs(acc', cs, w, ks[..k + 1], a, b)
      ensures !Reached(ms, i, c, a, b) ==> AccIs(acc', cs, w, ks[..k], a, b)
    {
      if a == i && b == j {
        assert !Reached(ms, i, j, i, j);
        ScatterAgrees(cs, w, ks, k, i, j);
      } else {
        assert Reached(ms, i, c, a, b) <==> Reached(ms, i, j, a, b);
      }
    }
  }

  lemma ScatteredSame(acc: map<(nat, nat), PairAcc>, cs: seq<Cluster>, w: string -> real, ks: seq<string>, k: nat,
                      ms: seq<nat>, r: nat, c: nat, r': nat, c': nat)
    requires k < |ks| && Scattered(acc, cs, w, ks, k, ms, r, c)
    requires forall a, b | 0 <= a < b < |cs| :: Reached(ms, r, c, a, b) <==> Reached(ms, r', c', a, b)
    ensures Scattered(acc, cs, w, ks, k, ms, r', c')
  {
    forall a, b | 0 <= a < b < |cs|
      ensures Reached(ms, r', c', a, b) ==> AccIs(acc, cs, w, ks[..k + 1], a, b)
      ensures !Reached(ms, r', c', a, b) ==> AccIs(acc, cs, w, ks[..k], a, b)
    {
      assert Reached(ms, r, c, a, b) <==> Reached(ms, r', c', a, b);
    }
  }

  /** Scatters one entity onto every pair of clusters that carries it. */
  method ScatterKey(cs: seq<Cluster>, w: string -> real, ghost ks: seq<string>, ghost k: nat, e: string,
                    members: seq<nat>, before: map<(nat, nat), PairAcc>) returns (acc: map<(nat, nat), PairAcc>)
    requires k < |ks| && e == ks[k] && members == Holders(cs, e, |cs|)
    requires AccAgrees(before, cs, w, ks[..k])
    ensures AccAgrees(acc, cs, w, ks[..k + 1])
  {
    acc := before;
    ghost var n := |cs|;
    ScatterBegins(acc, cs, w, ks, k, members);
    for p := 0 to |members|
      invariant Scattered(acc, cs, w, ks, k, members, Bound(members, p, n), 0)
    {
      var i := members[p];
      BoundNext(members, p, n);
      ScatteredSame(acc, cs, w, ks, k, members, i, 0, i, Bound(members, p + 1, n));
      for q := p + 1 to |members|
        invariant Scattered(acc, cs, w, ks, k, members, i, Bound(members, q, n))
      {
        var j := members[q];
        assert j in members;
        ghost var acc' := acc[(i, j) := Scatter(PairOf(acc, i, j), w, e)];
        ScatteredPair(acc, acc', cs, w, ks, k, members, p, q);
        acc := acc[(i, j) := Scatter(PairOf(acc, i, j), w, e)];
      }
      ScatteredSame(acc, cs, w, ks, k, members, i, n, Bound(members, p + 1, n), 0);
    }
    ScatterEnds(acc, cs, w, ks, k, members);
  }

  lemma {:induction false} ScatterBegins(acc: map<(nat, nat), PairAcc>, cs: seq<Cluster>, w: string -> real, ks: seq<string>, k: nat, ms: seq<nat>)
    requires k < |ks| && ms == Holders(cs, ks[k], |cs|)
    requires AccAgrees(acc, cs, w, ks[..k])
    ensures Scattered(acc, cs, w, ks, k, ms, Bound(ms, 0, |cs|), 0)
  {
    forall a, b | 0 <= a < b < |cs|
      ensures !Reached(ms, Bound(ms, 0, |cs|), 0, a, b)
    {
      if a in ms {
        var q :| 0 <= q < |ms| && ms[q] == a;
      }
    }
  }

  lemma {:induction false} ScatterEnds(acc: map<(nat, nat), PairAcc>, cs: seq<Cluster>, w: string -> real, ks: seq<string>, k: nat, ms: seq<nat>)
    requires k < |ks| && ms == Holders(cs, ks[k], |cs|)
    requires Scattered(acc, cs, w, ks, k, ms, |cs|, 0)
    ensures AccAgrees(acc, cs, w, ks[..k + 1])
  {
    var later := ks[..k + 1];
    forall a, b | 0 <= a < b < |cs| ensures AccIs(acc, cs, w, later, a, b) {
      ScatterAgrees(cs, w, ks, k, a, b);
      assert Reached(ms, |cs|, 0, a, b) <==> Shared(cs, a, b, ks[k]);
    }
  }

  /** The edge an accumulated pair yields, if any. */
  function AccEdge(cs: seq<Cluster>, acc: map<(nat, nat), PairAcc>, clusterWeight: seq<real>, a: nat, b: nat): seq<Edge>
    requires a < |cs| == |clusterWeight| && b < |cs|
  {
    if (a, b) in acc then
      match BuildEdge(cs, a, b, acc[(a, b)], clusterWeight[a], clusterWeight[b])
      case Some(e) => [e]
      case None => []
    else []
  }

  lemma {:induction false} AccEdgeNaive(cs: seq<Cluster>, w: string -> real, acc: map<(nat, nat), PairAcc>, clusterWeight: seq<real>, a: nat, b: nat)
    requires a < b < |cs| == |clusterWeight|
    requires AccIs(acc, cs, w, LinkKeys(cs), a, b)
    requires clusterWeight[a] == ClusterWeight(cs, w, LinkKeys(cs), a)
    requires clusterWeight[b] == ClusterWeight(cs, w, LinkKeys(cs), b)
    ensures AccEdge(cs, acc, clusterWeight, a, b) == NaiveEdge(cs, w, a, b)
  {
  }

  method CollectEdges(entry: (nat, nat) -> seq<Edge>, n: nat) returns (edges: seq<Edge>)
    ensures edges == Rows(entry, n, n)
  {
    edges := [];
    for a := 0 to n
      invariant edges == Rows(entry, n, a)
    {
      ghost var earlier := edges;
      for b := a + 1 to n
        invariant edges == earlier + Row(entry, a, b)
      {
        edges := edges + entry(a, b);
      }
    }
  }

  method Accumulate(cs: seq<Cluster>, w: string -> real, ks: seq<string>, index: map<string, seq<nat>>)
    returns (clusterWeight: seq<real>, acc: map<(nat, nat), PairAcc>)
    requires forall e | e in ks :: e in index && index[e] == Holders(cs, e, |cs|)
    ensures |clusterWeight| == |cs| && AccAgrees(acc, cs, w, ks)
    ensures forall i | 0 <= i < |cs| :: clusterWeight[i] == ClusterWeight(cs, w, ks, i)
  {
    clusterWeight := seq(|cs|, _ => 0.0);
    acc := map[];
    for k := 0 to |ks|
      invariant |clusterWeight| == |cs|
      invariant forall i | 0 <= i < |cs| :: clusterWeight[i] == ClusterWeight(cs, w, ks[..k], i)
      invariant AccAgrees(acc, cs, w, ks[..k])
    {
      assert ks[k] in ks;
      clusterWeight := AddClusterWeight(cs, w, ks, k, ks[k], index[ks[k]], clusterWeight);
      acc := ScatterKey(cs, w, ks, k, ks[k], index[ks[k]], acc);
    }
    assert ks[..|ks|] == ks;
  }

  /** The inverted-index scorer produces exactly the all-pairs edges. */
  method ScoreEdges(cs: seq<Cluster>, overrides: map<string, real>, ln: real -> real) returns (edges: seq<Edge>)
    requires forall i | 0 <= i < |cs| :: Distinct(cs[i].entities)
    ensures edges == GradedEdges(cs, Grading(cs, overrides, ln))
  {
    var ks, index := BuildIndex(cs);
    var weight := map e | e in index :: EntityWeight(e, |index[e]|, |cs|, overrides, ln);
    var w := e => if e in weight then weight[e] else 0.0;
    var clusterWeight, acc := Accumulate(cs, w, ks, index);
    edges := CollectEdges(IndexedEntry(cs, acc, clusterWeight), |cs|);
    IndexedIsNaive(cs, w, Grading(cs, overrides, ln), acc, clusterWeight);
  }

  function IndexedEntry(cs: seq<Cluster>, acc: map<(nat, nat), PairAcc>, clusterWeight: seq<real>): (nat, nat) -> seq<Edge>
    requires |clusterWeight| == |cs|
  {
    (a: nat, b: nat) => if a < |cs| && b < |cs| then AccEdge(cs, acc, clusterWeight, a, b) else []
  }

  lemma {:induction false} IndexedIsNaive(cs: seq<Cluster>, v: string -> real, w: string -> real, acc: map<(nat, nat), PairAcc>, clusterWeight: seq<real>)
    requires |clusterWeight| == |cs| && AccAgrees(acc, cs, v, LinkKeys(cs))
    requires forall i | 0 <= i < |cs| :: clusterWeight[i] == ClusterWeight(cs, v, LinkKeys(cs), i)
    requires forall e | e in LinkKeys(cs) :: v(e) == w(e)
    ensures Rows(IndexedEntry(cs, acc, clusterWeight), |cs|, |cs|) == Rows(NaiveEntry(cs, w), |cs|, |cs|)
  {
    forall a: nat, b: nat | a < b < |cs|
      ensures IndexedEntry(cs, acc, clusterWeight)(a, b) == NaiveEntry(cs, w)(a, b)
    {
      assert AccIs(acc, cs, v, LinkKeys(cs), a, b);
      SameGrades(cs, v, w, LinkKeys(cs), a, b);
      SameNaiveEdge(cs, v, w, a, b);
      AccEdgeNaive(cs, v, acc, clusterWeight, a, b);
    }
    RowsEqual(IndexedEntry(cs, acc, clusterWeight), NaiveEntry(cs, w), |cs|, |cs|);
  }

  lemma {:induction false} SameNaiveEdge(cs: seq<Cluster>, v: string -> real, w: string -> real, a: nat, b: nat)
    requires a < |cs| && b < |cs|
    requires NaiveAcc(cs, v, LinkKeys(cs), a, b) == NaiveAcc(cs, w, LinkKeys(cs), a, b)
    requires ClusterWeight(cs, v, LinkKeys(cs), a) == ClusterWeight(cs, w, LinkKeys(cs), a)
    requires ClusterWeight(cs, v, LinkKeys(cs), b) == ClusterWeight(cs, w, LinkKeys(cs), b)
    ensures NaiveEdge(cs, v, a, b) == NaiveEdge(cs, w, a, b)
  {
  }

  lemma {:induction false} SameGrades(cs: seq<Cluster>, v: string -> real, w: string -> real, ks: seq<string>, a: nat, b: nat)
    requires a < |cs| && b < |cs| && forall e | e in ks :: v(e) == w(e)
    ensures ClusterWeight(cs, v, ks, a) == ClusterWeight(cs, w, ks, a)
    ensures ClusterWeight(cs, v, ks, b) == ClusterWeight(cs, w, ks, b)
    ensures NaiveAcc(cs, v, ks, a, b) == NaiveAcc(cs, w, ks, a, b)
  {
    if ks != [] {
      SameGrades(cs, v, w, ks[..|ks| - 1], a, b);
    }
  }

  lemma {:induction false} RowEqual<T>(f: (nat, nat) -> seq<T>, g: (nat, nat) -> seq<T>, a: nat, b: nat)
    requires a < b && forall j: nat | a < j < b :: f(a, j) == g(a, j)
    ensures Row(f, a, b) == Row(g, a, b)
    decreases b
  {
    if b > a + 1 {
      RowEqual(f, g, a, b - 1);
    }
  }

  lemma {:induction false} RowsEqual<T>(f: (nat, nat) -> seq<T>, g: (nat, nat) -> seq<T>, n: nat, a: nat)
    requires a <= n && forall i: nat, j: nat | i < j < n :: f(i, j) == g(i, j)
    ensures Rows(f, n, a) == Rows(g, n, a)
  {
    if a > 0 {
      RowsEqual(f, g, n, a - 1);
      RowEqual(f, g, a - 1, n);
    }
  }
}
