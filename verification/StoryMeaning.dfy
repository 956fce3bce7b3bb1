/** What the stories that linking returns contain, in terms of the candidates, the edges and the prior ids alone. */
module StoryMeaning {
  import opened Ordering
  import opened Sums
  import opened LinkModel
  import opened LinkComponents
  import opened LinkForwarding
  import opened LinkIds
  import opened Linking
  import opened LinkLaws
  import LinkConservation

  /** The candidates a story holds, by position. */
  ghost function Inside(cs: seq<Cluster>, s: LinkedStory): set<nat> {
    set i: nat | i < |cs| && Holds(s, cs[i].id)
  }

  /** The component behind a story. */
  lemma StoryParts(cs: seq<Cluster>, es: seq<Edge>, prior: map<Uuid, Uuid>, delivered: set<Uuid>, mint: nat -> Uuid, s: LinkedStory)
    returns (r: nat)
    requires Candidates(cs) && InRange(es, |cs|) && s in Link(cs, es, prior, delivered, mint).stories
    ensures var lab := StoryLabels(cs, es, prior, delivered);
      && r < |cs| && s == StoryOf(cs, Reasons(es, lab), s.id, Class(lab, r))
      && forall i: nat :: i in Class(lab, r) <==> i in Inside(cs, s)
  {
    var lab := StoryLabels(cs, es, prior, delivered);
    var ks, slot, ids, all := LinkSlots(cs, es, prior, delivered, mint);
    var k :| 0 <= k < |all| && all[k] == s;
    r := SlotHasMember(ks, cs, lab, slot, k);
    SlotMembers(cs, lab, slot, ids, all, k, r);
  }

  lemma SlotMembers(cs: seq<Cluster>, lab: seq<nat>, slot: seq<nat>, ids: seq<Uuid>, all: seq<LinkedStory>, k: nat, r: nat)
    requires Slots(cs, lab, slot, ids, all) && k < |all| && r < |cs| && slot[r] == k
    ensures forall i: nat :: i in Class(lab, r) <==> i in Inside(cs, all[k])
  {
    forall i: nat ensures i in Class(lab, r) <==> i in Inside(cs, all[k]) {
      if i < |cs| {
        assert Holds(all[k], cs[i].id) <==> slot[i] == k;
        assert slot[i] == slot[r] <==> lab[i] == lab[r];
      }
    }
  }

  // ── The rollup ──

  /** The span is the tightest around the members. */
  ghost predicate Spans(cs: seq<Cluster>, members: set<nat>, s: LinkedStory)
    requires forall i | i in members :: i < |cs|
  {
    && (forall i | i in members :: s.firstEventTime <= cs[i].firstEventTime && cs[i].lastEventTime <= s.lastEventTime)
    && (exists i | i in members :: cs[i].firstEventTime == s.firstEventTime)
    && (exists i | i in members :: cs[i].lastEventTime == s.lastEventTime)
  }

  /** Longform as soon as one member is, an announcement if none is but one is that, otherwise a message. */
  ghost predicate DeepestOf(cs: seq<Cluster>, members: set<nat>, s: LinkedStory)
    requires forall i | i in members :: i < |cs|
  {
    && (s.contentDepth == Longform <==> exists i | i in members :: cs[i].contentDepth == Longform)
    && (s.contentDepth == Message <==> forall i | i in members :: cs[i].contentDepth == Message)
  }

  ghost predicate GravestOf(cs: seq<Cluster>, members: set<nat>, s: LinkedStory)
    requires forall i | i in members :: i < |cs|
  {
    && (s.maxSeverity.None? <==> forall i | i in members :: cs[i].maxSeverity.None?)
    && (s.maxSeverity.Some? ==> exists i | i in members :: cs[i].maxSeverity == s.maxSeverity)
    && (forall i | i in members && cs[i].maxSeverity.Some? :: s.maxSeverity.Some? && cs[i].maxSeverity.value <= s.maxSeverity.value)
  }

  lemma {:induction false} DepthAttained(cs: seq<Cluster>, ms: seq<nat>)
    requires ms != [] && forall i | i in ms :: i < |cs|
    ensures MaxDepth(cs, ms) == Longform <==> exists i | i in ms :: cs[i].contentDepth == Longform
    ensures MaxDepth(cs, ms) == Message <==> forall i | i in ms :: cs[i].contentDepth == Message
  {
    assert ms == [ms[0]] + ms[1..] && ms[0] in ms && forall i | i in ms[1..] :: i in ms;
    if |ms| > 1 {
      DepthAttained(cs, ms[1..]);
    }
  }

  lemma {:induction false} SeverityAttained(cs: seq<Cluster>, ms: seq<nat>)
    requires forall i | i in ms :: i < |cs|
    ensures MaxSeverity(cs, ms).None? <==> forall i | i in ms :: cs[i].maxSeverity.None?
  {
    if ms != [] {
      assert ms == [ms[0]] + ms[1..] && ms[0] in ms && forall i | i in ms[1..] :: i in ms;
      SeverityAttained(cs, ms[1..]);
    }
  }

  lemma RolledUp(cs: seq<Cluster>, reasons: seq<Option<string>>, id: Uuid, ms: seq<nat>, members: set<nat>)
    requires |reasons| == |cs| && ms != [] && (forall i | i in ms :: i < |cs|) && (forall i :: i in ms <==> i in members)
    ensures var s := StoryOf(cs, reasons, id, ms);
      && Spans(cs, members, s) && DeepestOf(cs, members, s) && GravestOf(cs, members, s)
      && s.sourceDiversity == |set i | i in members :: cs[i].source| && (s.hasPrivate <==> exists i | i in members :: cs[i].ownPrivate)
  {
    RollupMeaning(cs, ms);
    DepthAttained(cs, ms);
    SeverityAttained(cs, ms);
    assert Sources(cs, ms) == set i | i in members :: cs[i].source;
  }

  /** The total of the members' event counts. */
  ghost function EventsOf(cs: seq<Cluster>, members: set<nat>): int {
    Sum((i: nat) => if i < |cs| && i in members then cs[i].eventCount else 0, Indices(|cs|))
  }

  ghost function CountInside(cs: seq<Cluster>, lab: seq<nat>, c: nat, n: nat): nat -> int
    requires |lab| == |cs|
  {
    (i: nat) => if i < |cs| && i < n && lab[i] == c then cs[i].eventCount else 0
  }

  lemma {:induction false} MembersTotal(cs: seq<Cluster>, lab: seq<nat>, c: nat, n: nat)
    requires |lab| == |cs| && n <= |cs|
    ensures Sum(LinkConservation.EventsAt(cs), Members(lab, c, n)) == Sum(CountInside(cs, lab, c, |cs|), Indices(n))
  {
    if n > 0 {
      MembersTotal(cs, lab, c, n - 1);
      SumIndicesNext(CountInside(cs, lab, c, |cs|), n - 1);
      var last: seq<nat> := if lab[n - 1] == c then [n - 1] else [];
      SumAppend(LinkConservation.EventsAt(cs), Members(lab, c, n - 1), last);
    }
  }

  lemma {:induction false} EventsTotal(cs: seq<Cluster>, lab: seq<nat>, r: nat, members: set<nat>)
    requires |lab| == |cs| && r < |cs| && forall i: nat :: i in Class(lab, r) <==> i in members
    ensures TotalEvents(cs, Class(lab, r)) == EventsOf(cs, members)
  {
    LinkConservation.TotalEventsSum(cs, Class(lab, r), LinkConservation.EventsAt(cs));
    MembersTotal(cs, lab, lab[r], |cs|);
    SumMatches(CountInside(cs, lab, lab[r], |cs|), (i: nat) => if i < |cs| && i in members then cs[i].eventCount else 0,
               Indices(|cs|), Indices(|cs|));
  }

  /** A story's rollup, read off the candidates it holds. */
  lemma StoryRollup(cs: seq<Cluster>, es: seq<Edge>, prior: map<Uuid, Uuid>, delivered: set<Uuid>, mint: nat -> Uuid, s: LinkedStory)
    requires Candidates(cs) && InRange(es, |cs|) && s in Link(cs, es, prior, delivered, mint).stories
    ensures var members := Inside(cs, s);
      && Spans(cs, members, s) && DeepestOf(cs, members, s) && GravestOf(cs, members, s)
      && s.eventCount == EventsOf(cs, members) && s.sourceDiversity == |set i | i in members :: cs[i].source|
      && (s.hasPrivate <==> exists i | i in members :: cs[i].ownPrivate)
  {
    var lab := StoryLabels(cs, es, prior, delivered);
    var r := StoryParts(cs, es, prior, delivered, mint, s);
    RolledUp(cs, Reasons(es, lab), s.id, Class(lab, r), Inside(cs, s));
    EventsTotal(cs, lab, r, Inside(cs, s));
  }

  // ── Order ──

  /** The later last event first, the older id first among equals. */
  ghost predicate NewerFirst(stories: seq<LinkedStory>) {
    forall i, j | 0 <= i < j < |stories| ::
      stories[i].lastEventTime > stories[j].lastEventTime
      || (stories[i].lastEventTime == stories[j].lastEventTime && stories[i].id <= stories[j].id)
  }

  ghost predicate LosersAscend(merges: seq<Merge>) {
    forall i, j | 0 <= i < j < |merges| :: merges[i].loser <= merges[j].loser
  }

  lemma {:induction false} StoriesInOrder(stories: seq<LinkedStory>)
    ensures NewerFirst(Sort(NewestFirst, stories))
  {
    SortSorted(NewestFirst, stories);
  }

  lemma {:induction false} MergesInOrder(merges: seq<Merge>)
    ensures LosersAscend(Sort(MergeLe, merges))
  {
    SortSorted(MergeLe, merges);
  }

  /** Stories come out newest first, and merges by loser. */
  lemma OutputOrder(cs: seq<Cluster>, es: seq<Edge>, prior: map<Uuid, Uuid>, delivered: set<Uuid>, mint: nat -> Uuid)
    requires Candidates(cs) && InRange(es, |cs|)
    ensures NewerFirst(Link(cs, es, prior, delivered, mint).stories) && LosersAscend(Link(cs, es, prior, delivered, mint).merges)
  {
    var lab := StoryLabels(cs, es, prior, delivered);
    OrderedReadable(cs, lab);
    var ks, ids := OrderedClasses(cs, lab), StoryIds(cs, lab, prior, mint);
    StoriesInOrder(AllStories(cs, Reasons(es, lab), ks, ids));
    MergesInOrder(Merges(AllPriorIds(cs, prior, ks), ids, SetOf(ids)));
  }

  lemma MembersByClusterId(cs: seq<Cluster>, es: seq<Edge>, prior: map<Uuid, Uuid>, delivered: set<Uuid>, mint: nat -> Uuid, s: LinkedStory)
    requires Candidates(cs) && InRange(es, |cs|) && s in Link(cs, es, prior, delivered, mint).stories
    ensures forall i, j | 0 <= i < j < |s.clusters| :: s.clusters[i].clusterId <= s.clusters[j].clusterId
  {
    var lab := StoryLabels(cs, es, prior, delivered);
    var r := StoryParts(cs, es, prior, delivered, mint, s);
    SortSorted(RefLe, Refs(cs, Reasons(es, lab), Class(lab, r)));
  }

  // ── Reasons ──

  /** The edge lies inside the story and touches candidate `i`. */
  ghost predicate Within(cs: seq<Cluster>, s: LinkedStory, e: Edge, i: nat) {
    e.a in Inside(cs, s) && e.b in Inside(cs, s) && (e.a == i || e.b == i)
  }

  /** A strong edge before a weak one, then the higher score. */
  predicate Outranks(f: Edge, e: Edge) {
    (f.strong && !e.strong) || (f.strong == e.strong && f.score > e.score)
  }

  ghost predicate GoodReason(cs: seq<Cluster>, es: seq<Edge>, s: LinkedStory, i: nat, reason: string) {
    exists e | e in es && Within(cs, s, e, i) :: e.reason == reason && forall f | f in es && Within(cs, s, f, i) :: !Outranks(f, e)
  }

  ghost predicate Reasoned(cs: seq<Cluster>, es: seq<Edge>, s: LinkedStory, x: ClusterRef, i: nat) {
    && (x.linkReason.None? <==> Inside(cs, s) == {i})
    && (x.linkReason.Some? ==> GoodReason(cs, es, s, i, x.linkReason.value))
  }

  /**
   * A member's stated reason: none exactly when it is the story's only cluster, otherwise that of an edge
   * inside the story that touches it and that no other such edge outranks.
   */
  lemma StoryReasons(cs: seq<Cluster>, es: seq<Edge>, prior: map<Uuid, Uuid>, delivered: set<Uuid>, mint: nat -> Uuid,
                     s: LinkedStory, x: ClusterRef)
    requires Candidates(cs) && InRange(es, |cs|) && s in Link(cs, es, prior, delivered, mint).stories && x in s.clusters
    ensures exists i | i in Inside(cs, s) && cs[i].id == x.clusterId :: Reasoned(cs, es, s, x, i)
  {
    var lab := StoryLabels(cs, es, prior, delivered);
    var r := StoryParts(cs, es, prior, delivered, mint, s);
    var i := RefAt(cs, Reasons(es, lab), Class(lab, r), x);
    assert i in Inside(cs, s);
    ReasonsExplain(cs, es, prior, delivered, i);
    SameClass(lab, r, i, Inside(cs, s));
    ReasonInside(cs, es, lab, s, i);
    assert Reasoned(cs, es, s, x, i);
  }

  lemma RefAt(cs: seq<Cluster>, reasons: seq<Option<string>>, ms: seq<nat>, x: ClusterRef) returns (i: nat)
    requires |reasons| == |cs| && (forall i | i in ms :: i < |cs|) && x in Sort(RefLe, Refs(cs, reasons, ms))
    ensures i in ms && x == ClusterRef(cs[i].id, reasons[i])
  {
    RefsMeaning(cs, reasons, ms, x);
    i :| i in ms && x == ClusterRef(cs[i].id, reasons[i]);
  }

  lemma SameClass(lab: seq<nat>, r: nat, i: nat, members: set<nat>)
    requires r < |lab| && i in Class(lab, r) && forall j: nat :: j in Class(lab, r) <==> j in members
    ensures forall j: nat :: j in members <==> j < |lab| && lab[j] == lab[i]
  {
  }

  lemma ReasonInside(cs: seq<Cluster>, es: seq<Edge>, lab: seq<nat>, s: LinkedStory, i: nat)
    requires |lab| == |cs| && InRange(es, |cs|) && i < |cs|
    requires forall j: nat :: j in Inside(cs, s) <==> j < |lab| && lab[j] == lab[i]
    requires if forall j | 0 <= j < |cs| && lab[j] == lab[i] :: j == i then Reason(es, lab, i) == None
      else exists e | e in es && Explains(e, lab, i) ::
        Reason(es, lab, i) == Some(e.reason) && forall x | x in es && Explains(x, lab, i) :: !Beats(x, Some(e))
    ensures Reason(es, lab, i).None? <==> Inside(cs, s) == {i}
    ensures Reason(es, lab, i).Some? ==> GoodReason(cs, es, s, i, Reason(es, lab, i).value)
  {
    assert i in Inside(cs, s);
    forall e | e in es ensures Explains(e, lab, i) <==> Within(cs, s, e, i) {}
    if forall j | 0 <= j < |cs| && lab[j] == lab[i] :: j == i {
      assert Inside(cs, s) == {i};
    } else {
      var j :| 0 <= j < |cs| && lab[j] == lab[i] && j != i;
      assert j in Inside(cs, s);
      var e :| e in es && Explains(e, lab, i) && Reason(es, lab, i) == Some(e.reason) && forall x | x in es && Explains(x, lab, i) :: !Beats(x, Some(e));
      assert Within(cs, s, e, i);
      forall f | f in es && Within(cs, s, f, i) ensures !Outranks(f, e) {
        assert Explains(f, lab, i) && !Beats(f, Some(e));
      }
    }
  }

  // ── Who keeps the id of a story that splits ──

  /** Some cluster of `s` is older than every cluster of `t`. */
  ghost predicate StartsEarlier(cs: seq<Cluster>, s: LinkedStory, t: LinkedStory) {
    exists i | i in Inside(cs, s) :: forall j | j in Inside(cs, t) :: cs[i].id < cs[j].id
  }

  lemma KeysInOrder(cs: seq<Cluster>, lab: seq<nat>, k: nat, l: nat)
    requires |lab| == |cs| && Candidates(cs) && k < l < |OrderedClasses(cs, lab)|
    ensures OrderedClasses(cs, lab)[k].key <= OrderedClasses(cs, lab)[l].key
  {
    SortSorted(KeyLe, Classes(cs, lab, |lab|));
  }

  /** A slot that comes before the keeper's could have taken the id itself, unless an older one was there for it. */
  lemma {:induction false} EarlierSlotTakesOlder(carried: seq<seq<Uuid>>, mint: nat -> Uuid, k: nat, l: nat, x: Uuid)
    requires l < k < |carried| && x in carried[l] && Ascending(IdLe, carried[l]) && Distinct(Survivors(carried, {}, mint, 0))
    requires Survivors(carried, {}, mint, 0)[k] == x
    ensures Survivors(carried, {}, mint, 0)[l] < x
  {
    var ids := Survivors(carried, {}, mint, 0);
    SurvivorAt(carried, {}, mint, 0, l);
    var before := {} + SetOf(ids[..l]);
    NotYet(ids, k, l);
    FirstUnclaimedOldest(carried[l], before, x);
    assert ids[l] != ids[k];
  }

  lemma NotYet(ids: seq<Uuid>, k: nat, l: nat)
    requires Distinct(ids) && l <= k < |ids|
    ensures ids[k] !in SetOf(ids[..l])
  {
    forall y | y in ids[..l] ensures y != ids[k] {
      var p :| 0 <= p < l && ids[p] == y;
    }
  }

  lemma LaterSlotStartsLater(cs: seq<Cluster>, lab: seq<nat>, ks: seq<Keyed>, slot: seq<nat>, s: LinkedStory, t: LinkedStory, k: nat, l: nat)
    requires |lab| == |cs| && Candidates(cs) && ks == OrderedClasses(cs, lab) && Lists(ks, cs, lab) && Filed(ks, cs, lab, slot) && k < l < |ks|
    requires forall i | 0 <= i < |cs| :: (i in Inside(cs, s) <==> slot[i] == k) && (i in Inside(cs, t) <==> slot[i] == l)
    ensures StartsEarlier(cs, s, t)
  {
    var a := SlotHasMember(ks, cs, lab, slot, k);
    var b := SlotHasMember(ks, cs, lab, slot, l);
    KeysInOrder(cs, lab, k, l);
    SameClassKey(cs, lab, a, b);
    MinIdMeaning(cs, Class(lab, a));
    MinIdMeaning(cs, Class(lab, b));
    var i :| i in Class(lab, a) && cs[i].id == MinId(cs, Class(lab, a));
    assert slot[i] == slot[a] && i in Inside(cs, s);
    forall j | j in Inside(cs, t) ensures cs[i].id < cs[j].id {
      assert slot[j] == slot[b] && j in Class(lab, b);
    }
  }

  /**
   * When a prior story's clusters end up in several stories, the one that keeps its id starts earlier than any
   * other that carries the id, unless that other kept a still older one.
   */
  lemma SplitGoesToFirst(cs: seq<Cluster>, es: seq<Edge>, prior: map<Uuid, Uuid>, delivered: set<Uuid>, mint: nat -> Uuid,
                         s: LinkedStory, t: LinkedStory, i: nat)
    requires Candidates(cs) && InRange(es, |cs|) && Fresh(mint, prior.Values)
    requires var stories := Link(cs, es, prior, delivered, mint).stories; s in stories && t in stories && s != t
    requires i in Inside(cs, t) && cs[i].id in prior && prior[cs[i].id] == s.id
    ensures t.id < s.id || StartsEarlier(cs, s, t)
  {
    var lab := StoryLabels(cs, es, prior, delivered);
    var slot, k, l := TwoSlots(cs, es, prior, delivered, mint, s, t);
    if k < l {
      LaterSlotStartsLater(cs, lab, OrderedClasses(cs, lab), slot, s, t, k, l);
    } else {
      EarlierTakesOlder(cs, lab, slot, prior, mint, k, l, i);
    }
  }

  /** The slots of two stories, and the ids they took. */
  lemma TwoSlots(cs: seq<Cluster>, es: seq<Edge>, prior: map<Uuid, Uuid>, delivered: set<Uuid>, mint: nat -> Uuid, s: LinkedStory, t: LinkedStory)
    returns (slot: seq<nat>, k: nat, l: nat)
    requires Candidates(cs) && InRange(es, |cs|)
    requires var stories := Link(cs, es, prior, delivered, mint).stories; s in stories && t in stories && s != t
    ensures var lab := StoryLabels(cs, es, prior, delivered);
      var ks, ids := OrderedClasses(cs, lab), StoryIds(cs, lab, prior, mint);
      && Lists(ks, cs, lab) && Filed(ks, cs, lab, slot) && k < |ks| && l < |ks| && k != l && ids[k] == s.id && ids[l] == t.id
    ensures forall i | 0 <= i < |cs| :: (i in Inside(cs, s) <==> slot[i] == k) && (i in Inside(cs, t) <==> slot[i] == l)
  {
    var ks, ids, all;
    ks, slot, ids, all := LinkSlots(cs, es, prior, delivered, mint);
    k := PlaceOf(cs, StoryLabels(cs, es, prior, delivered), slot, ids, all, s);
    l := PlaceOf(cs, StoryLabels(cs, es, prior, delivered), slot, ids, all, t);
  }

  lemma PlaceOf(cs: seq<Cluster>, lab: seq<nat>, slot: seq<nat>, ids: seq<Uuid>, all: seq<LinkedStory>, s: LinkedStory) returns (k: nat)
    requires Slots(cs, lab, slot, ids, all) && s in all
    ensures k < |all| && all[k] == s && ids[k] == s.id && forall i | 0 <= i < |cs| :: i in Inside(cs, s) <==> slot[i] == k
  {
    k :| 0 <= k < |all| && all[k] == s;
  }

  lemma EarlierTakesOlder(cs: seq<Cluster>, lab: seq<nat>, slot: seq<nat>, prior: map<Uuid, Uuid>, mint: nat -> Uuid, k: nat, l: nat, i: nat)
    requires |lab| == |cs| && Candidates(cs) && Fresh(mint, prior.Values)
    requires var ks := OrderedClasses(cs, lab); Lists(ks, cs, lab) && Filed(ks, cs, lab, slot) && l < k < |ks|
    requires i < |cs| && slot[i] == l && cs[i].id in prior && prior[cs[i].id] == StoryIds(cs, lab, prior, mint)[k]
    ensures StoryIds(cs, lab, prior, mint)[l] < StoryIds(cs, lab, prior, mint)[k]
  {
    var ks := OrderedClasses(cs, lab);
    var id := StoryIds(cs, lab, prior, mint)[k];
    StoryIdsDistinct(cs, lab, prior, mint);
    SlotCarries(ks, cs, lab, slot, prior, l, id);
    PriorIdsAscending(cs, prior, ks[l].members);
    EarlierSlotTakesOlder(AllPriorIds(cs, prior, ks), mint, k, l, id);
  }
}
