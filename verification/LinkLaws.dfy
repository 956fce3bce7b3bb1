/** The laws of linking: one story per cluster, reasons, id forwarding, and the relink fixpoint. */
module LinkLaws {
  import opened Ordering
  import opened Connectivity
  import opened LinkModel
  import opened LinkComponents
  import opened LinkComponentsLaws
  import opened LinkForwarding
  import opened LinkIds
  import opened Linking
  import LinkScoring
  import LinkScoringLaws

  // ── Components as stories ──

  ghost predicate Holds(s: LinkedStory, id: Uuid) {
    exists r | r in s.clusters :: r.clusterId == id
  }

  /** `slot` files every candidate under its story: `all[k]` has id `ids[k]` and holds exactly the clusters of slot `k`. */
  ghost predicate Slots(cs: seq<Cluster>, lab: seq<nat>, slot: seq<nat>, ids: seq<Uuid>, all: seq<LinkedStory>) {
    && |slot| == |lab| == |cs| && |ids| == |all|
    && (forall i | 0 <= i < |slot| :: slot[i] < |ids|)
    && (forall i, j {:trigger slot[i], slot[j]} | 0 <= i < |slot| && 0 <= j < |slot| :: slot[i] == slot[j] <==> lab[i] == lab[j])
    && (forall k | 0 <= k < |all| :: all[k].id == ids[k])
    && (forall k, i | 0 <= k < |all| && 0 <= i < |slot| :: Holds(all[k], cs[i].id) <==> slot[i] == k)
  }

  lemma OrderedMeaning(cs: seq<Cluster>, lab: seq<nat>)
    requires |lab| == |cs| && Candidates(cs) && Canonical(lab)
    ensures Lists(OrderedClasses(cs, lab), cs, lab)
  {
    OrderedReadable(cs, lab);
    ClassesMeaning(cs, lab, |lab|);
    SortMembers(KeyLe, Classes(cs, lab, |lab|));
    DistinctFromMultiset(Classes(cs, lab, |lab|), OrderedClasses(cs, lab));
  }

  /** `slot` gives every candidate the position of its component in `ks`. */
  ghost predicate Filed(ks: seq<Keyed>, cs: seq<Cluster>, lab: seq<nat>, slot: seq<nat>) {
    && |slot| == |lab| == |cs|
    && (forall i | 0 <= i < |cs| :: slot[i] < |ks| && ks[slot[i]] == ClassKey(cs, lab, i))
    && (forall i, j {:trigger slot[i], slot[j]} | 0 <= i < |cs| && 0 <= j < |cs| :: slot[i] == slot[j] <==> lab[i] == lab[j])
  }

  /** `ks` lists every component once. */
  ghost predicate Lists(ks: seq<Keyed>, cs: seq<Cluster>, lab: seq<nat>) {
    && |lab| == |cs| && Readable(cs, ks) && Distinct(ks)
    && forall x :: x in ks <==> IsClass(cs, lab, |lab|, x)
  }

  /** The position of the component holding `i`. */
  lemma SlotOf(ks: seq<Keyed>, cs: seq<Cluster>, lab: seq<nat>, i: nat) returns (k: nat)
    requires Lists(ks, cs, lab) && Candidates(cs) && Canonical(lab) && i < |cs|
    ensures k < |ks| && ks[k] == ClassKey(cs, lab, i)
  {
    var r := lab[i];
    assert lab[r] == r by { assert lab[lab[i]] == lab[i]; }
    SameClassKey(cs, lab, i, r);
    assert IsClass(cs, lab, |lab|, ClassKey(cs, lab, r));
    k :| 0 <= k < |ks| && ks[k] == ClassKey(cs, lab, r);
  }

  lemma SlotsBelow(ks: seq<Keyed>, cs: seq<Cluster>, lab: seq<nat>, n: nat) returns (slot: seq<nat>)
    requires Lists(ks, cs, lab) && Candidates(cs) && Canonical(lab) && n <= |cs|
    ensures |slot| == n && forall i | 0 <= i < n :: slot[i] < |ks| && ks[slot[i]] == ClassKey(cs, lab, i)
  {
    if n == 0 {
      slot := [];
    } else {
      slot := SlotsBelow(ks, cs, lab, n - 1);
      var k := SlotOf(ks, cs, lab, n - 1);
      slot := slot + [k];
    }
  }

  /** The slot of every candidate. */
  lemma AllSlots(ks: seq<Keyed>, cs: seq<Cluster>, lab: seq<nat>) returns (slot: seq<nat>)
    requires Lists(ks, cs, lab) && Candidates(cs) && Canonical(lab)
    ensures Filed(ks, cs, lab, slot)
  {
    slot := SlotsBelow(ks, cs, lab, |cs|);
    forall i, j | 0 <= i < |cs| && 0 <= j < |cs| ensures slot[i] == slot[j] <==> lab[i] == lab[j] {
      SameClassKey(cs, lab, i, j);
    }
  }

  lemma SlotHasMember(ks: seq<Keyed>, cs: seq<Cluster>, lab: seq<nat>, slot: seq<nat>, k: nat) returns (r: nat)
    requires Lists(ks, cs, lab) && Filed(ks, cs, lab, slot) && k < |ks|
    ensures r < |cs| && slot[r] == k && ks[k] == ClassKey(cs, lab, r)
  {
    assert IsClass(cs, lab, |lab|, ks[k]);
    r :| r < |lab| && lab[r] == r && ks[k] == ClassKey(cs, lab, r);
  }

  lemma RefsMeaning(cs: seq<Cluster>, reasons: seq<Option<string>>, ms: seq<nat>, r: ClusterRef)
    requires |reasons| == |cs| && forall i | i in ms :: i < |cs|
    ensures r in Sort(RefLe, Refs(cs, reasons, ms)) <==> exists i | i in ms :: r == ClusterRef(cs[i].id, reasons[i])
  {
    var rs := Refs(cs, reasons, ms);
    SortMembers(RefLe, rs);
    if r in rs {
      var k :| 0 <= k < |rs| && rs[k] == r;
      assert ms[k] in ms;
    }
    if i :| i in ms && r == ClusterRef(cs[i].id, reasons[i]) {
      var k :| 0 <= k < |ms| && ms[k] == i;
      assert rs[k] == r;
    }
  }

  /** A component's story holds exactly the component's clusters. */
  lemma StoryHolds(cs: seq<Cluster>, lab: seq<nat>, reasons: seq<Option<string>>, s: LinkedStory, r: nat, i: nat)
    requires |lab| == |cs| == |reasons| && Candidates(cs) && r < |cs| && i < |cs|
    requires s.clusters == Sort(RefLe, Refs(cs, reasons, Class(lab, r)))
    ensures Holds(s, cs[i].id) <==> lab[i] == lab[r]
  {
    var ms := Class(lab, r);
    if Holds(s, cs[i].id) {
      var x :| x in s.clusters && x.clusterId == cs[i].id;
      RefsMeaning(cs, reasons, ms, x);
      var j :| j in ms && x == ClusterRef(cs[j].id, reasons[j]);
      UniqueId(cs, i, j);
    }
    if lab[i] == lab[r] {
      assert i in ms;
      RefsMeaning(cs, reasons, ms, ClusterRef(cs[i].id, reasons[i]));
    }
  }

  /** The ids the stories take, in component order. */
  ghost function StoryIds(cs: seq<Cluster>, lab: seq<nat>, prior: map<Uuid, Uuid>, mint: nat -> Uuid): (ids: seq<Uuid>)
    requires |lab| == |cs| && Candidates(cs)
    ensures |ids| == |OrderedClasses(cs, lab)|
  {
    OrderedReadable(cs, lab);
    Survivors(AllPriorIds(cs, prior, OrderedClasses(cs, lab)), {}, mint, 0)
  }

  lemma SlotHolds(ks: seq<Keyed>, cs: seq<Cluster>, lab: seq<nat>, reasons: seq<Option<string>>, slot: seq<nat>, k: nat, s: LinkedStory, i: nat)
    requires Lists(ks, cs, lab) && Filed(ks, cs, lab, slot) && |reasons| == |cs| && Candidates(cs) && k < |ks| && i < |cs|
    requires ks[k] in ks && s.clusters == Sort(RefLe, Refs(cs, reasons, ks[k].members))
    ensures Holds(s, cs[i].id) <==> slot[i] == k
  {
    var r := SlotHasMember(ks, cs, lab, slot, k);
    StoryHolds(cs, lab, reasons, s, r, i);
  }

  lemma SlotsOf(ks: seq<Keyed>, cs: seq<Cluster>, lab: seq<nat>, reasons: seq<Option<string>>, ids: seq<Uuid>, all: seq<LinkedStory>) returns (slot: seq<nat>)
    requires Lists(ks, cs, lab) && |reasons| == |cs| && Candidates(cs) && Canonical(lab)
    requires |ids| == |ks| && all == AllStories(cs, reasons, ks, ids)
    ensures Slots(cs, lab, slot, ids, all) && Filed(ks, cs, lab, slot)
  {
    slot := AllSlots(ks, cs, lab);
    forall k, i | 0 <= k < |all| && 0 <= i < |slot| ensures Holds(all[k], cs[i].id) <==> slot[i] == k {
      SlotHolds(ks, cs, lab, reasons, slot, k, all[k], i);
    }
  }

  /** The components of an assignment, their stories in the same order, and the slot of every candidate. */
  lemma LinkSlots(cs: seq<Cluster>, es: seq<Edge>, prior: map<Uuid, Uuid>, delivered: set<Uuid>, mint: nat -> Uuid)
    returns (ks: seq<Keyed>, slot: seq<nat>, ids: seq<Uuid>, all: seq<LinkedStory>)
    requires Candidates(cs) && InRange(es, |cs|)
    ensures var lab := StoryLabels(cs, es, prior, delivered);
      && ks == OrderedClasses(cs, lab) && Lists(ks, cs, lab) && Filed(ks, cs, lab, slot)
      && ids == StoryIds(cs, lab, prior, mint) && all == AllStories(cs, Reasons(es, lab), ks, ids) && Slots(cs, lab, slot, ids, all)
    ensures multiset(all) == multiset(Link(cs, es, prior, delivered, mint).stories)
    ensures forall s :: s in Link(cs, es, prior, delivered, mint).stories <==> s in all
  {
    var lab := StoryLabels(cs, es, prior, delivered);
    OrderedMeaning(cs, lab);
    ks, ids := OrderedClasses(cs, lab), StoryIds(cs, lab, prior, mint);
    all := AllStories(cs, Reasons(es, lab), ks, ids);
    slot := SlotsOf(ks, cs, lab, Reasons(es, lab), ids, all);
    PermutedMembers(all, Link(cs, es, prior, delivered, mint).stories);
  }

  ghost predicate Together(stories: seq<LinkedStory>, x: Uuid, y: Uuid) {
    exists s | s in stories :: Holds(s, x) && Holds(s, y)
  }

  lemma SlotsShare(cs: seq<Cluster>, lab: seq<nat>, slot: seq<nat>, ids: seq<Uuid>, all: seq<LinkedStory>, i: nat, j: nat)
    requires Slots(cs, lab, slot, ids, all) && i < |cs| && j < |cs|
    ensures lab[i] == lab[j] <==> Together(all, cs[i].id, cs[j].id)
  {
    assert all[slot[i]] in all && Holds(all[slot[i]], cs[i].id);
    if t :| t in all && Holds(t, cs[i].id) && Holds(t, cs[j].id) {
      var k :| 0 <= k < |all| && all[k] == t;
      assert slot[i] == k && slot[j] == k;
    }
  }

  /** Two candidates share a label exactly when one story holds both. */
  lemma SameStory(cs: seq<Cluster>, es: seq<Edge>, prior: map<Uuid, Uuid>, delivered: set<Uuid>, mint: nat -> Uuid, i: nat, j: nat)
    requires Candidates(cs) && InRange(es, |cs|) && i < |cs| && j < |cs|
    ensures var lab := StoryLabels(cs, es, prior, delivered);
      lab[i] == lab[j] <==> Together(Link(cs, es, prior, delivered, mint).stories, cs[i].id, cs[j].id)
  {
    var ks, slot, ids, all := LinkSlots(cs, es, prior, delivered, mint);
    SlotsShare(cs, StoryLabels(cs, es, prior, delivered), slot, ids, all, i, j);
    SameTogether(all, Link(cs, es, prior, delivered, mint).stories, cs[i].id, cs[j].id);
  }

  lemma SameTogether(a: seq<LinkedStory>, b: seq<LinkedStory>, x: Uuid, y: Uuid)
    requires forall s :: s in a <==> s in b
    ensures Together(a, x, y) <==> Together(b, x, y)
  {
  }

  lemma StoryIdsDistinct(cs: seq<Cluster>, lab: seq<nat>, prior: map<Uuid, Uuid>, mint: nat -> Uuid)
    requires |lab| == |cs| && Candidates(cs) && Fresh(mint, prior.Values)
    ensures Distinct(StoryIds(cs, lab, prior, mint))
  {
    OrderedReadable(cs, lab);
    var carried := AllPriorIds(cs, prior, OrderedClasses(cs, lab));
    FreshForCarried(carried, prior, mint);
    SurvivorsDistinct(carried, {}, AllCarried(carried), mint, 0);
  }

  lemma FreshForCarried(carried: seq<seq<Uuid>>, prior: map<Uuid, Uuid>, mint: nat -> Uuid)
    requires Fresh(mint, prior.Values) && forall k, id | 0 <= k < |carried| && id in carried[k] :: id in prior.Values
    ensures Fresh(mint, AllCarried(carried))
  {
    forall id | id in AllCarried(carried) ensures id in prior.Values {
      var k: nat :| k < |carried| && id in carried[k];
    }
  }

  /** Story ids are unique within an assignment. */
  lemma StoryIdsUnique(cs: seq<Cluster>, es: seq<Edge>, prior: map<Uuid, Uuid>, delivered: set<Uuid>, mint: nat -> Uuid,
                       s: LinkedStory, t: LinkedStory)
    requires Candidates(cs) && InRange(es, |cs|) && Fresh(mint, prior.Values)
    requires s in Link(cs, es, prior, delivered, mint).stories && t in Link(cs, es, prior, delivered, mint).stories
    requires s.id == t.id
    ensures s == t
  {
    var ks, slot, ids, all := LinkSlots(cs, es, prior, delivered, mint);
    StoryIdsDistinct(cs, StoryLabels(cs, es, prior, delivered), prior, mint);
    OneStoryPerId(ids, all, s, t);
  }

  lemma OneStoryPerId(ids: seq<Uuid>, all: seq<LinkedStory>, s: LinkedStory, t: LinkedStory)
    requires |ids| == |all| && Distinct(ids) && forall k | 0 <= k < |all| :: all[k].id == ids[k]
    requires s in all && t in all && s.id == t.id
    ensures s == t
  {
    var k :| 0 <= k < |all| && all[k] == s;
    var l :| 0 <= l < |all| && all[l] == t;
    assert ids[k] == ids[l];
  }

  // ── Relinking ──

  /** The prior maps every candidate to the story the assignment put it in. */
  ghost predicate Follows(prior: map<Uuid, Uuid>, a: Assignment) {
    forall s, r | s in a.stories && r in s.clusters :: r.clusterId in prior && prior[r.clusterId] == s.id
  }

  /** Every candidate's next prior story is the id of its slot. */
  ghost predicate Named(cs: seq<Cluster>, slot: seq<nat>, ids: seq<Uuid>, next: map<Uuid, Uuid>) {
    |slot| == |cs| && forall i | 0 <= i < |cs| :: slot[i] < |ids| && cs[i].id in next && next[cs[i].id] == ids[slot[i]]
  }

  lemma FollowsNamed(cs: seq<Cluster>, lab: seq<nat>, slot: seq<nat>, ids: seq<Uuid>, all: seq<LinkedStory>, a: Assignment, next: map<Uuid, Uuid>)
    requires Slots(cs, lab, slot, ids, all) && Follows(next, a) && forall s :: s in a.stories <==> s in all
    ensures Named(cs, slot, ids, next)
  {
    forall i | 0 <= i < |cs| ensures cs[i].id in next && next[cs[i].id] == ids[slot[i]] {
      assert all[slot[i]] in all && Holds(all[slot[i]], cs[i].id);
      var r :| r in all[slot[i]].clusters && r.clusterId == cs[i].id;
    }
  }

  /** Named by distinct ids, the candidates' next prior stories tell them apart exactly as their labels do. */
  ghost predicate Tracks(cs: seq<Cluster>, lab: seq<nat>, next: map<Uuid, Uuid>) {
    && |lab| == |cs|
    && (forall i | 0 <= i < |cs| :: cs[i].id in next)
    && forall i, j {:trigger lab[i], lab[j]} | 0 <= i < |cs| && 0 <= j < |cs| :: lab[i] == lab[j] <==> next[cs[i].id] == next[cs[j].id]
  }

  lemma NamedTracks(cs: seq<Cluster>, lab: seq<nat>, slot: seq<nat>, ids: seq<Uuid>, all: seq<LinkedStory>, next: map<Uuid, Uuid>)
    requires Slots(cs, lab, slot, ids, all) && Named(cs, slot, ids, next) && Distinct(ids)
    ensures Tracks(cs, lab, next)
  {
    forall i, j | 0 <= i < |cs| && 0 <= j < |cs| ensures lab[i] == lab[j] <==> next[cs[i].id] == next[cs[j].id] {
      assert slot[i] == slot[j] <==> lab[i] == lab[j];
    }
  }

  lemma TracksMarks(cs: seq<Cluster>, lab: seq<nat>, next: map<Uuid, Uuid>, delivered: set<Uuid>)
    requires Tracks(cs, lab, next)
    ensures MarksStories(lab, OwnStories(cs, next, delivered))
  {
    var own := OwnStories(cs, next, delivered);
    forall i, j | 0 <= i < |lab| && 0 <= j < |lab| && lab[i] == lab[j] ensures own[i] == own[j] {}
    forall i, j | 0 <= i < |lab| && 0 <= j < |lab| && lab[i] != lab[j] ensures own[i] !! own[j] {}
  }

  /** A component whose clusters all follow one story carries exactly that id. */
  lemma CarriesOwnId(cs: seq<Cluster>, next: map<Uuid, Uuid>, ms: seq<nat>, id: Uuid)
    requires ms != [] && forall i | i in ms :: i < |cs| && cs[i].id in next && next[cs[i].id] == id
    ensures PriorIds(cs, next, ms) == [id]
  {
    PriorIdsAscending(cs, next, ms);
    assert ms[0] in ms;
    assert forall x :: x in PriorIds(cs, next, ms) <==> x in [id];
    AscendingUnique(IdLe, PriorIds(cs, next, ms), [id]);
  }

  lemma NamedCarries(ks: seq<Keyed>, cs: seq<Cluster>, lab: seq<nat>, slot: seq<nat>, ids: seq<Uuid>, next: map<Uuid, Uuid>, k: nat)
    requires Lists(ks, cs, lab) && Filed(ks, cs, lab, slot) && Named(cs, slot, ids, next) && k < |ks| == |ids|
    ensures ks[k] in ks && PriorIds(cs, next, ks[k].members) == [ids[k]]
  {
    var r := SlotHasMember(ks, cs, lab, slot, k);
    forall i | i in ks[k].members ensures cs[i].id in next && next[cs[i].id] == ids[k] {
      assert slot[i] == slot[r];
    }
    CarriesOwnId(cs, next, ks[k].members, ids[k]);
  }

  /** On the same components, a naming prior gives each its id back: nothing merged, nothing minted. */
  lemma NamedForwards(ks: seq<Keyed>, cs: seq<Cluster>, lab: seq<nat>, reasons: seq<Option<string>>, slot: seq<nat>, ids: seq<Uuid>,
                      next: map<Uuid, Uuid>, mint: nat -> Uuid)
    requires Lists(ks, cs, lab) && Filed(ks, cs, lab, slot) && |reasons| == |cs| && Named(cs, slot, ids, next) && Distinct(ids) && |ids| == |ks|
    ensures Forward(cs, ks, reasons, next, mint) == Assignment(Sort(NewestFirst, AllStories(cs, reasons, ks, ids)), [])
  {
    var carried := AllPriorIds(cs, next, ks);
    forall k | 0 <= k < |ks| ensures carried[k] == [ids[k]] {
      NamedCarries(ks, cs, lab, slot, ids, next, k);
    }
    SelfCarried(carried, ids, {}, mint, 0);
    SelfMerges(carried, ids, SetOf(ids));
  }

  /** Every edge crossing two stories of `next` has both of them delivered. */
  ghost predicate CrossingsDelivered(cs: seq<Cluster>, es: seq<Edge>, next: map<Uuid, Uuid>, delivered: set<Uuid>)
    requires InRange(es, |cs|) && forall i | 0 <= i < |cs| :: cs[i].id in next
  {
    forall e | e in es && next[cs[e.a].id] != next[cs[e.b].id] ::
      next[cs[e.a].id] in delivered && next[cs[e.b].id] in delivered
  }

  lemma RelinkLabels(cs: seq<Cluster>, es: seq<Edge>, own: seq<set<Uuid>>, next: map<Uuid, Uuid>, delivered: set<Uuid>)
    requires |own| == |cs| && InRange(es, |cs|) && Tracks(cs, FinalLabels(own, es), next)
    ensures FinalLabels(OwnStories(cs, next, delivered), es) == FinalLabels(own, es) <==> CrossingsDelivered(cs, es, next, delivered)
  {
    var lab, marks := FinalLabels(own, es), OwnStories(cs, next, delivered);
    TracksMarks(cs, lab, next, delivered);
    RelinkIff(own, marks, es);
    forall e | e in es
      ensures lab[e.a] != lab[e.b] <==> next[cs[e.a].id] != next[cs[e.b].id]
      ensures marks[e.a] != {} <==> next[cs[e.a].id] in delivered
      ensures marks[e.b] != {} <==> next[cs[e.b].id] in delivered
    {
    }
  }

  /** Equal stories mean equal partitions. */
  lemma StoriesFixLabels(cs: seq<Cluster>, es: seq<Edge>, prior: map<Uuid, Uuid>, delivered: set<Uuid>, mint: nat -> Uuid,
                         next: map<Uuid, Uuid>, nextDelivered: set<Uuid>, nextMint: nat -> Uuid)
    requires Candidates(cs) && InRange(es, |cs|)
    requires Link(cs, es, next, nextDelivered, nextMint).stories == Link(cs, es, prior, delivered, mint).stories
    ensures StoryLabels(cs, es, next, nextDelivered) == StoryLabels(cs, es, prior, delivered)
  {
    var lab, again := StoryLabels(cs, es, prior, delivered), StoryLabels(cs, es, next, nextDelivered);
    forall i, j | 0 <= i < |cs| && 0 <= j < |cs| ensures lab[i] == lab[j] <==> again[i] == again[j] {
      SameStory(cs, es, prior, delivered, mint, i, j);
      SameStory(cs, es, next, nextDelivered, nextMint, i, j);
    }
    CanonicalUnique(again, lab);
  }

  /**
   * Feeding an assignment back as the prior reproduces exactly its stories, with no merges and whatever the
   * minter, if and only if every edge still crossing two stories has both of them delivered.
   */
  lemma RelinkFixpoint(cs: seq<Cluster>, es: seq<Edge>, prior: map<Uuid, Uuid>, delivered: set<Uuid>, mint: nat -> Uuid,
                       next: map<Uuid, Uuid>, nextDelivered: set<Uuid>, nextMint: nat -> Uuid)
    requires Candidates(cs) && InRange(es, |cs|) && Fresh(mint, prior.Values)
    requires Follows(next, Link(cs, es, prior, delivered, mint))
    ensures Tracks(cs, StoryLabels(cs, es, prior, delivered), next)
    ensures Link(cs, es, next, nextDelivered, nextMint) == Assignment(Link(cs, es, prior, delivered, mint).stories, [])
       <==> CrossingsDelivered(cs, es, next, nextDelivered)
  {
    var lab := StoryLabels(cs, es, prior, delivered);
    var ks, slot, ids, all := LinkSlots(cs, es, prior, delivered, mint);
    FollowsNamed(cs, lab, slot, ids, all, Link(cs, es, prior, delivered, mint), next);
    StoryIdsDistinct(cs, lab, prior, mint);
    NamedTracks(cs, lab, slot, ids, all, next);
    RelinkLabels(cs, es, OwnStories(cs, prior, delivered), next, nextDelivered);
    NamedForwards(ks, cs, lab, Reasons(es, lab), slot, ids, next, nextMint);
    if Link(cs, es, next, nextDelivered, nextMint).stories == Link(cs, es, prior, delivered, mint).stories {
      StoriesFixLabels(cs, es, prior, delivered, mint, next, nextDelivered, nextMint);
    }
  }

  /** Once everything shown is delivered, relinking the same candidates changes nothing. */
  lemma DeliveredRelinkFixpoint(cs: seq<Cluster>, es: seq<Edge>, prior: map<Uuid, Uuid>, delivered: set<Uuid>, mint: nat -> Uuid,
                                next: map<Uuid, Uuid>, nextDelivered: set<Uuid>, nextMint: nat -> Uuid)
    requires Candidates(cs) && InRange(es, |cs|) && Fresh(mint, prior.Values)
    requires Follows(next, Link(cs, es, prior, delivered, mint))
    requires forall s | s in Link(cs, es, prior, delivered, mint).stories :: s.id in nextDelivered
    ensures Link(cs, es, next, nextDelivered, nextMint) == Assignment(Link(cs, es, prior, delivered, mint).stories, [])
  {
    RelinkFixpoint(cs, es, prior, delivered, mint, next, nextDelivered, nextMint);
    var ks, slot, ids, all := LinkSlots(cs, es, prior, delivered, mint);
    FollowsNamed(cs, StoryLabels(cs, es, prior, delivered), slot, ids, all, Link(cs, es, prior, delivered, mint), next);
    NamedDelivered(cs, StoryLabels(cs, es, prior, delivered), slot, ids, all, next, nextDelivered);
  }

  lemma NamedDelivered(cs: seq<Cluster>, lab: seq<nat>, slot: seq<nat>, ids: seq<Uuid>, all: seq<LinkedStory>, next: map<Uuid, Uuid>, nextDelivered: set<Uuid>)
    requires Slots(cs, lab, slot, ids, all) && Named(cs, slot, ids, next) && forall s | s in all :: s.id in nextDelivered
    ensures forall i: nat | i < |cs| :: cs[i].id in next && next[cs[i].id] in nextDelivered
  {
    forall i: nat | i < |cs| ensures cs[i].id in next && next[cs[i].id] in nextDelivered {
      assert all[slot[i]] in all;
    }
  }

  lemma NothingDeliveredNoCrossing(cs: seq<Cluster>, es: seq<Edge>, prior: map<Uuid, Uuid>, e: Edge)
    requires InRange(es, |cs|) && e in es
    ensures StoryLabels(cs, es, prior, {})[e.a] == StoryLabels(cs, es, prior, {})[e.b]
  {
    var own := OwnStories(cs, prior, {});
    if FinalLabels(own, es)[e.a] != FinalLabels(own, es)[e.b] {
      var s, t := CrossingSeparatesDelivered(own, es, e);
    }
  }

  /** With no delivered story in the prior, relinking is stable under any later delivered marks. */
  lemma UndeliveredRelinkFixpoint(cs: seq<Cluster>, es: seq<Edge>, prior: map<Uuid, Uuid>, mint: nat -> Uuid,
                                  next: map<Uuid, Uuid>, nextDelivered: set<Uuid>, nextMint: nat -> Uuid)
    requires Candidates(cs) && InRange(es, |cs|) && Fresh(mint, prior.Values)
    requires Follows(next, Link(cs, es, prior, {}, mint))
    ensures Link(cs, es, next, nextDelivered, nextMint) == Assignment(Link(cs, es, prior, {}, mint).stories, [])
  {
    RelinkFixpoint(cs, es, prior, {}, mint, next, nextDelivered, nextMint);
    forall e | e in es ensures next[cs[e.a].id] == next[cs[e.b].id] {
      NothingDeliveredNoCrossing(cs, es, prior, e);
    }
  }

  // ── Every prior id is accounted for ──

  ghost predicate NamesStory(a: Assignment, id: Uuid) {
    exists s | s in a.stories :: s.id == id
  }

  /** Clusters `i` and `j` share a story, the first coming from the merge's loser and the second from its survivor. */
  ghost predicate BothCarried(cs: seq<Cluster>, lab: seq<nat>, prior: map<Uuid, Uuid>, m: Merge, i: nat, j: nat)
    requires |lab| == |cs|
  {
    && i < |cs| && j < |cs| && lab[i] == lab[j]
    && cs[i].id in prior && cs[j].id in prior && prior[cs[i].id] == m.loser && prior[cs[j].id] == m.survivor
  }

  /** The prior ids the component in slot `k` carries are those of its clusters. */
  lemma SlotCarries(ks: seq<Keyed>, cs: seq<Cluster>, lab: seq<nat>, slot: seq<nat>, prior: map<Uuid, Uuid>, k: nat, id: Uuid)
    requires Lists(ks, cs, lab) && Filed(ks, cs, lab, slot) && k < |ks|
    ensures id in AllPriorIds(cs, prior, ks)[k]
       <==> exists i: nat :: i < |cs| && slot[i] == k && cs[i].id in prior && prior[cs[i].id] == id
  {
    var r := SlotHasMember(ks, cs, lab, slot, k);
    var ms := ks[k].members;
    assert ks[k] in ks;
    if id in PriorIds(cs, prior, ms) {
      var i :| i in ms && cs[i].id in prior && prior[cs[i].id] == id;
      assert lab[i] == lab[r];
    }
    if i: nat :| i < |cs| && slot[i] == k && cs[i].id in prior && prior[cs[i].id] == id {
      assert slot[i] == slot[r];
      assert i in ms;
    }
  }

  lemma IdsOfAll(all: seq<LinkedStory>, ids: seq<Uuid>, a: Assignment, id: Uuid)
    requires |all| == |ids| && (forall k | 0 <= k < |all| :: all[k].id == ids[k]) && forall s :: s in a.stories <==> s in all
    ensures NamesStory(a, id) <==> id in ids
  {
    if id in ids {
      var k :| 0 <= k < |ids| && ids[k] == id;
      assert all[k] in all;
    }
  }

  /** The merges of an assignment, and what the claiming walk guarantees of them. */
  lemma LinkMerges(cs: seq<Cluster>, es: seq<Edge>, prior: map<Uuid, Uuid>, delivered: set<Uuid>, mint: nat -> Uuid)
    returns (carried: seq<seq<Uuid>>, ids: seq<Uuid>)
    requires Candidates(cs) && InRange(es, |cs|) && Fresh(mint, prior.Values)
    ensures var lab := StoryLabels(cs, es, prior, delivered);
      && Readable(cs, OrderedClasses(cs, lab)) && carried == AllPriorIds(cs, prior, OrderedClasses(cs, lab))
      && ids == StoryIds(cs, lab, prior, mint)
    ensures forall m :: m in Link(cs, es, prior, delivered, mint).merges <==> m in Merges(carried, ids, SetOf(ids))
    ensures Accounted(carried, ids)
  {
    var lab := StoryLabels(cs, es, prior, delivered);
    var ks := OrderedClasses(cs, lab);
    OrderedReadable(cs, lab);
    ids, carried := StoryIds(cs, lab, prior, mint), AllPriorIds(cs, prior, ks);
    SortMembers(MergeLe, Merges(carried, ids, SetOf(ids)));
    forall k | 0 <= k < |carried| ensures Ascending(IdLe, carried[k]) {
      PriorIdsAscending(cs, prior, ks[k].members);
    }
    FreshForCarried(carried, prior, mint);
    ForwardingAccounts(carried, mint);
  }

  /**
   * The prior story of a candidate survives as some story's id, or was absorbed into the very story that now
   * holds the candidate; never both.
   */
  lemma PriorIdAccounted(cs: seq<Cluster>, es: seq<Edge>, prior: map<Uuid, Uuid>, delivered: set<Uuid>, mint: nat -> Uuid, i: nat)
    requires Candidates(cs) && InRange(es, |cs|) && Fresh(mint, prior.Values) && i < |cs| && cs[i].id in prior
    ensures var a, id := Link(cs, es, prior, delivered, mint), prior[cs[i].id];
      if NamesStory(a, id) then forall m | m in a.merges :: m.loser != id
      else exists s | s in a.stories :: Holds(s, cs[i].id) && Merge(id, s.id) in a.merges
  {
    var a, id, lab := Link(cs, es, prior, delivered, mint), prior[cs[i].id], StoryLabels(cs, es, prior, delivered);
    var ks, slot, ids, all := LinkSlots(cs, es, prior, delivered, mint);
    var carried, _ := LinkMerges(cs, es, prior, delivered, mint);
    SlotCarries(ks, cs, lab, slot, prior, slot[i], id);
    IdsOfAll(all, ids, a, id);
    if !NamesStory(a, id) {
      assert all[slot[i]] in all && Holds(all[slot[i]], cs[i].id);
      assert Merge(id, ids[slot[i]]) in a.merges;
    }
  }

  lemma SlotCarriesBoth(ks: seq<Keyed>, cs: seq<Cluster>, lab: seq<nat>, slot: seq<nat>, prior: map<Uuid, Uuid>, k: nat, m: Merge)
    returns (i: nat, j: nat)
    requires Lists(ks, cs, lab) && Filed(ks, cs, lab, slot) && k < |ks|
    requires var carried := AllPriorIds(cs, prior, ks); m.loser in carried[k] && m.survivor in carried[k]
    ensures BothCarried(cs, lab, prior, m, i, j)
  {
    SlotCarries(ks, cs, lab, slot, prior, k, m.loser);
    SlotCarries(ks, cs, lab, slot, prior, k, m.survivor);
    i :| i < |cs| && slot[i] == k && cs[i].id in prior && prior[cs[i].id] == m.loser;
    j :| j < |cs| && slot[j] == k && cs[j].id in prior && prior[cs[j].id] == m.survivor;
  }

  /** A merge's two ids were both carried by clusters of one story. */
  lemma MergesStayInStory(cs: seq<Cluster>, es: seq<Edge>, prior: map<Uuid, Uuid>, delivered: set<Uuid>, mint: nat -> Uuid, m: Merge)
    returns (i: nat, j: nat)
    requires Candidates(cs) && InRange(es, |cs|) && Fresh(mint, prior.Values) && m in Link(cs, es, prior, delivered, mint).merges
    ensures BothCarried(cs, StoryLabels(cs, es, prior, delivered), prior, m, i, j)
  {
    var lab := StoryLabels(cs, es, prior, delivered);
    var ks := OrderedClasses(cs, lab);
    OrderedMeaning(cs, lab);
    var slot := AllSlots(ks, cs, lab);
    var carried, _ := LinkMerges(cs, es, prior, delivered, mint);
    var k: nat :| k < |carried| && m.loser in carried[k] && m.survivor in carried[k];
    i, j := SlotCarriesBoth(ks, cs, lab, slot, prior, k, m);
  }

  /** A merge points from a prior id that no story keeps to a strictly older prior id that one does. */
  lemma MergesPointOlder(cs: seq<Cluster>, es: seq<Edge>, prior: map<Uuid, Uuid>, delivered: set<Uuid>, mint: nat -> Uuid, m: Merge)
    requires Candidates(cs) && InRange(es, |cs|) && Fresh(mint, prior.Values) && m in Link(cs, es, prior, delivered, mint).merges
    ensures m.survivor < m.loser && NamesStory(Link(cs, es, prior, delivered, mint), m.survivor)
    ensures !NamesStory(Link(cs, es, prior, delivered, mint), m.loser)
  {
    var ks, slot, ids, all := LinkSlots(cs, es, prior, delivered, mint);
    var carried, _ := LinkMerges(cs, es, prior, delivered, mint);
    IdsOfAll(all, ids, Link(cs, es, prior, delivered, mint), m.survivor);
    IdsOfAll(all, ids, Link(cs, es, prior, delivered, mint), m.loser);
  }

  // ── Members and reasons ──

  /** A must-linked pair of candidates ends in one story. */
  lemma MustLinkedTogether(cs: seq<Cluster>, tuning: Tuning, ln: real -> real, prior: map<Uuid, Uuid>, delivered: set<Uuid>,
                           a: nat, b: nat)
    requires Candidates(cs) && MustLinked(cs, tuning.mustLink, a, b) && a < b < |cs|
    ensures var lab := StoryLabels(cs, LinkEdges(cs, tuning, ln), prior, delivered); lab[a] == lab[b]
  {
    var w := LinkScoring.Grading(cs, tuning.entityWeights, ln);
    LinkEdgesUnique(cs, tuning, ln);
    LinkScoringLaws.ScoredEdgesAscend(cs, w);
    ScoredUnique(LinkScoring.GradedEdges(cs, w));
    ConstrainedMeaning(LinkScoring.GradedEdges(cs, w), cs, tuning, Forced((a, b)));
    FinalCoarsens(OwnStories(cs, prior, delivered), LinkEdges(cs, tuning, ln));
  }

  lemma ScoredUnique(es: seq<Edge>)
    requires LinkScoringLaws.PairAscending(es)
    ensures UniquePairs(es)
  {
    forall i, j | 0 <= i < j < |es| ensures es[i].a != es[j].a || es[i].b != es[j].b {
      assert LinkScoringLaws.PairBefore(es[i], es[j]);
    }
  }

  /**
   * A member has no reason exactly when it is alone in its story; otherwise its reason is that of an edge
   * inside the story that touches it, and no other such edge is stronger.
   */
  lemma ReasonsExplain(cs: seq<Cluster>, es: seq<Edge>, prior: map<Uuid, Uuid>, delivered: set<Uuid>, i: nat)
    requires Candidates(cs) && InRange(es, |cs|) && i < |cs|
    ensures var lab := StoryLabels(cs, es, prior, delivered);
      var reason := Reasons(es, lab)[i];
      if forall j | 0 <= j < |cs| && lab[j] == lab[i] :: j == i then reason == None
      else exists e | e in es && Explains(e, lab, i) ::
        reason == Some(e.reason) && forall x | x in es && Explains(x, lab, i) :: !Beats(x, Some(e))
  {
    var lab := StoryLabels(cs, es, prior, delivered);
    BestEdgeMeaning(es, lab, i);
    if j: nat :| j < |cs| && lab[j] == lab[i] && j != i {
      StoriesAreConnected(OwnStories(cs, prior, delivered), es, i, j);
      assert Connected(Realised(es, lab), i, j);
      var v := FirstStep(Realised(es, lab), i, j);
      var e :| e in es && lab[e.a] == lab[e.b] && ((e.a, e.b) == (i, v) || (e.a, e.b) == (v, i));
      assert Explains(e, lab, i);
    } else {
      forall e | e in es ensures !Explains(e, lab, i) {}
    }
  }

  lemma FirstStep<T(!new)>(es: set<(T, T)>, a: T, b: T) returns (v: T)
    requires Connected(es, a, b) && a != b
    ensures Adjacent(es, a, v)
  {
    var p :| Joins(es, p, a, b);
    v := p[1];
  }
}
