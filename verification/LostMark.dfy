/**
 * A run in which the merge guard loses sight of a delivery: an older, never shown story absorbs a delivered one
 * over a weak edge, and at the next fire a second delivered story joins them over another weak edge.
 */
module LostMark {
  import opened Ordering
  import opened Connectivity
  import opened LinkModel
  import opened LinkForwarding
  import opened LinkIds
  import opened Linking
  import opened LinkLaws
  import opened StoryRows
  import opened StoryRowsLaws
  import opened DeliveredMarks
  import opened ChainEdges
  import LinkComponents
  import Runs

  /** The ids a fire mints: `n` first, and never one that ends in another digit. */
  function Minter(n: nat): nat -> Uuid {
    (k: nat) => n + 10 * k
  }

  lemma ChainCandidates()
    ensures Candidates(CHAIN) && InRange(LINKS, 3)
  {
    assert Ids(CHAIN) == [11, 12, 13];
  }

  // ── The partitions of the chain ──

  lemma ChainOrder()
    ensures LinkComponents.WeakOrder(LINKS) == LINKS && LinkComponents.StrongPairs(LINKS) == []
  {
    assert LINKS[..1] == [NEAR] && LINKS[1..] == [FAR] && [NEAR][..0] == [] && [FAR][1..] == [];
    assert LinkComponents.StrongPairs([NEAR]) == LinkComponents.StrongPairs([]) + [];
    assert LinkComponents.WeakOnly([FAR]) == [FAR] + LinkComponents.WeakOnly([]);
    assert LinkComponents.WeakOnly(LINKS) == [NEAR] + LinkComponents.WeakOnly([FAR]);
    assert Sort(LinkComponents.StrongerFirst, [FAR]) == [FAR];
  }

  lemma {:induction false} TwoSteps(lab: seq<nat>, own: seq<set<Uuid>>, first: seq<nat>, second: seq<nat>)
    requires |own| == |lab| == |first| == 3 && InRange(LINKS, 3)
    requires first == if LinkComponents.Blocked(lab, own, 0, 1) then lab else Join(lab, 0, 1)
    requires second == if LinkComponents.Blocked(first, own, 1, 2) then first else Join(first, 1, 2)
    ensures LinkComponents.GuardedPass(lab, own, LINKS) == second
  {
    assert LINKS[1..] == [FAR] && [FAR][1..] == [];
    assert LinkComponents.GuardedPass(first, own, [FAR]) == second;
  }

  lemma StartsApart()
    requires InRange(LINKS, 3) && LinkComponents.StrongPairs(LINKS) == []
    ensures LinkComponents.StrongLabels(3, LINKS) == [0, 1, 2]
  {
  }

  lemma ChainPass(own: seq<set<Uuid>>, first: seq<nat>, second: seq<nat>)
    requires |own| == 3 && |first| == 3 && InRange(LINKS, 3)
    requires first == if LinkComponents.Blocked([0, 1, 2], own, 0, 1) then [0, 1, 2] else Join([0, 1, 2], 0, 1)
    requires second == if LinkComponents.Blocked(first, own, 1, 2) then first else Join(first, 1, 2)
    ensures LinkComponents.FinalLabels(own, LINKS) == second
  {
    ChainOrder();
    StartsApart();
    TwoSteps([0, 1, 2], own, first, second);
  }

  lemma OnlyOwn(lab: seq<nat>, own: seq<set<Uuid>>, i: nat, id: set<Uuid>)
    requires |lab| == |own| && i < |lab| && own[i] == id && forall j | 0 <= j < |lab| && lab[j] == lab[i] :: own[j] <= id
    ensures LinkComponents.ClassStories(lab, own, lab[i]) == id
  {
  }

  /** While both its neighbours are delivered stories, the guard keeps the far link open. */
  lemma GuardedLabels()
    requires InRange(LINKS, 3)
    ensures LinkComponents.FinalLabels([{}, {2}, {3}], LINKS) == [0, 0, 2]
  {
    var own: seq<set<Uuid>> := [{}, {2}, {3}];
    OnlyOwn([0, 1, 2], own, 0, {});
    assert Join([0, 1, 2], 0, 1) == [0, 0, 2];
    OnlyOwn([0, 0, 2], own, 1, {2});
    OnlyOwn([0, 0, 2], own, 2, {3});
    ChainPass(own, [0, 0, 2], [0, 0, 2]);
  }

  /** Once the middle one's delivery is out of sight, it does not. */
  lemma UnguardedLabels()
    requires InRange(LINKS, 3)
    ensures LinkComponents.FinalLabels([{}, {}, {3}], LINKS) == [0, 0, 0]
  {
    var own: seq<set<Uuid>> := [{}, {}, {3}];
    OnlyOwn([0, 1, 2], own, 0, {});
    assert Join([0, 1, 2], 0, 1) == [0, 0, 2];
    OnlyOwn([0, 0, 2], own, 1, {});
    assert Join([0, 0, 2], 1, 2) == [0, 0, 0];
    ChainPass(own, [0, 0, 2], [0, 0, 0]);
  }

  // ── One new cluster, one new story ──

  lemma OneSlot(ks: seq<Keyed>, c: Cluster, lab: seq<nat>, slot: seq<nat>)
    requires Lists(ks, [c], lab) && LinkLaws.Filed(ks, [c], lab, slot)
    ensures |ks| == 1
  {
    assert slot[0] < |ks|;
    var last := SlotHasMember(ks, [c], lab, slot, |ks| - 1);
    var first := SlotHasMember(ks, [c], lab, slot, 0);
  }

  lemma NothingCarried(ks: seq<Keyed>, c: Cluster, lab: seq<nat>, slot: seq<nat>, prior: map<Uuid, Uuid>)
    requires Lists(ks, [c], lab) && LinkLaws.Filed(ks, [c], lab, slot) && |ks| == 1 && c.id !in prior
    ensures AllPriorIds([c], prior, ks) == [[]]
  {
    var carried := AllPriorIds([c], prior, ks);
    if carried[0] != [] {
      SlotCarries(ks, [c], lab, slot, prior, 0, carried[0][0]);
    }
  }

  lemma LoneSurvivor(mint: nat -> Uuid)
    ensures Survivors([[]], {}, mint, 0) == [mint(0)]
  {
    assert FirstUnclaimed([], {}).None?;
  }

  lemma LoneStory(c: Cluster, prior: map<Uuid, Uuid>, delivered: set<Uuid>, mint: nat -> Uuid) returns (s: LinkedStory)
    requires Candidates([c]) && c.id !in prior
    ensures s in Link([c], [], prior, delivered, mint).stories && s.id == mint(0) && Holds(s, c.id)
    ensures forall t | t in Link([c], [], prior, delivered, mint).stories :: t == s
  {
    var lab := StoryLabels([c], [], prior, delivered);
    var ks, slot, ids, all := LinkSlots([c], [], prior, delivered, mint);
    OneSlot(ks, c, lab, slot);
    OrderedReadable([c], lab);
    NothingCarried(ks, c, lab, slot, prior);
    LoneSurvivor(mint);
    s := all[0];
  }

  lemma LoneClusterNoMerge(c: Cluster, prior: map<Uuid, Uuid>, delivered: set<Uuid>, mint: nat -> Uuid)
    requires Candidates([c]) && c.id !in prior && Fresh(mint, prior.Values)
    ensures Link([c], [], prior, delivered, mint).merges == []
  {
    var a := Link([c], [], prior, delivered, mint);
    if a.merges != [] {
      var i, j := MergesStayInStory([c], [], prior, delivered, mint, a.merges[0]);
      assert false;
    }
  }

  /** Persisting one new story opens its row and touches no other. */
  lemma LonePersist(rows: Table, candidates: set<Uuid>, a: Assignment, s: LinkedStory, now: Time)
    requires Fits(rows, candidates, a) && a.merges == [] && s in a.stories && s.id !in rows && forall t | t in a.stories :: t == s
    ensures var next := Persisted(rows, a, now);
      && (forall id :: id in next <==> id in rows || id == s.id) && (forall id | id in rows :: next[id] == rows[id])
      && next[s.id] == Written(rows, s, now)
  {
    forall id ensures id in Persisted(rows, a, now) <==> id in rows || id == s.id {
      PersistedRow(rows, a, now, id);
    }
    forall id | id in rows ensures Persisted(rows, a, now)[id] == rows[id] {
      PersistedRow(rows, a, now, id);
    }
    PersistedRow(rows, a, now, s.id);
  }

  /** A fire over one new cluster opens one row under the first minted id and touches no other. */
  lemma LoneFire(rows: Table, c: Cluster, mint: nat -> Uuid, now: Time)
    requires Sound(rows) && Candidates([c]) && Fresh(mint, rows.Keys) && c.id !in PriorOf(rows)
    ensures Opens(rows, Fired(rows, [c], [], mint, now), mint(0), c.id)
  {
    var prior, delivered := PriorOf(rows), DeliveredOf(rows);
    FreshForPrior(rows, mint);
    LoneClusterNoMerge(c, prior, delivered, mint);
    var s := LoneStory(c, prior, delivered, mint);
    LinkFits(rows, [c], [], mint);
    LonePersist(rows, IdSet([c]), Link([c], [], prior, delivered, mint), s, now);
    LoneRow(rows, s, c, now);
  }

  /** `next` is `rows` with one new live, unmarked row, holding `c` alone. */
  ghost predicate Opens(rows: Table, next: Table, id: Uuid, c: Uuid) {
    && (forall x :: x in next <==> x in rows || x == id) && (forall x | x in rows :: next[x] == rows[x])
    && next[id].mergedInto == None && !next[id].delivered
    && forall x :: Contains(next[id], x) <==> x == c
  }

  lemma LoneRow(rows: Table, s: LinkedStory, c: Cluster, now: Time)
    requires s.id !in rows && Holds(s, c.id) && forall x | Holds(s, x) :: x in IdSet([c])
    ensures Written(rows, s, now).mergedInto == None && !Written(rows, s, now).delivered
    ensures forall x :: Contains(Written(rows, s, now), x) <==> x == c.id
  {
    forall x ensures Contains(Written(rows, s, now), x) <==> Holds(s, x) {}
  }

  // ── Three stories of one cluster each, the newer two delivered ──

  const PRIOR: map<Uuid, Uuid> := map[11 := 1, 12 := 2, 13 := 3]

  /** Row `id` is live, holds cluster `id + 10` alone, and bears the given mark. */
  ghost predicate Lone(rows: Table, id: Uuid, delivered: bool) {
    id in rows && rows[id].mergedInto == None && rows[id].delivered == delivered && forall x :: Contains(rows[id], x) <==> x == id + 10
  }

  ghost predicate Opened(rows: Table, n: nat) {
    Sound(rows) && (forall id :: id in rows <==> 1 <= id <= n) && forall id: nat | 1 <= id <= n :: Lone(rows, id, false)
  }

  lemma NotFiledYet(rows: Table, n: nat)
    requires Opened(rows, n)
    ensures n + 11 !in PriorOf(rows)
  {
    forall id | id in rows ensures !Contains(rows[id], n + 11) {
      assert Lone(rows, id, false);
    }
    if n + 11 in PriorOf(rows) {
      PriorOfMeaning(rows, n + 11, PriorOf(rows)[n + 11]);
      assert false;
    }
  }

  lemma MinterFresh(rows: Table, n: nat)
    requires 0 < n && forall id | id in rows :: id < n
    ensures Fresh(Minter(n), rows.Keys)
  {
  }

  /** The fire over the next new cluster. */
  function NextFire(n: nat): StoryRowsLaws.Event {
    Fire([Item(n + 11)], [], Minter(n + 1), 0)
  }

  lemma NextEnabled(rows: Table, n: nat)
    requires Opened(rows, n)
    ensures Candidates([Item(n + 11)]) && Fresh(Minter(n + 1), rows.Keys) && InRange([], 1)
  {
    assert Ids([Item(n + 11)]) == [n + 11];
    MinterFresh(rows, n + 1);
  }

  lemma NextOpens(rows: Table, n: nat)
    requires Opened(rows, n) && Candidates([Item(n + 11)]) && Fresh(Minter(n + 1), rows.Keys)
    ensures Opened(Fired(rows, [Item(n + 11)], [], Minter(n + 1), 0), n + 1)
  {
    NotFiledYet(rows, n);
    LoneFire(rows, Item(n + 11), Minter(n + 1), 0);
    FireKeepsSound(rows, [Item(n + 11)], [], Minter(n + 1), 0);
    OpenedOneMore(rows, Fired(rows, [Item(n + 11)], [], Minter(n + 1), 0), n);
  }

  lemma OpenNext(rows: Table, n: nat)
    requires Opened(rows, n)
    ensures Enabled(rows, NextFire(n)) && Opened(Step(rows, NextFire(n)), n + 1)
  {
    NextEnabled(rows, n);
    NextOpens(rows, n);
  }

  lemma OpenedOneMore(rows: Table, next: Table, n: nat)
    requires Opened(rows, n) && Sound(next) && Opens(rows, next, n + 1, n + 11)
    ensures Opened(next, n + 1)
  {
    forall id: nat | 1 <= id <= n + 1 ensures Lone(next, id, false) {
      assert id <= n ==> Lone(rows, id, false);
    }
  }

  ghost predicate Trio(rows: Table) {
    Sound(rows) && (forall id :: id in rows <==> 1 <= id <= 3) && Lone(rows, 1, false) && Lone(rows, 2, true) && Lone(rows, 3, true)
  }

  /** Two windows land, one with each of the newer stories. */
  lemma DeliverTwo(rows: Table)
    requires Opened(rows, 3)
    ensures Trio(MarkDelivered(MarkDelivered(rows, {2}), {3}))
  {
    var one, next := MarkDelivered(rows, {2}), MarkDelivered(MarkDelivered(rows, {2}), {3});
    DeliverKeepsSound(rows, {2});
    DeliverKeepsSound(one, {3});
    assert Lone(rows, 1, false) && Lone(rows, 2, false) && Lone(rows, 3, false);
    forall id, x | id in rows ensures Contains(next[id], x) <==> Contains(rows[id], x) {}
  }

  lemma TrioPrior(rows: Table)
    requires Trio(rows)
    ensures PriorOf(rows) == PRIOR
  {
    forall c, id ensures Maps(PriorOf(rows), c, id) <==> Maps(PRIOR, c, id) {
      PriorOfMeaning(rows, c, id);
      TrioHolds(rows, c, id);
    }
    SameMap(PriorOf(rows), PRIOR);
  }

  lemma TrioHolds(rows: Table, c: Uuid, id: Uuid)
    requires Trio(rows)
    ensures id in rows && Contains(rows[id], c) <==> Maps(PRIOR, c, id)
  {
    if id in rows {
      assert id == 1 || id == 2 || id == 3;
    }
  }

  /** The delivered stories of each chain member. */
  lemma ChainOwn(prior: map<Uuid, Uuid>, delivered: set<Uuid>, own: seq<set<Uuid>>)
    requires |own| == 3 && LinkComponents.OwnStory(Item(11), prior, delivered) == own[0]
    requires LinkComponents.OwnStory(Item(12), prior, delivered) == own[1] && LinkComponents.OwnStory(Item(13), prior, delivered) == own[2]
    ensures LinkComponents.OwnStories(CHAIN, prior, delivered) == own
  {
  }

  lemma TrioDelivered(rows: Table)
    requires Trio(rows)
    ensures 1 !in DeliveredOf(rows) && 2 in DeliveredOf(rows) && 3 in DeliveredOf(rows)
  {
    assert Contains(rows[2], 12) && Contains(rows[3], 13);
  }

  lemma TrioOwn(rows: Table)
    requires Trio(rows) && PriorOf(rows) == PRIOR
    ensures LinkComponents.OwnStories(CHAIN, PriorOf(rows), DeliveredOf(rows)) == [{}, {2}, {3}]
  {
    TrioDelivered(rows);
    ChainOwn(PRIOR, DeliveredOf(rows), [{}, {2}, {3}]);
  }

  // ── The first fire over the chain: the mark is lost ──

  /** What the fire leaves: 2 absorbed into 1, unmarked, and 3 still apart. */
  ghost predicate Absorbed(rows: Table) {
    && Sound(rows) && 1 in rows && 2 in rows && 3 in rows && (forall id | id in rows :: id <= 3)
    && !rows[1].delivered && rows[1].mergedInto == None && Contains(rows[1], 11) && Contains(rows[1], 12)
    && rows[2].mergedInto == Some(1)
    && rows[3].delivered && rows[3].mergedInto == None && Contains(rows[3], 13)
  }

  lemma ChainWhole(lab: seq<nat>, i: nat)
    requires lab == [0, 0, 2] && i < 3
    ensures Whole(CHAIN, lab, PRIOR, i)
  {
  }

  /** The oldest prior id of each chain member's component. */
  function OldestPrior(i: nat): Uuid {
    if i < 2 then 1 else 3
  }

  lemma ChainOldest(lab: seq<nat>, i: nat, o: nat)
    requires lab == [0, 0, 2] && i < 3 && OldestShared(CHAIN, lab, PRIOR, i, o)
    ensures PRIOR[CHAIN[o].id] == OldestPrior(i)
  {
    assert Shares(CHAIN, lab, PRIOR, i, OldestPrior(i) - 1);
  }

  lemma ChainSlotKeeps(lab: seq<nat>, slot: seq<nat>, mint: nat -> Uuid, i: nat)
    requires lab == [0, 0, 2] && Canonical(lab) && Candidates(CHAIN) && Fresh(mint, PRIOR.Values) && i < 3
    requires Lists(OrderedClasses(CHAIN, lab), CHAIN, lab) && LinkLaws.Filed(OrderedClasses(CHAIN, lab), CHAIN, lab, slot)
    ensures StoryIds(CHAIN, lab, PRIOR, mint)[slot[i]] == OldestPrior(i)
  {
    ChainWhole(lab, i);
    assert CHAIN[i].id in PRIOR;
    var o := WholeSlotKeeps(CHAIN, lab, slot, PRIOR, mint, i);
    ChainOldest(lab, i, o);
  }

  /** The story holding chain member `i` keeps the oldest prior id of its component. */
  lemma ChainKeeps(delivered: set<Uuid>, mint: nat -> Uuid, i: nat, s: LinkedStory)
    requires Candidates(CHAIN) && InRange(LINKS, |CHAIN|) && Fresh(mint, PRIOR.Values) && i < 3
    requires StoryLabels(CHAIN, LINKS, PRIOR, delivered) == [0, 0, 2]
    requires s in Link(CHAIN, LINKS, PRIOR, delivered, mint).stories && Holds(s, CHAIN[i].id)
    ensures s.id == OldestPrior(i)
  {
    var slot := StorySlot(CHAIN, LINKS, PRIOR, delivered, mint, i, s);
    ChainSlotKeeps(StoryLabels(CHAIN, LINKS, PRIOR, delivered), slot, mint, i);
  }

  /** Every story holds some candidate. */
  lemma StoryHoldsOne(cs: seq<Cluster>, es: seq<Edge>, prior: map<Uuid, Uuid>, delivered: set<Uuid>, mint: nat -> Uuid, s: LinkedStory) returns (i: nat)
    requires Candidates(cs) && InRange(es, |cs|) && s in Link(cs, es, prior, delivered, mint).stories
    ensures i < |cs| && Holds(s, cs[i].id)
  {
    var ks, slot, ids, all := LinkSlots(cs, es, prior, delivered, mint);
    var k :| 0 <= k < |all| && all[k] == s;
    i := SlotHasMember(ks, cs, StoryLabels(cs, es, prior, delivered), slot, k);
  }

  /** A story of the fire over the chain is the one of 11 and 12, or that of 13. */
  lemma ChainStories(delivered: set<Uuid>, mint: nat -> Uuid, s: LinkedStory)
    requires Candidates(CHAIN) && InRange(LINKS, |CHAIN|) && Fresh(mint, PRIOR.Values)
    requires StoryLabels(CHAIN, LINKS, PRIOR, delivered) == [0, 0, 2]
    requires s in Link(CHAIN, LINKS, PRIOR, delivered, mint).stories
    ensures s.id == 1 || s.id == 3
  {
    var i := StoryHoldsOne(CHAIN, LINKS, PRIOR, delivered, mint, s);
    ChainKeeps(delivered, mint, i, s);
  }

  /** After the fire, chain member `i` is filed under the oldest prior id of its component. */
  lemma ChainFiled(rows: Table, mint: nat -> Uuid, i: nat)
    requires Trio(rows) && Candidates(CHAIN) && InRange(LINKS, |CHAIN|) && Fresh(mint, rows.Keys) && i < 3
    requires PriorOf(rows) == PRIOR && StoryLabels(CHAIN, LINKS, PRIOR, DeliveredOf(rows)) == [0, 0, 2]
    ensures var next := Fired(rows, CHAIN, LINKS, mint, 0);
      && Sound(next) && OldestPrior(i) in next && Contains(next[OldestPrior(i)], CHAIN[i].id)
      && next[OldestPrior(i)].mergedInto == None && next[OldestPrior(i)].delivered == rows[OldestPrior(i)].delivered
  {
    var delivered := DeliveredOf(rows);
    FreshForPrior(rows, mint);
    SameStory(CHAIN, LINKS, PRIOR, delivered, mint, i, i);
    var s :| s in Link(CHAIN, LINKS, PRIOR, delivered, mint).stories && Holds(s, CHAIN[i].id);
    ChainKeeps(delivered, mint, i, s);
    FireKeepsSound(rows, CHAIN, LINKS, mint, 0);
    LinkFits(rows, CHAIN, LINKS, mint);
    PersistedRow(rows, Link(CHAIN, LINKS, PRIOR, delivered, mint), 0, s.id);
    FiledRow(rows, s, CHAIN[i].id);
  }

  lemma FiledRow(rows: Table, s: LinkedStory, c: Uuid)
    requires Holds(s, c) && s.id in rows && rows[s.id].mergedInto == None
    ensures Contains(Written(rows, s, 0), c) && Written(rows, s, 0).mergedInto == None && Written(rows, s, 0).delivered == rows[s.id].delivered
  {
    assert Written(rows, s, 0).clusters == s.clusters;
  }

  lemma TwoIsLost(rows: Table, mint: nat -> Uuid)
    requires Trio(rows) && Candidates(CHAIN) && InRange(LINKS, |CHAIN|) && Fresh(mint, rows.Keys)
    requires PriorOf(rows) == PRIOR && StoryLabels(CHAIN, LINKS, PRIOR, DeliveredOf(rows)) == [0, 0, 2]
    ensures Loses(Link(CHAIN, LINKS, PRIOR, DeliveredOf(rows), mint).merges, 2)
  {
    var a := Link(CHAIN, LINKS, PRIOR, DeliveredOf(rows), mint);
    FreshForPrior(rows, mint);
    LinkFits(rows, CHAIN, LINKS, mint);
    TwoIsNotKept(DeliveredOf(rows), mint);
    TwoHasCandidate(rows);
  }

  lemma TwoIsNotKept(delivered: set<Uuid>, mint: nat -> Uuid)
    requires Candidates(CHAIN) && InRange(LINKS, |CHAIN|) && Fresh(mint, PRIOR.Values)
    requires StoryLabels(CHAIN, LINKS, PRIOR, delivered) == [0, 0, 2]
    ensures !Writes(Link(CHAIN, LINKS, PRIOR, delivered, mint).stories, 2)
  {
    if Writes(Link(CHAIN, LINKS, PRIOR, delivered, mint).stories, 2) {
      ChainWrites(delivered, mint, 2);
      assert false;
    }
  }

  lemma TwoHasCandidate(rows: Table)
    requires Trio(rows)
    ensures 2 in rows && 12 in IdSet(CHAIN) && Contains(rows[2], 12)
  {
    assert CHAIN[1].id in IdSet(CHAIN);
  }

  lemma TwoGoesToOne(delivered: set<Uuid>, mint: nat -> Uuid, survivor: Uuid)
    requires Candidates(CHAIN) && InRange(LINKS, |CHAIN|) && Fresh(mint, PRIOR.Values)
    requires StoryLabels(CHAIN, LINKS, PRIOR, delivered) == [0, 0, 2]
    requires Merge(2, survivor) in Link(CHAIN, LINKS, PRIOR, delivered, mint).merges
    ensures survivor == 1
  {
    MergesPointOlder(CHAIN, LINKS, PRIOR, delivered, mint, Merge(2, survivor));
    var s :| s in Link(CHAIN, LINKS, PRIOR, delivered, mint).stories && s.id == survivor;
    ChainStories(delivered, mint, s);
  }

  lemma TwoMergesIntoOne(rows: Table, mint: nat -> Uuid)
    requires Trio(rows) && Candidates(CHAIN) && InRange(LINKS, |CHAIN|) && Fresh(mint, rows.Keys)
    requires PriorOf(rows) == PRIOR && StoryLabels(CHAIN, LINKS, PRIOR, DeliveredOf(rows)) == [0, 0, 2]
    ensures var next := Fired(rows, CHAIN, LINKS, mint, 0); 2 in next && next[2].mergedInto == Some(1)
  {
    FreshForPrior(rows, mint);
    LinkFits(rows, CHAIN, LINKS, mint);
    TwoIsLost(rows, mint);
    PersistedRow(rows, Link(CHAIN, LINKS, PRIOR, DeliveredOf(rows), mint), 0, 2);
    TwoGoesToOne(DeliveredOf(rows), mint, Fired(rows, CHAIN, LINKS, mint, 0)[2].mergedInto.value);
  }

  lemma ChainFires(rows: Table)
    requires Trio(rows)
    ensures Enabled(rows, Fire(CHAIN, LINKS, Minter(4), 0)) && Absorbed(Step(rows, Fire(CHAIN, LINKS, Minter(4), 0)))
  {
    ChainCandidates();
    MinterFresh(rows, 4);
    TrioPrior(rows);
    TrioOwn(rows);
    GuardedLabels();
    ChainAbsorbs(rows, Minter(4));
  }

  lemma ChainAbsorbs(rows: Table, mint: nat -> Uuid)
    requires Trio(rows) && Candidates(CHAIN) && InRange(LINKS, |CHAIN|) && Fresh(mint, rows.Keys)
    requires PriorOf(rows) == PRIOR && StoryLabels(CHAIN, LINKS, PRIOR, DeliveredOf(rows)) == [0, 0, 2]
    ensures Absorbed(Fired(rows, CHAIN, LINKS, mint, 0))
  {
    ChainFiled(rows, mint, 0);
    ChainFiled(rows, mint, 1);
    ChainFiled(rows, mint, 2);
    TwoMergesIntoOne(rows, mint);
    NoNewRows(rows, mint);
    TrioMarks(rows);
  }

  lemma TrioMarks(rows: Table)
    requires Trio(rows)
    ensures 1 in rows && 3 in rows && !rows[1].delivered && rows[3].delivered
  {
  }

  lemma NoNewRows(rows: Table, mint: nat -> Uuid)
    requires Trio(rows) && Candidates(CHAIN) && InRange(LINKS, |CHAIN|) && Fresh(mint, rows.Keys)
    requires PriorOf(rows) == PRIOR && StoryLabels(CHAIN, LINKS, PRIOR, DeliveredOf(rows)) == [0, 0, 2]
    ensures forall id | id in Fired(rows, CHAIN, LINKS, mint, 0) :: id <= 3
  {
    forall id | id in Fired(rows, CHAIN, LINKS, mint, 0) ensures id <= 3 {
      NoNewRow(rows, mint, id);
    }
  }

  lemma ChainWrites(delivered: set<Uuid>, mint: nat -> Uuid, id: Uuid)
    requires Candidates(CHAIN) && InRange(LINKS, |CHAIN|) && Fresh(mint, PRIOR.Values)
    requires StoryLabels(CHAIN, LINKS, PRIOR, delivered) == [0, 0, 2]
    requires Writes(Link(CHAIN, LINKS, PRIOR, delivered, mint).stories, id)
    ensures id == 1 || id == 3
  {
    var s :| s in Link(CHAIN, LINKS, PRIOR, delivered, mint).stories && s.id == id;
    ChainStories(delivered, mint, s);
  }

  lemma PersistedKeys(rows: Table, candidates: set<Uuid>, a: Assignment, id: Uuid)
    requires Fits(rows, candidates, a) && id in Persisted(rows, a, 0)
    ensures id in rows || Writes(a.stories, id)
  {
    PersistedRow(rows, a, 0, id);
  }

  lemma NoNewRow(rows: Table, mint: nat -> Uuid, id: Uuid)
    requires Trio(rows) && Candidates(CHAIN) && InRange(LINKS, |CHAIN|) && Fresh(mint, rows.Keys)
    requires PriorOf(rows) == PRIOR && StoryLabels(CHAIN, LINKS, PRIOR, DeliveredOf(rows)) == [0, 0, 2]
    requires id in Fired(rows, CHAIN, LINKS, mint, 0)
    ensures id <= 3
  {
    FreshForPrior(rows, mint);
    LinkFits(rows, CHAIN, LINKS, mint);
    PersistedKeys(rows, IdSet(CHAIN), Link(CHAIN, LINKS, PRIOR, DeliveredOf(rows), mint), id);
    if id !in rows {
      ChainWrites(DeliveredOf(rows), mint, id);
    }
  }

  // ── The next fire: the guard has nothing left to guard ──

  lemma AbsorbedPrior(rows: Table)
    requires Absorbed(rows)
    ensures 11 in PriorOf(rows) && 12 in PriorOf(rows) && 13 in PriorOf(rows)
    ensures PriorOf(rows)[11] == 1 && PriorOf(rows)[12] == 1 && PriorOf(rows)[13] == 3
    ensures 1 !in DeliveredOf(rows) && 3 in DeliveredOf(rows)
  {
    PriorOfMeaning(rows, 11, 1);
    PriorOfMeaning(rows, 12, 1);
    PriorOfMeaning(rows, 13, 3);
  }

  lemma JoinedFollows(prior: map<Uuid, Uuid>, delivered: set<Uuid>, mint: nat -> Uuid, next: map<Uuid, Uuid>)
    requires Candidates(CHAIN) && InRange(LINKS, |CHAIN|) && StoryLabels(CHAIN, LINKS, prior, delivered) == [0, 0, 0]
    requires Follows(next, Link(CHAIN, LINKS, prior, delivered, mint))
    ensures 12 in next && 13 in next && next[12] == next[13]
  {
    SameStory(CHAIN, LINKS, prior, delivered, mint, 1, 2);
    var s :| s in Link(CHAIN, LINKS, prior, delivered, mint).stories && Holds(s, 12) && Holds(s, 13);
    var x :| x in s.clusters && x.clusterId == 12;
    var y :| y in s.clusters && y.clusterId == 13;
  }

  lemma ChainMembers(m: map<Uuid, Uuid>)
    requires 11 in m && 12 in m && 13 in m
    ensures forall i | 0 <= i < |CHAIN| :: CHAIN[i].id in m
  {
    forall i | 0 <= i < |CHAIN| ensures CHAIN[i].id in m {
      assert i == 0 || i == 1 || i == 2;
    }
  }

  lemma FarCrosses(prior: map<Uuid, Uuid>, delivered: set<Uuid>)
    requires InRange(LINKS, |CHAIN|) && 11 in prior && 12 in prior && 13 in prior && prior[12] == 1 && prior[13] == 3 && 1 !in delivered
    ensures !CrossingsDelivered(CHAIN, LINKS, prior, delivered)
  {
    assert FAR in LINKS;
  }

  /** Firing again over the same candidates files 12 and 13 under one story, so the table changes. */
  lemma ChainRefires(rows: Table)
    requires Absorbed(rows)
    ensures Enabled(rows, Fire(CHAIN, LINKS, Minter(4), 0))
    ensures var next := Step(rows, Fire(CHAIN, LINKS, Minter(4), 0));
      next != rows && Joined(next)
    ensures InRange(LINKS, |CHAIN|) && (forall i | 0 <= i < |CHAIN| :: CHAIN[i].id in PriorOf(rows))
    ensures !CrossingsDelivered(CHAIN, LINKS, PriorOf(rows), DeliveredOf(rows))
  {
    ChainCandidates();
    MinterFresh(rows, 4);
    AbsorbedPrior(rows);
    ChainMembers(PriorOf(rows));
    ChainOwn(PriorOf(rows), DeliveredOf(rows), [{}, {}, {3}]);
    UnguardedLabels();
    FarCrosses(PriorOf(rows), DeliveredOf(rows));
    FireFollows(rows, CHAIN, LINKS, Minter(4), 0);
    JoinedFollows(PriorOf(rows), DeliveredOf(rows), Minter(4), PriorOf(Fired(rows, CHAIN, LINKS, Minter(4), 0)));
  }

  // ── The run ──

  /** A fire works on the edges the scorer gives its own candidates, under no feedback. */
  ghost predicate EdgesScored(e: Event, ln: real -> real) {
    e.Fire? ==> e.es == LinkEdges(e.cs, PLAIN, ln)
  }

  ghost predicate ScoredStep(rows: Table, next: Table, ln: real -> real) {
    exists e :: Enabled(rows, e) && EdgesScored(e, ln) && next == Step(rows, e)
  }

  ghost function ScoredSteps(ln: real -> real): (Table, Table) -> bool {
    (rows, next) => ScoredStep(rows, next, ln)
  }

  /** A run in which every fire links on scored edges. */
  ghost predicate ScoredRun(tables: seq<Table>, ln: real -> real) {
    Runs.Run(ScoredSteps(ln), tables)
  }

  lemma ScoredIsRun(tables: seq<Table>, ln: real -> real)
    requires ScoredRun(tables, ln)
    ensures Run(tables)
  {
    forall x, y | ScoredSteps(ln)(x, y) ensures Steps()(x, y) {
      assert ScoredStep(x, y, ln) && Next(x, y);
    }
    Runs.RunWidens(ScoredSteps(ln), Steps(), tables);
  }

  lemma RunOn(tables: seq<Table>, rows: Table, e: Event, ln: real -> real)
    requires ScoredRun(tables, ln) && tables[|tables| - 1] == rows && Enabled(rows, e) && EdgesScored(e, ln)
    ensures ScoredRun(tables + [Step(rows, e)], ln)
  {
    assert ScoredStep(rows, Step(rows, e), ln);
    Runs.RunOn(ScoredSteps(ln), tables, Step(rows, e));
  }

  lemma NothingOpened(ln: real -> real)
    ensures ScoredRun([map[]], ln) && Opened(map[], 0)
  {
  }

  lemma OpenedMore(tables: seq<Table>, rows: Table, n: nat, ln: real -> real) returns (more: seq<Table>, next: Table)
    requires ScoredRun(tables, ln) && tables[|tables| - 1] == rows && Opened(rows, n)
    ensures ScoredRun(more, ln) && more == tables + [next] && Opened(next, n + 1)
  {
    OpenNext(rows, n);
    LoneUnlinked(Item(n + 11), ln);
    RunOn(tables, rows, NextFire(n), ln);
    next := Step(rows, NextFire(n));
    more := tables + [next];
  }

  lemma ThreeOpened(ln: real -> real) returns (tables: seq<Table>)
    ensures ScoredRun(tables, ln) && |tables| == 4 && tables[0] == map[] && Opened(tables[3], 3)
  {
    NothingOpened(ln);
    var one, a := OpenedMore([map[]], map[], 0, ln);
    var two, b := OpenedMore(one, a, 1, ln);
    var three, c := OpenedMore(two, b, 2, ln);
    tables := three;
  }

  /** The table goes through the two deliveries. */
  lemma DeliverOn(tables: seq<Table>, rows: Table, ln: real -> real) returns (more: seq<Table>, next: Table)
    requires ScoredRun(tables, ln) && tables[|tables| - 1] == rows && Opened(rows, 3)
    ensures ScoredRun(more, ln) && |more| == |tables| + 2 && more[0] == tables[0] && more[|tables| + 1] == next && Trio(next)
  {
    DeliverTwo(rows);
    var one := MarkDelivered(rows, {2});
    RunOn(tables, rows, Deliver({2}), ln);
    RunOn(tables + [one], one, Deliver({3}), ln);
    next := MarkDelivered(one, {3});
    more := tables + [one] + [next];
  }

  lemma FireOn(tables: seq<Table>, rows: Table, ln: real -> real) returns (more: seq<Table>, next: Table)
    requires ScoredRun(tables, ln) && tables[|tables| - 1] == rows && Trio(rows) && Candidates(CHAIN) && InRange(LINKS, |CHAIN|)
    requires LinkEdges(CHAIN, PLAIN, ln) == LINKS
    ensures ScoredRun(more, ln) && more == tables + [next] && Absorbed(next)
    ensures next == FiredThenDelivered(rows, CHAIN, LINKS, Minter(4), 0, {})
  {
    var e := Fire(CHAIN, LINKS, Minter(4), 0);
    ChainFires(rows);
    RunOn(tables, rows, e, ln);
    next := Step(rows, e);
    more := tables + [next];
    DeliverNone(next);
  }

  lemma RefireOn(tables: seq<Table>, rows: Table, ln: real -> real) returns (more: seq<Table>, next: Table)
    requires ScoredRun(tables, ln) && tables[|tables| - 1] == rows && Absorbed(rows) && Candidates(CHAIN) && InRange(LINKS, |CHAIN|)
    requires LinkEdges(CHAIN, PLAIN, ln) == LINKS
    ensures ScoredRun(more, ln) && more == tables + [next] && next == Fired(rows, CHAIN, LINKS, Minter(4), 0) && next != rows && Joined(next)
  {
    var e := Fire(CHAIN, LINKS, Minter(4), 0);
    ChainRefires(rows);
    RunOn(tables, rows, e, ln);
    next := Step(rows, e);
    more := tables + [next];
  }

  /** 12 and 13 have come to one story. */
  ghost predicate Joined(rows: Table) {
    12 in PriorOf(rows) && 13 in PriorOf(rows) && PriorOf(rows)[12] == PriorOf(rows)[13]
  }

  lemma TwoMore<T>(front: seq<T>, x: T, y: T)
    requires front != []
    ensures var all := front + [x] + [y];
      |all| == |front| + 2 && all[0] == front[0] && all[|front| - 1..] == [front[|front| - 1], x, y]
  {
  }

  lemma TrioReached(ln: real -> real) returns (tables: seq<Table>, trio: Table)
    ensures ScoredRun(tables, ln) && |tables| == 6 && tables[0] == map[] && tables[5] == trio && Trio(trio)
  {
    var start := ThreeOpened(ln);
    tables, trio := DeliverOn(start, start[3], ln);
  }

  /**
   * From the empty table, under any logarithm not negative at 4/3 and no feedback: three stories open, each while
   * the subscriber is on one source only, the newer two are delivered, and a fire over the chain absorbs the
   * delivered 2 into the older 1, which stays unmarked. The next fire over the same candidates, linked by the same
   * weak edges alone, then joins the delivered 3 to what the subscriber has already seen of 2.
   */
  lemma DeliveredStoriesJoinWeakly(ln: real -> real) returns (tables: seq<Table>, trio: Table, absorbed: Table, joined: Table)
    requires ln(4.0 / 3.0) >= 0.0
    ensures Run(tables) && ScoredRun(tables, ln) && tables[0] == map[] && |tables| == 8 && tables[5..] == [trio, absorbed, joined]
    ensures Candidates(CHAIN) && LinkEdges(CHAIN, PLAIN, ln) == LINKS && !NEAR.strong && !FAR.strong
    ensures InRange(LINKS, |CHAIN|) && Trio(trio) && Absorbed(absorbed) && Joined(joined)
    ensures absorbed == FiredThenDelivered(trio, CHAIN, LINKS, Minter(4), 0, {})
    ensures joined == Fired(absorbed, CHAIN, LINKS, Minter(4), 0) && joined != absorbed
  {
    ChainCandidates();
    ChainLinked(ln);
    var delivered, fired;
    delivered, trio := TrioReached(ln);
    fired, absorbed := FireOn(delivered, trio, ln);
    tables, joined := RefireOn(fired, absorbed, ln);
    TwoMore(delivered, absorbed, joined);
    ScoredIsRun(tables, ln);
  }
}
