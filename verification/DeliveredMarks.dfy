/** What becomes of a story's delivered mark when stories merge, and a run in which the merge guard loses sight of it. */
module DeliveredMarks {
  import opened Ordering
  import opened Connectivity
  import opened LinkModel
  import opened LinkForwarding
  import opened LinkIds
  import opened Linking
  import opened LinkLaws
  import opened StoryRows
  import opened StoryRowsLaws

  // ── Which id a story keeps ──

  /** The story holding candidate `i` is the one in its component's slot. */
  lemma StoryAt(cs: seq<Cluster>, lab: seq<nat>, slot: seq<nat>, ids: seq<Uuid>, all: seq<LinkedStory>, i: nat, s: LinkedStory)
    requires Slots(cs, lab, slot, ids, all) && i < |cs| && s in all && Holds(s, cs[i].id)
    ensures s == all[slot[i]] && s.id == ids[slot[i]]
  {
    var k :| 0 <= k < |all| && all[k] == s;
  }

  ghost function LeftOver(ids: seq<Uuid>, claimed: set<Uuid>): set<Uuid> {
    set id | id in ids && id !in claimed
  }

  /** The prior ids a component carries, less those earlier components have claimed. */
  ghost function Unclaimed(cs: seq<Cluster>, lab: seq<nat>, prior: map<Uuid, Uuid>, mint: nat -> Uuid, k: nat): set<Uuid>
    requires |lab| == |cs| && Candidates(cs) && k < |OrderedClasses(cs, lab)|
  {
    OrderedReadable(cs, lab);
    assert OrderedClasses(cs, lab)[k] in OrderedClasses(cs, lab);
    LeftOver(PriorIds(cs, prior, OrderedClasses(cs, lab)[k].members), SetOf(StoryIds(cs, lab, prior, mint)[..k]))
  }

  ghost predicate LeastOf(ids: set<Uuid>, id: Uuid) {
    id in ids && forall x | x in ids :: id <= x
  }

  lemma {:induction false} FirstIsLeast(ids: seq<Uuid>, claimed: set<Uuid>)
    requires Ascending(IdLe, ids) && FirstUnclaimed(ids, claimed).Some?
    ensures LeastOf(LeftOver(ids, claimed), FirstUnclaimed(ids, claimed).value)
  {
    forall id | id in ids && id !in claimed ensures FirstUnclaimed(ids, claimed).value <= id {
      FirstUnclaimedOldest(ids, claimed, id);
    }
  }

  ghost predicate Minted(mint: nat -> Uuid, id: Uuid) {
    exists m: nat :: id == mint(m)
  }

  lemma {:induction false} SurvivorIsOldest(carried: seq<seq<Uuid>>, mint: nat -> Uuid, k: nat, before: set<Uuid>)
    requires k < |carried| && Ascending(IdLe, carried[k]) && before == SetOf(Survivors(carried, {}, mint, 0)[..k])
    ensures var id, left := Survivors(carried, {}, mint, 0)[k], LeftOver(carried[k], before);
      if left == {} then Minted(mint, id) else LeastOf(left, id)
  {
    SurvivorAt(carried, {}, mint, 0, k);
    assert {} + before == before;
    if FirstUnclaimed(carried[k], before).Some? {
      FirstIsLeast(carried[k], before);
    }
  }

  /** Position `k` keeps the oldest unclaimed prior id its component carries; lacking one, it mints. */
  lemma SlotKeepsOldest(cs: seq<Cluster>, lab: seq<nat>, prior: map<Uuid, Uuid>, mint: nat -> Uuid, k: nat)
    requires |lab| == |cs| && Candidates(cs) && k < |OrderedClasses(cs, lab)|
    ensures var id, left := StoryIds(cs, lab, prior, mint)[k], Unclaimed(cs, lab, prior, mint, k);
      if left == {} then Minted(mint, id) else LeastOf(left, id)
  {
    OrderedReadable(cs, lab);
    var ks := OrderedClasses(cs, lab);
    assert ks[k] in ks;
    PriorIdsAscending(cs, prior, ks[k].members);
    SurvivorIsOldest(AllPriorIds(cs, prior, ks), mint, k, SetOf(StoryIds(cs, lab, prior, mint)[..k]));
  }

  /** The position of the component of candidate `i`, and the id its story takes. */
  lemma StorySlot(cs: seq<Cluster>, es: seq<Edge>, prior: map<Uuid, Uuid>, delivered: set<Uuid>, mint: nat -> Uuid, i: nat, s: LinkedStory)
    returns (slot: seq<nat>)
    requires Candidates(cs) && InRange(es, |cs|) && i < |cs|
    requires s in Link(cs, es, prior, delivered, mint).stories && Holds(s, cs[i].id)
    ensures var lab := StoryLabels(cs, es, prior, delivered);
      && Lists(OrderedClasses(cs, lab), cs, lab) && LinkLaws.Filed(OrderedClasses(cs, lab), cs, lab, slot)
      && s.id == StoryIds(cs, lab, prior, mint)[slot[i]]
  {
    var ks, at, ids, all := LinkSlots(cs, es, prior, delivered, mint);
    slot := at;
    StoryAt(cs, StoryLabels(cs, es, prior, delivered), slot, ids, all, i, s);
  }

  // ── The mark after a fire ──

  /**
   * The row of the story holding candidate `i` is delivered exactly when the oldest prior id its component
   * carries, of those no earlier component claimed, is a delivered row.
   */
  lemma MarkFollowsSurvivor(rows: Table, cs: seq<Cluster>, es: seq<Edge>, mint: nat -> Uuid, now: Time, i: nat, s: LinkedStory)
    returns (k: nat)
    requires Sound(rows) && Candidates(cs) && InRange(es, |cs|) && Fresh(mint, rows.Keys) && i < |cs|
    requires s in Link(cs, es, PriorOf(rows), DeliveredOf(rows), mint).stories && Holds(s, cs[i].id)
    ensures var lab := StoryLabels(cs, es, PriorOf(rows), DeliveredOf(rows));
      && k < |OrderedClasses(cs, lab)| && OrderedClasses(cs, lab)[k] == ClassKey(cs, lab, i)
      && s.id in Fired(rows, cs, es, mint, now)
      && (Fired(rows, cs, es, mint, now)[s.id].delivered <==>
          exists id :: LeastOf(Unclaimed(cs, lab, PriorOf(rows), mint, k), id) && id in rows && rows[id].delivered)
  {
    var slot := StorySlot(cs, es, PriorOf(rows), DeliveredOf(rows), mint, i, s);
    k := slot[i];
    SlotKeepsOldest(cs, StoryLabels(cs, es, PriorOf(rows), DeliveredOf(rows)), PriorOf(rows), mint, k);
    LinkFits(rows, cs, es, mint);
    PersistedMark(rows, IdSet(cs), Link(cs, es, PriorOf(rows), DeliveredOf(rows), mint), now, s);
  }

  /** The candidates of `i`'s component that have a prior story. */
  ghost predicate Shares(cs: seq<Cluster>, lab: seq<nat>, prior: map<Uuid, Uuid>, i: nat, j: int)
    requires |lab| == |cs| && i < |cs|
  {
    0 <= j < |cs| && lab[j] == lab[i] && cs[j].id in prior
  }

  /** No prior story of `i`'s component has candidates in another one. */
  ghost predicate Whole(cs: seq<Cluster>, lab: seq<nat>, prior: map<Uuid, Uuid>, i: nat)
    requires |lab| == |cs| && i < |cs|
  {
    forall j, h | Shares(cs, lab, prior, i, j) && 0 <= h < |cs| && cs[h].id in prior && lab[h] != lab[i] :: prior[cs[j].id] != prior[cs[h].id]
  }

  /** An id a whole component carries is claimed by no earlier component. */
  lemma WholeUnclaimed(cs: seq<Cluster>, lab: seq<nat>, slot: seq<nat>, prior: map<Uuid, Uuid>, mint: nat -> Uuid, i: nat, j: nat, h: nat)
    requires |lab| == |cs| && Candidates(cs) && Canonical(lab) && Lists(OrderedClasses(cs, lab), cs, lab)
    requires LinkLaws.Filed(OrderedClasses(cs, lab), cs, lab, slot) && Fresh(mint, prior.Values)
    requires i < |cs| && Whole(cs, lab, prior, i) && Shares(cs, lab, prior, i, j) && h < slot[i]
    ensures StoryIds(cs, lab, prior, mint)[h] != prior[cs[j].id]
  {
    var ks := OrderedClasses(cs, lab);
    OrderedReadable(cs, lab);
    var carried := AllPriorIds(cs, prior, ks);
    SurvivorAt(carried, {}, mint, 0, h);
    var id := StoryIds(cs, lab, prior, mint)[h];
    if id in carried[h] {
      SlotCarries(ks, cs, lab, slot, prior, h, id);
      var x: nat :| x < |cs| && slot[x] == h && cs[x].id in prior && prior[cs[x].id] == id;
      assert lab[x] != lab[i];
    }
  }

  lemma WholeCarries(cs: seq<Cluster>, lab: seq<nat>, slot: seq<nat>, prior: map<Uuid, Uuid>, mint: nat -> Uuid, i: nat, id: Uuid)
    requires |lab| == |cs| && Candidates(cs) && Canonical(lab) && Lists(OrderedClasses(cs, lab), cs, lab)
    requires LinkLaws.Filed(OrderedClasses(cs, lab), cs, lab, slot) && Fresh(mint, prior.Values) && i < |cs| && Whole(cs, lab, prior, i)
    ensures id in Unclaimed(cs, lab, prior, mint, slot[i]) <==> exists j: nat :: Shares(cs, lab, prior, i, j) && prior[cs[j].id] == id
  {
    var ks := OrderedClasses(cs, lab);
    OrderedReadable(cs, lab);
    SlotCarries(ks, cs, lab, slot, prior, slot[i], id);
    if j: nat :| Shares(cs, lab, prior, i, j) && prior[cs[j].id] == id {
      assert slot[j] == slot[i];
      forall h: nat | h < slot[i] ensures StoryIds(cs, lab, prior, mint)[h] != id {
        WholeUnclaimed(cs, lab, slot, prior, mint, i, j, h);
      }
    }
    if x: nat :| x < |cs| && slot[x] == slot[i] && cs[x].id in prior && prior[cs[x].id] == id {
      assert Shares(cs, lab, prior, i, x);
    }
  }

  /** The oldest prior id of a whole component that has one is the id it keeps. */
  lemma WholeSlotKeeps(cs: seq<Cluster>, lab: seq<nat>, slot: seq<nat>, prior: map<Uuid, Uuid>, mint: nat -> Uuid, i: nat) returns (o: nat)
    requires |lab| == |cs| && Candidates(cs) && Canonical(lab) && Lists(OrderedClasses(cs, lab), cs, lab)
    requires LinkLaws.Filed(OrderedClasses(cs, lab), cs, lab, slot) && Fresh(mint, prior.Values)
    requires i < |cs| && cs[i].id in prior && Whole(cs, lab, prior, i)
    ensures OldestShared(cs, lab, prior, i, o) && StoryIds(cs, lab, prior, mint)[slot[i]] == prior[cs[o].id]
  {
    var id := StoryIds(cs, lab, prior, mint)[slot[i]];
    SlotKeepsOldest(cs, lab, prior, mint, slot[i]);
    forall j | Shares(cs, lab, prior, i, j) ensures prior[cs[j].id] in Unclaimed(cs, lab, prior, mint, slot[i]) {
      WholeCarries(cs, lab, slot, prior, mint, i, prior[cs[j].id]);
    }
    assert Shares(cs, lab, prior, i, i);
    WholeCarries(cs, lab, slot, prior, mint, i, id);
    o :| Shares(cs, lab, prior, i, o) && prior[cs[o].id] == id;
  }

  /** `o` has the oldest prior story of `i`'s component. */
  ghost predicate OldestShared(cs: seq<Cluster>, lab: seq<nat>, prior: map<Uuid, Uuid>, i: nat, o: nat)
    requires |lab| == |cs| && i < |cs|
  {
    Shares(cs, lab, prior, i, o) && forall j | Shares(cs, lab, prior, i, j) :: prior[cs[o].id] <= prior[cs[j].id]
  }

  /** An undelivered row older than every delivered one among the component's prior stories. */
  ghost predicate OlderUndelivered(rows: Table, cs: seq<Cluster>, lab: seq<nat>, i: nat, j: nat)
    requires Sound(rows) && |lab| == |cs| && i < |cs|
  {
    var prior := PriorOf(rows);
    && Shares(cs, lab, prior, i, j) && prior[cs[j].id] in rows && !rows[prior[cs[j].id]].delivered
    && forall h | Shares(cs, lab, prior, i, h) && prior[cs[h].id] in rows && rows[prior[cs[h].id]].delivered :: prior[cs[j].id] < prior[cs[h].id]
  }

  /**
   * Where no prior story splits, the story that takes in a delivered story's cluster ends undelivered exactly
   * when one of the stories it merges is an undelivered row older than all the delivered ones.
   */
  lemma MarkLostIff(rows: Table, cs: seq<Cluster>, es: seq<Edge>, mint: nat -> Uuid, now: Time, i: nat, s: LinkedStory)
    requires Sound(rows) && Candidates(cs) && InRange(es, |cs|) && Fresh(mint, rows.Keys) && i < |cs|
    requires cs[i].id in PriorOf(rows) && rows[PriorOf(rows)[cs[i].id]].delivered
    requires s in Link(cs, es, PriorOf(rows), DeliveredOf(rows), mint).stories && Holds(s, cs[i].id)
    requires Whole(cs, StoryLabels(cs, es, PriorOf(rows), DeliveredOf(rows)), PriorOf(rows), i)
    ensures s.id in Fired(rows, cs, es, mint, now)
    ensures !Fired(rows, cs, es, mint, now)[s.id].delivered
       <==> exists j :: OlderUndelivered(rows, cs, StoryLabels(cs, es, PriorOf(rows), DeliveredOf(rows)), i, j)
  {
    var lab, prior := StoryLabels(cs, es, PriorOf(rows), DeliveredOf(rows)), PriorOf(rows);
    FreshForPrior(rows, mint);
    var slot := StorySlot(cs, es, prior, DeliveredOf(rows), mint, i, s);
    var o := WholeSlotKeeps(cs, lab, slot, prior, mint, i);
    LinkFits(rows, cs, es, mint);
    PersistedMark(rows, IdSet(cs), Link(cs, es, prior, DeliveredOf(rows), mint), now, s);
    PriorOfMeaning(rows, cs[o].id, s.id);
    OldestDecides(rows, cs, lab, i, o);
  }

  lemma OldestDecides(rows: Table, cs: seq<Cluster>, lab: seq<nat>, i: nat, o: nat)
    requires Sound(rows) && |lab| == |cs| && i < |cs| && OldestShared(cs, lab, PriorOf(rows), i, o)
    ensures PriorOf(rows)[cs[o].id] in rows
    ensures !rows[PriorOf(rows)[cs[o].id]].delivered <==> exists j :: OlderUndelivered(rows, cs, lab, i, j)
  {
    var prior := PriorOf(rows);
    PriorOfMeaning(rows, cs[o].id, prior[cs[o].id]);
    if !rows[prior[cs[o].id]].delivered {
      assert OlderUndelivered(rows, cs, lab, i, o);
    }
  }
}
