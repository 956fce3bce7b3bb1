/** Over every run of fires and deliveries the story table stays sound, redirects stay valid, and re-firing is quiet. */
module StoryRowsLaws {
  import opened Ordering
  import opened Connectivity
  import opened LinkModel
  import opened LinkForwarding
  import opened LinkIds
  import opened Linking
  import opened LinkLaws
  import opened StoryRows
  import LinkComponents
  import Runs

  // ── What the writes do to each row ──

  ghost predicate Writes(stories: seq<LinkedStory>, id: Uuid) {
    exists s | s in stories :: s.id == id
  }

  ghost predicate OnePerId(stories: seq<LinkedStory>) {
    Distinct(stories) && forall x, y | x in stories && y in stories && x.id == y.id :: x == y
  }

  lemma {:induction false} UpsertedOther(rows: Table, stories: seq<LinkedStory>, now: Time, id: Uuid)
    ensures id in Upserted(rows, stories, now) <==> id in rows || Writes(stories, id)
    ensures id in rows && !Writes(stories, id) ==> Upserted(rows, stories, now)[id] == rows[id]
  {
    if stories != [] {
      var front, last := stories[..|stories| - 1], stories[|stories| - 1];
      assert stories == front + [last];
      UpsertedOther(rows, front, now, id);
      assert Writes(stories, id) <==> Writes(front, id) || last.id == id;
    }
  }

  lemma {:induction false} UpsertedStory(rows: Table, stories: seq<LinkedStory>, now: Time, s: LinkedStory)
    requires OnePerId(stories) && s in stories
    ensures s.id in Upserted(rows, stories, now) && Upserted(rows, stories, now)[s.id] == Written(rows, s, now)
  {
    var front, last := stories[..|stories| - 1], stories[|stories| - 1];
    assert stories == front + [last];
    if s == last {
      assert !Writes(front, s.id) by {
        assert last !in front;
      }
      UpsertedOther(rows, front, now, s.id);
    } else {
      UpsertedStory(rows, front, now, s);
    }
  }

  ghost predicate Loses(merges: seq<Merge>, id: Uuid) {
    exists m | m in merges :: m.loser == id
  }

  lemma {:induction false} TombstonedRow(rows: Table, merges: seq<Merge>, now: Time, id: Uuid)
    ensures id in Tombstoned(rows, merges, now) <==> id in rows
    ensures id in rows && !Loses(merges, id) ==> Tombstoned(rows, merges, now)[id] == rows[id]
    ensures id in rows && Loses(merges, id) ==>
      var row := Tombstoned(rows, merges, now)[id];
      && row.clusters == [] && row.delivered == rows[id].delivered
      && row.mergedInto.Some? && Merge(id, row.mergedInto.value) in merges
  {
    if merges != [] {
      var front, last := merges[..|merges| - 1], merges[|merges| - 1];
      assert merges == front + [last];
      TombstonedRow(rows, front, now, id);
      assert Loses(merges, id) <==> Loses(front, id) || last.loser == id;
    }
  }

  // ── What the table needs of an assignment ──

  /**
   * An assignment fits the table when its stories have distinct ids and disjoint candidate members, take over
   * live rows or open new ones, and every live row holding a candidate is either rewritten or merged away.
   */
  ghost predicate Fits(rows: Table, candidates: set<Uuid>, a: Assignment) {
    && OnePerId(a.stories)
    && (forall s, c | s in a.stories && Holds(s, c) :: c in candidates)
    && (forall s, t, c | s in a.stories && t in a.stories && Holds(s, c) && Holds(t, c) :: s == t)
    && (forall s | s in a.stories && s.id in rows :: rows[s.id].mergedInto == None)
    && (forall id, c | id in rows && c in candidates && Contains(rows[id], c) :: Writes(a.stories, id) || Loses(a.merges, id))
    && (forall m | m in a.merges ::
          && m.survivor < m.loser && Writes(a.stories, m.survivor) && !Writes(a.stories, m.loser)
          && m.loser in rows && rows[m.loser].mergedInto == None)
  }

  /** The row a fire leaves under an id: rewritten, merged away, or untouched. */
  lemma PersistedRow(rows: Table, a: Assignment, now: Time, id: Uuid)
    requires forall m | m in a.merges :: !Writes(a.stories, m.loser)
    requires OnePerId(a.stories)
    ensures id in Persisted(rows, a, now) <==> id in rows || Writes(a.stories, id)
    ensures forall s | s in a.stories && s.id == id :: Persisted(rows, a, now)[id] == Written(rows, s, now)
    ensures id in rows && Loses(a.merges, id) ==>
      var row := Persisted(rows, a, now)[id];
      && row.clusters == [] && row.delivered == rows[id].delivered
      && row.mergedInto.Some? && Merge(id, row.mergedInto.value) in a.merges
    ensures id in rows && !Writes(a.stories, id) && !Loses(a.merges, id) ==> Persisted(rows, a, now)[id] == rows[id]
  {
    UpsertedOther(rows, a.stories, now, id);
    TombstonedRow(Upserted(rows, a.stories, now), a.merges, now, id);
    forall s | s in a.stories && s.id == id ensures Persisted(rows, a, now)[id] == Written(rows, s, now) {
      UpsertedStory(rows, a.stories, now, s);
    }
  }

  /** A cluster held by a row after the fire is held by that row's story, or by the same untouched row before. */
  lemma PersistedContains(rows: Table, candidates: set<Uuid>, a: Assignment, now: Time, id: Uuid, c: Uuid)
    requires Fits(rows, candidates, a) && id in Persisted(rows, a, now) && Contains(Persisted(rows, a, now)[id], c)
    ensures (exists s | s in a.stories :: s.id == id && Holds(s, c))
         || (id in rows && Contains(rows[id], c) && c !in candidates)
  {
    PersistedRow(rows, a, now, id);
    if s :| s in a.stories && s.id == id {
      assert Written(rows, s, now).clusters == s.clusters;
      assert Holds(s, c);
    }
  }

  /** A fitting assignment keeps the table sound. */
  lemma PersistKeepsSound(rows: Table, candidates: set<Uuid>, a: Assignment, now: Time)
    requires Sound(rows) && Fits(rows, candidates, a)
    ensures Sound(Persisted(rows, a, now))
  {
    var next := Persisted(rows, a, now);
    forall id | id in next && next[id].mergedInto.Some?
      ensures next[id].clusters == [] && next[id].mergedInto.value in next && next[id].mergedInto.value < id
    {
      PersistedRow(rows, a, now, id);
      assert !Writes(a.stories, id);
      PersistedRow(rows, a, now, next[id].mergedInto.value);
    }
    forall x, y, c | x in next && y in next && Contains(next[x], c) && Contains(next[y], c) ensures x == y {
      PersistedContains(rows, candidates, a, now, x, c);
      PersistedContains(rows, candidates, a, now, y, c);
    }
  }

  // ── Linking fits the table it was loaded from ──

  ghost function IdSet(cs: seq<Cluster>): set<Uuid> {
    set i | 0 <= i < |cs| :: cs[i].id
  }

  lemma StoryHoldsCandidates(cs: seq<Cluster>, reasons: seq<Option<string>>, ks: seq<Keyed>, ids: seq<Uuid>, k: nat, c: Uuid)
    requires |reasons| == |cs| && Readable(cs, ks) && |ids| == |ks| && k < |ks|
    requires Holds(AllStories(cs, reasons, ks, ids)[k], c)
    ensures c in IdSet(cs)
  {
    var s := AllStories(cs, reasons, ks, ids)[k];
    var r :| r in s.clusters && r.clusterId == c;
    assert ks[k] in ks;
    RefsMeaning(cs, reasons, ks[k].members, r);
  }

  lemma SlotsDisjoint(cs: seq<Cluster>, lab: seq<nat>, slot: seq<nat>, ids: seq<Uuid>, all: seq<LinkedStory>, s: LinkedStory, t: LinkedStory, c: Uuid)
    requires Slots(cs, lab, slot, ids, all) && s in all && t in all && c in IdSet(cs) && Holds(s, c) && Holds(t, c)
    ensures s == t
  {
    var i: nat :| i < |cs| && cs[i].id == c;
    var k :| 0 <= k < |all| && all[k] == s;
    var l :| 0 <= l < |all| && all[l] == t;
    assert slot[i] == k && slot[i] == l;
  }

  lemma LinkMembers(cs: seq<Cluster>, es: seq<Edge>, prior: map<Uuid, Uuid>, delivered: set<Uuid>, mint: nat -> Uuid)
    requires Candidates(cs) && InRange(es, |cs|) && Fresh(mint, prior.Values)
    ensures var a := Link(cs, es, prior, delivered, mint);
      && OnePerId(a.stories)
      && (forall s, c | s in a.stories && Holds(s, c) :: c in IdSet(cs))
      && (forall s, t, c | s in a.stories && t in a.stories && Holds(s, c) && Holds(t, c) :: s == t)
  {
    var a, lab := Link(cs, es, prior, delivered, mint), StoryLabels(cs, es, prior, delivered);
    var ks, slot, ids, all := LinkSlots(cs, es, prior, delivered, mint);
    StoryIdsDistinct(cs, lab, prior, mint);
    DistinctById(all, ids);
    DistinctFromMultiset(all, a.stories);
    forall s, c | s in all && Holds(s, c) ensures c in IdSet(cs) {
      var k :| 0 <= k < |all| && all[k] == s;
      StoryHoldsCandidates(cs, Reasons(es, lab), ks, ids, k, c);
    }
    forall s, t, c | s in all && t in all && Holds(s, c) && Holds(t, c) ensures s == t {
      SlotsDisjoint(cs, lab, slot, ids, all, s, t, c);
    }
  }

  lemma DistinctById(all: seq<LinkedStory>, ids: seq<Uuid>)
    requires |all| == |ids| && Distinct(ids) && forall k | 0 <= k < |all| :: all[k].id == ids[k]
    ensures OnePerId(all)
  {
    forall x, y | x in all && y in all && x.id == y.id ensures x == y {
      OneStoryPerId(ids, all, x, y);
    }
  }

  lemma {:induction false} SurvivorOrigin(carried: seq<seq<Uuid>>, mint: nat -> Uuid, id: Uuid)
    requires id in Survivors(carried, {}, mint, 0)
    ensures id in AllCarried(carried) || exists n: nat :: id == mint(n)
  {
    var ids := Survivors(carried, {}, mint, 0);
    var k: nat :| k < |ids| && ids[k] == id;
    SurvivorAt(carried, {}, mint, 0, k);
  }

  /** A story keeps a prior id or takes a minted one. */
  lemma StoryIdOrigin(cs: seq<Cluster>, es: seq<Edge>, prior: map<Uuid, Uuid>, delivered: set<Uuid>, mint: nat -> Uuid, s: LinkedStory)
    requires Candidates(cs) && InRange(es, |cs|) && Fresh(mint, prior.Values) && s in Link(cs, es, prior, delivered, mint).stories
    ensures s.id in prior.Values || exists n: nat :: s.id == mint(n)
  {
    var ks, slot, ids, all := LinkSlots(cs, es, prior, delivered, mint);
    IdsOfAll(all, ids, Link(cs, es, prior, delivered, mint), s.id);
    var carried := AllPriorIds(cs, prior, ks);
    SurvivorOrigin(carried, mint, s.id);
    if s.id in AllCarried(carried) {
      var k: nat :| k < |carried| && s.id in carried[k];
      assert ks[k] in ks;
    }
  }

  lemma PriorIdsAreLive(rows: Table)
    requires Sound(rows)
    ensures forall id | id in PriorOf(rows).Values :: id in rows && rows[id].mergedInto == None
  {
    forall id | id in PriorOf(rows).Values ensures id in rows && rows[id].mergedInto == None {
      var c :| c in PriorOf(rows) && PriorOf(rows)[c] == id;
      PriorOfMeaning(rows, c, id);
    }
  }

  lemma FreshForPrior(rows: Table, mint: nat -> Uuid)
    requires Sound(rows) && Fresh(mint, rows.Keys)
    ensures Fresh(mint, PriorOf(rows).Values)
  {
    PriorIdsAreLive(rows);
  }

  /** What linking computes from a sound table fits that table. */
  lemma LinkFits(rows: Table, cs: seq<Cluster>, es: seq<Edge>, mint: nat -> Uuid)
    requires Sound(rows) && Candidates(cs) && InRange(es, |cs|) && Fresh(mint, rows.Keys)
    ensures Fits(rows, IdSet(cs), Link(cs, es, PriorOf(rows), DeliveredOf(rows), mint))
  {
    var prior, delivered := PriorOf(rows), DeliveredOf(rows);
    var a := Link(cs, es, prior, delivered, mint);
    FreshForPrior(rows, mint);
    LinkMembers(cs, es, prior, delivered, mint);
    PriorIdsAreLive(rows);
    forall s | s in a.stories && s.id in rows ensures rows[s.id].mergedInto == None {
      StoryIdOrigin(cs, es, prior, delivered, mint, s);
    }
    forall id, c | id in rows && c in IdSet(cs) && Contains(rows[id], c) ensures Writes(a.stories, id) || Loses(a.merges, id) {
      CandidateRowMoves(rows, cs, es, mint, id, c);
    }
    forall m | m in a.merges
      ensures m.survivor < m.loser && Writes(a.stories, m.survivor) && !Writes(a.stories, m.loser)
      ensures m.loser in rows && rows[m.loser].mergedInto == None
    {
      MergesPointOlder(cs, es, prior, delivered, mint, m);
      var i, j := MergesStayInStory(cs, es, prior, delivered, mint, m);
    }
  }

  lemma CandidateRowMoves(rows: Table, cs: seq<Cluster>, es: seq<Edge>, mint: nat -> Uuid, id: Uuid, c: Uuid)
    requires Sound(rows) && Candidates(cs) && InRange(es, |cs|) && Fresh(mint, PriorOf(rows).Values)
    requires id in rows && c in IdSet(cs) && Contains(rows[id], c)
    ensures var a := Link(cs, es, PriorOf(rows), DeliveredOf(rows), mint);
      Writes(a.stories, id) || Loses(a.merges, id)
  {
    PriorOfMeaning(rows, c, id);
    var i: nat :| i < |cs| && cs[i].id == c;
    PriorIdAccounted(cs, es, PriorOf(rows), DeliveredOf(rows), mint, i);
  }

  /** A fire keeps the table sound. */
  lemma FireKeepsSound(rows: Table, cs: seq<Cluster>, es: seq<Edge>, mint: nat -> Uuid, now: Time)
    requires Sound(rows) && Candidates(cs) && InRange(es, |cs|) && Fresh(mint, rows.Keys)
    ensures Sound(Fired(rows, cs, es, mint, now))
  {
    LinkFits(rows, cs, es, mint);
    PersistKeepsSound(rows, IdSet(cs), Link(cs, es, PriorOf(rows), DeliveredOf(rows), mint), now);
  }

  // ── Runs ──

  /** What happens to a table: a fire over some candidates and their edges, or a digest of some stories delivered. */
  datatype Event =
    | Fire(cs: seq<Cluster>, es: seq<Edge>, mint: nat -> Uuid, now: Time)
    | Deliver(ids: set<Uuid>)

  ghost predicate Enabled(rows: Table, e: Event) {
    e.Fire? ==> Candidates(e.cs) && InRange(e.es, |e.cs|) && Fresh(e.mint, rows.Keys)
  }

  ghost function Step(rows: Table, e: Event): Table
    requires Enabled(rows, e)
  {
    match e
    case Fire(cs, es, mint, now) => Fired(rows, cs, es, mint, now)
    case Deliver(ids) => MarkDelivered(rows, ids)
  }

  ghost predicate Next(rows: Table, next: Table) {
    exists e :: Enabled(rows, e) && next == Step(rows, e)
  }

  ghost function Steps(): (Table, Table) -> bool {
    (rows, next) => Next(rows, next)
  }

  /** The tables a run passes through. */
  ghost predicate Run(tables: seq<Table>) {
    Runs.Run(Steps(), tables)
  }

  lemma DeliverKeepsSound(rows: Table, ids: set<Uuid>)
    requires Sound(rows)
    ensures Sound(MarkDelivered(rows, ids))
  {
    var next := MarkDelivered(rows, ids);
    forall x, y, c | x in next && y in next && Contains(next[x], c) && Contains(next[y], c) ensures x == y {
      assert Contains(rows[x], c) && Contains(rows[y], c);
    }
  }

  lemma StepKeepsSound(rows: Table, e: Event)
    requires Sound(rows) && Enabled(rows, e)
    ensures Sound(Step(rows, e))
  {
    match e
    case Fire(cs, es, mint, now) => FireKeepsSound(rows, cs, es, mint, now);
    case Deliver(ids) => DeliverKeepsSound(rows, ids);
  }

  lemma NextKeepsSound(rows: Table, next: Table)
    requires Sound(rows) && Next(rows, next)
    ensures Sound(next)
  {
    var e :| Enabled(rows, e) && next == Step(rows, e);
    StepKeepsSound(rows, e);
  }

  ghost function SoundTables(): Table -> bool {
    rows => Sound(rows)
  }

  lemma StepsKeepSound()
    ensures Runs.Preserves(Steps(), SoundTables())
  {
    forall rows, next | SoundTables()(rows) && Steps()(rows, next) ensures SoundTables()(next) {
      NextKeepsSound(rows, next);
    }
  }

  /** Over every run, live stories stay disjoint and every tombstone stays empty and points at an older row. */
  lemma RunKeepsSound(tables: seq<Table>)
    requires Run(tables) && Sound(tables[0])
    ensures Sound(tables[|tables| - 1])
  {
    StepsKeepSound();
    Runs.RunKeeps(Steps(), SoundTables(), tables);
  }

  /** What a row may become: it stays, a tombstone keeps its pointer, and a delivered mark is never lost. */
  ghost predicate Evolves(rows: Table, next: Table, id: Uuid)
    requires id in rows
  {
    && id in next
    && (rows[id].mergedInto.Some? ==> next[id].mergedInto == rows[id].mergedInto)
    && (rows[id].delivered ==> next[id].delivered)
  }

  lemma StepEvolves(rows: Table, e: Event, id: Uuid)
    requires Sound(rows) && Enabled(rows, e) && id in rows
    ensures Evolves(rows, Step(rows, e), id)
  {
    if e.Fire? {
      LinkFits(rows, e.cs, e.es, e.mint);
      PersistEvolves(rows, IdSet(e.cs), Link(e.cs, e.es, PriorOf(rows), DeliveredOf(rows), e.mint), e.now, id);
    }
  }

  lemma PersistEvolves(rows: Table, candidates: set<Uuid>, a: Assignment, now: Time, id: Uuid)
    requires Sound(rows) && Fits(rows, candidates, a) && id in rows
    ensures Evolves(rows, Persisted(rows, a, now), id)
  {
    PersistedRow(rows, a, now, id);
    if s :| s in a.stories && s.id == id {
      assert Persisted(rows, a, now)[id] == Written(rows, s, now);
    }
  }

  lemma NextEvolves(rows: Table, next: Table, id: Uuid)
    requires Sound(rows) && Next(rows, next) && id in rows
    ensures Evolves(rows, next, id)
  {
    var e :| Enabled(rows, e) && next == Step(rows, e);
    StepEvolves(rows, e, id);
  }

  lemma EvolvesThrough(x: Table, y: Table, z: Table, id: Uuid)
    requires id in x && Evolves(x, y, id) && Evolves(y, z, id)
    ensures Evolves(x, z, id)
  {
  }

  ghost function EvolvedFrom(start: Table, id: Uuid): Table -> bool
    requires id in start
  {
    rows => Sound(rows) && Evolves(start, rows, id)
  }

  lemma StepsEvolve(start: Table, id: Uuid)
    requires id in start
    ensures Runs.Preserves(Steps(), EvolvedFrom(start, id))
  {
    forall rows, next | EvolvedFrom(start, id)(rows) && Steps()(rows, next) ensures EvolvedFrom(start, id)(next) {
      NextKeepsSound(rows, next);
      NextEvolves(rows, next, id);
      EvolvesThrough(start, rows, next, id);
    }
  }

  /** No row is dropped, no tombstone is revived or repointed, and no delivered mark is lost, over any run. */
  lemma RunEvolves(tables: seq<Table>, id: Uuid)
    requires Run(tables) && Sound(tables[0]) && id in tables[0]
    ensures Evolves(tables[0], tables[|tables| - 1], id)
  {
    StepsEvolve(tables[0], id);
    Runs.RunKeeps(Steps(), EvolvedFrom(tables[0], id), tables);
  }

  /** Where a link to a story leads: along `mergedInto` to a live row no newer than it. */
  ghost function Redirect(rows: Table, id: Uuid): (r: Uuid)
    requires Sound(rows) && id in rows
    ensures r in rows && rows[r].mergedInto == None && r <= id
    decreases id
  {
    if rows[id].mergedInto.None? then id else Redirect(rows, rows[id].mergedInto.value)
  }

  /** An old link goes wherever the story it used to lead to has gone since. */
  lemma {:induction false} RedirectsCompose(tables: seq<Table>, id: Uuid)
    requires Run(tables) && Sound(tables[0]) && id in tables[0]
    ensures var now := tables[|tables| - 1];
      && Sound(now) && id in now && Redirect(tables[0], id) in now
      && Redirect(now, id) == Redirect(now, Redirect(tables[0], id))
    decreases id
  {
    RunKeepsSound(tables);
    RunEvolves(tables, id);
    if tables[0][id].mergedInto.Some? {
      RedirectsCompose(tables, tables[0][id].mergedInto.value);
    }
  }

  /** A row's delivered mark is that of the id its story keeps. */
  lemma PersistedMark(rows: Table, candidates: set<Uuid>, a: Assignment, now: Time, s: LinkedStory)
    requires Fits(rows, candidates, a) && s in a.stories
    ensures s.id in Persisted(rows, a, now)
    ensures Persisted(rows, a, now)[s.id].delivered <==> s.id in rows && rows[s.id].delivered
  {
    PersistedRow(rows, a, now, s.id);
    assert Persisted(rows, a, now)[s.id] == Written(rows, s, now);
  }

  // ── Firing again ──

  lemma FireFollows(rows: Table, cs: seq<Cluster>, es: seq<Edge>, mint: nat -> Uuid, now: Time)
    requires Sound(rows) && Candidates(cs) && InRange(es, |cs|) && Fresh(mint, rows.Keys)
    ensures Follows(PriorOf(Fired(rows, cs, es, mint, now)), Link(cs, es, PriorOf(rows), DeliveredOf(rows), mint))
  {
    var a := Link(cs, es, PriorOf(rows), DeliveredOf(rows), mint);
    LinkFits(rows, cs, es, mint);
    PersistFollows(rows, IdSet(cs), a, now);
  }

  lemma PersistFollows(rows: Table, candidates: set<Uuid>, a: Assignment, now: Time)
    requires Sound(rows) && Fits(rows, candidates, a)
    ensures Follows(PriorOf(Persisted(rows, a, now)), a)
  {
    PersistKeepsSound(rows, candidates, a, now);
    forall s, r | s in a.stories && r in s.clusters
      ensures r.clusterId in PriorOf(Persisted(rows, a, now)) && PriorOf(Persisted(rows, a, now))[r.clusterId] == s.id
    {
      PersistedRow(rows, a, now, s.id);
      assert Written(rows, s, now).clusters == s.clusters;
      assert Contains(Persisted(rows, a, now)[s.id], r.clusterId);
      PriorOfMeaning(Persisted(rows, a, now), r.clusterId, s.id);
    }
  }

  lemma DeliverKeepsPrior(rows: Table, ids: set<Uuid>)
    requires Sound(rows)
    ensures PriorOf(MarkDelivered(rows, ids)) == PriorOf(rows)
  {
    var next := MarkDelivered(rows, ids);
    DeliverKeepsSound(rows, ids);
    forall c, id ensures Maps(PriorOf(next), c, id) <==> Maps(PriorOf(rows), c, id) {
      PriorOfMeaning(rows, c, id);
      PriorOfMeaning(next, c, id);
      assert id in rows ==> (Contains(rows[id], c) <==> Contains(next[id], c));
    }
    SameMap(PriorOf(next), PriorOf(rows));
  }

  ghost predicate Maps(x: map<Uuid, Uuid>, c: Uuid, id: Uuid) {
    c in x && x[c] == id
  }

  lemma SameMap(x: map<Uuid, Uuid>, y: map<Uuid, Uuid>)
    requires forall c, id :: Maps(x, c, id) <==> Maps(y, c, id)
    ensures x == y
  {
    forall c ensures (c in x <==> c in y) && (c in x && c in y ==> x[c] == y[c]) {
      if c in x { assert Maps(x, c, x[c]); }
      if c in y { assert Maps(y, c, y[c]); }
    }
  }

  /** Writing stories the table already holds changes no row, not even a timestamp. */
  lemma {:induction false} RewriteIsQuiet(rows: Table, stories: seq<LinkedStory>, now: Time)
    requires forall s | s in stories :: s.id in rows && Written(rows, s, now) == rows[s.id]
    ensures Upserted(rows, stories, now) == rows
  {
    if stories != [] {
      var front, last := stories[..|stories| - 1], stories[|stories| - 1];
      assert stories == front + [last];
      RewriteIsQuiet(rows, front, now);
    }
  }

  /** The table a fire and a later delivery leave behind. */
  ghost function FiredThenDelivered(rows: Table, cs: seq<Cluster>, es: seq<Edge>, mint: nat -> Uuid, now: Time, ids: set<Uuid>): Table
    requires Candidates(cs) && InRange(es, |cs|)
  {
    MarkDelivered(Fired(rows, cs, es, mint, now), ids)
  }

  lemma StoredStory(rows: Table, candidates: set<Uuid>, a: Assignment, now: Time, ids: set<Uuid>, s: LinkedStory, later: Time)
    requires Sound(rows) && Fits(rows, candidates, a) && s in a.stories
    ensures var table := MarkDelivered(Persisted(rows, a, now), ids);
      s.id in table && Written(table, s, later) == table[s.id]
  {
    PersistedRow(rows, a, now, s.id);
    assert Persisted(rows, a, now)[s.id] == Written(rows, s, now);
  }

  lemma QuietWhenLinkRepeats(rows: Table, cs: seq<Cluster>, es: seq<Edge>, mint: nat -> Uuid, now: Time, ids: set<Uuid>, later: Time)
    requires Sound(rows) && Candidates(cs) && InRange(es, |cs|) && Fresh(mint, rows.Keys)
    ensures var table := FiredThenDelivered(rows, cs, es, mint, now, ids);
      Persisted(table, Assignment(Link(cs, es, PriorOf(rows), DeliveredOf(rows), mint).stories, []), later) == table
  {
    var a := Link(cs, es, PriorOf(rows), DeliveredOf(rows), mint);
    var table := FiredThenDelivered(rows, cs, es, mint, now, ids);
    LinkFits(rows, cs, es, mint);
    forall s | s in a.stories ensures s.id in table && Written(table, s, later) == table[s.id] {
      StoredStory(rows, IdSet(cs), a, now, ids, s, later);
    }
    RewriteIsQuiet(table, a.stories, later);
  }

  /** What a fire leaves for the next one: a sound table whose prior assignment is the fire's own. */
  lemma AfterFire(rows: Table, cs: seq<Cluster>, es: seq<Edge>, mint: nat -> Uuid, now: Time, ids: set<Uuid>)
    requires Sound(rows) && Candidates(cs) && InRange(es, |cs|) && Fresh(mint, rows.Keys)
    ensures var table := FiredThenDelivered(rows, cs, es, mint, now, ids);
      && Sound(table)
      && Follows(PriorOf(table), Link(cs, es, PriorOf(rows), DeliveredOf(rows), mint))
      && Tracks(cs, StoryLabels(cs, es, PriorOf(rows), DeliveredOf(rows)), PriorOf(table))
  {
    var table := FiredThenDelivered(rows, cs, es, mint, now, ids);
    FireKeepsSound(rows, cs, es, mint, now);
    DeliverKeepsSound(Fired(rows, cs, es, mint, now), ids);
    FireFollows(rows, cs, es, mint, now);
    DeliverKeepsPrior(Fired(rows, cs, es, mint, now), ids);
    FreshForPrior(rows, mint);
    RelinkFixpoint(cs, es, PriorOf(rows), DeliveredOf(rows), mint, PriorOf(table), {}, mint);
  }

  lemma SameTracksSameLabels(cs: seq<Cluster>, lab: seq<nat>, again: seq<nat>, next: map<Uuid, Uuid>)
    requires Tracks(cs, lab, next) && Tracks(cs, again, next) && Canonical(lab) && Canonical(again)
    ensures again == lab
  {
    forall i, j | 0 <= i < |cs| && 0 <= j < |cs| ensures lab[i] == lab[j] <==> again[i] == again[j] {}
    CanonicalUnique(again, lab);
  }

  /**
   * Firing again over the same candidates, after any delivery, leaves the whole table as it was, timestamps
   * included, if and only if every edge still crossing two stories has both of them delivered by then.
   */
  lemma RefireQuietIff(rows: Table, cs: seq<Cluster>, es: seq<Edge>, mint: nat -> Uuid, now: Time, ids: set<Uuid>,
                       remint: nat -> Uuid, later: Time)
    requires Sound(rows) && Candidates(cs) && InRange(es, |cs|) && Fresh(mint, rows.Keys)
    requires Fresh(remint, FiredThenDelivered(rows, cs, es, mint, now, ids).Keys)
    ensures var table := FiredThenDelivered(rows, cs, es, mint, now, ids);
      && (forall i | 0 <= i < |cs| :: cs[i].id in PriorOf(table))
      && (Fired(table, cs, es, remint, later) == table <==> CrossingsDelivered(cs, es, PriorOf(table), DeliveredOf(table)))
  {
    var table := FiredThenDelivered(rows, cs, es, mint, now, ids);
    var prior, delivered := PriorOf(rows), DeliveredOf(rows);
    var next, marked := PriorOf(table), DeliveredOf(table);
    AfterFire(rows, cs, es, mint, now, ids);
    FreshForPrior(rows, mint);
    RelinkFixpoint(cs, es, prior, delivered, mint, next, marked, remint);
    if CrossingsDelivered(cs, es, next, marked) {
      QuietWhenLinkRepeats(rows, cs, es, mint, now, ids, later);
    }
    if Fired(table, cs, es, remint, later) == table {
      AfterFire(table, cs, es, remint, later, {});
      DeliverNone(table);
      SameTracksSameLabels(cs, StoryLabels(cs, es, prior, delivered), StoryLabels(cs, es, next, marked), next);
      RelinkLabels(cs, es, LinkComponents.OwnStories(cs, prior, delivered), next, marked);
    }
  }

  lemma DeliverNone(rows: Table)
    ensures MarkDelivered(rows, {}) == rows
  {
  }

  /** Once a digest has delivered every story of a fire, firing again over the same candidates is a no-op. */
  lemma DeliveredRefireQuiet(rows: Table, cs: seq<Cluster>, es: seq<Edge>, mint: nat -> Uuid, now: Time, ids: set<Uuid>,
                             remint: nat -> Uuid, later: Time)
    requires Sound(rows) && Candidates(cs) && InRange(es, |cs|) && Fresh(mint, rows.Keys)
    requires Fresh(remint, FiredThenDelivered(rows, cs, es, mint, now, ids).Keys)
    requires forall s | s in Link(cs, es, PriorOf(rows), DeliveredOf(rows), mint).stories :: s.id in ids
    ensures var table := FiredThenDelivered(rows, cs, es, mint, now, ids); Fired(table, cs, es, remint, later) == table
  {
    var table := FiredThenDelivered(rows, cs, es, mint, now, ids);
    RefireQuietIff(rows, cs, es, mint, now, ids, remint, later);
    forall i | 0 <= i < |cs| ensures PriorOf(table)[cs[i].id] in DeliveredOf(table) {
      CandidateDelivered(rows, cs, es, mint, now, ids, i);
    }
  }

  lemma CandidateDelivered(rows: Table, cs: seq<Cluster>, es: seq<Edge>, mint: nat -> Uuid, now: Time, ids: set<Uuid>, i: nat)
    requires Sound(rows) && Candidates(cs) && InRange(es, |cs|) && Fresh(mint, rows.Keys) && i < |cs|
    requires forall s | s in Link(cs, es, PriorOf(rows), DeliveredOf(rows), mint).stories :: s.id in ids
    ensures var table := FiredThenDelivered(rows, cs, es, mint, now, ids);
      cs[i].id in PriorOf(table) && PriorOf(table)[cs[i].id] in DeliveredOf(table)
  {
    var table := FiredThenDelivered(rows, cs, es, mint, now, ids);
    AfterFire(rows, cs, es, mint, now, ids);
    SameStory(cs, es, PriorOf(rows), DeliveredOf(rows), mint, i, i);
    var s :| s in Link(cs, es, PriorOf(rows), DeliveredOf(rows), mint).stories && Holds(s, cs[i].id);
    var r :| r in s.clusters && r.clusterId == cs[i].id;
    PriorOfMeaning(table, cs[i].id, s.id);
  }
}
