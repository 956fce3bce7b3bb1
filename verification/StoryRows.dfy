/** The rows of one subscriber's story table: what a fire reads back, what it writes, and the step as a whole. */
module StoryRows {
  import opened Ordering
  import opened LinkModel
  import opened LinkComponents
  import opened Linking

  /** A story row. A tombstone has `mergedInto` set and no clusters left. */
  datatype Row = Row(
    clusters: seq<ClusterRef>, firstEventTime: Time, lastEventTime: Time, eventCount: int, sourceDiversity: nat,
    contentDepth: ContentKind, maxSeverity: Option<int>, mergedInto: Option<Uuid>, delivered: bool, updatedAt: Time)

  type Table = map<Uuid, Row>

  ghost predicate Contains(row: Row, c: Uuid) {
    exists r | r in row.clusters :: r.clusterId == c
  }

  /**
   * Every tombstone is empty and points at a strictly older row of the table, and no cluster sits in two rows.
   */
  ghost predicate Sound(rows: Table) {
    && (forall id | id in rows && rows[id].mergedInto.Some? ::
          rows[id].clusters == [] && rows[id].mergedInto.value in rows && rows[id].mergedInto.value < id)
    && (forall x, y, c | x in rows && y in rows && Contains(rows[x], c) && Contains(rows[y], c) :: x == y)
  }

  // ── Reading the prior assignment ──

  /** `prior` lists the members of the live rows, in any order. */
  ghost predicate Loaded(rows: Table, prior: seq<PriorMember>) {
    forall m :: m in prior <==>
      && m.storyId in rows && rows[m.storyId].mergedInto.None?
      && m.delivered == rows[m.storyId].delivered && Contains(rows[m.storyId], m.clusterId)
  }

  /** Every cluster some row holds. */
  ghost function Filed(rows: Table): set<Uuid> {
    set id, r | id in rows && r in rows[id].clusters :: r.clusterId
  }

  ghost function Owner(rows: Table, c: Uuid): (id: Uuid)
    requires c in Filed(rows)
    ensures id in rows && Contains(rows[id], c)
  {
    var id :| id in rows && Contains(rows[id], c);
    id
  }

  /** The story each filed cluster belongs to. */
  ghost function PriorOf(rows: Table): map<Uuid, Uuid> {
    map c | c in Filed(rows) :: Owner(rows, c)
  }

  ghost function DeliveredOf(rows: Table): set<Uuid> {
    set id | id in rows && rows[id].delivered && rows[id].clusters != []
  }

  lemma PriorOfMeaning(rows: Table, c: Uuid, id: Uuid)
    requires Sound(rows)
    ensures c in PriorOf(rows) && PriorOf(rows)[c] == id <==> id in rows && Contains(rows[id], c)
  {
  }

  lemma {:induction false} PriorStoryMeaning(prior: seq<PriorMember>, c: Uuid)
    ensures c in PriorStory(prior) <==> exists m | m in prior :: m.clusterId == c
    ensures c in PriorStory(prior) ==> exists m | m in prior :: m.clusterId == c && m.storyId == PriorStory(prior)[c]
  {
    if prior != [] {
      var front, last := prior[..|prior| - 1], prior[|prior| - 1];
      assert prior == front + [last];
      PriorStoryMeaning(front, c);
      if m :| m in prior && m.clusterId == c && last.clusterId != c {
        assert m in front;
      }
    }
  }

  /** Whatever order the rows are read in, the prior assignment is the table's. */
  lemma {:induction false} LoadedIsPrior(rows: Table, prior: seq<PriorMember>)
    requires Sound(rows) && Loaded(rows, prior)
    ensures PriorStory(prior) == PriorOf(rows) && DeliveredStories(prior) == DeliveredOf(rows)
  {
    forall c ensures c in PriorStory(prior) <==> c in PriorOf(rows) {
      PriorStoryMeaning(prior, c);
      if c in PriorOf(rows) {
        var id := Owner(rows, c);
        assert PriorMember(c, id, rows[id].delivered) in prior;
      }
    }
    forall c | c in PriorStory(prior) ensures PriorStory(prior)[c] == PriorOf(rows)[c] {
      PriorStoryMeaning(prior, c);
      PriorOfMeaning(rows, c, PriorStory(prior)[c]);
    }
    forall id | id in DeliveredOf(rows) ensures id in DeliveredStories(prior) {
      var r := rows[id].clusters[0];
      assert Contains(rows[id], r.clusterId);
      assert PriorMember(r.clusterId, id, true) in prior;
    }
  }

  // ── Writing an assignment ──

  predicate SameContent(x: Row, y: Row) {
    x.(delivered := y.delivered, updatedAt := y.updatedAt) == y
  }

  /** The row an upsert leaves: `delivered` survives, and the timestamp moves only when something else did. */
  function Written(rows: Table, s: LinkedStory, now: Time): Row {
    var content := Row(s.clusters, s.firstEventTime, s.lastEventTime, s.eventCount, s.sourceDiversity, s.contentDepth,
                     s.maxSeverity, None, false, now);
    if s.id !in rows then content
    else if SameContent(content, rows[s.id]) then rows[s.id]
    else content.(delivered := rows[s.id].delivered)
  }

  function Upserted(rows: Table, stories: seq<LinkedStory>, now: Time): Table {
    if stories == [] then rows
    else
      var earlier, s := Upserted(rows, stories[..|stories| - 1], now), stories[|stories| - 1];
      earlier[s.id := Written(earlier, s, now)]
  }

  function Tombstone(rows: Table, m: Merge, now: Time): Table {
    if m.loser in rows then
      rows[m.loser := rows[m.loser].(mergedInto := Some(m.survivor), clusters := [], updatedAt := now)]
    else rows
  }

  function Tombstoned(rows: Table, merges: seq<Merge>, now: Time): Table {
    if merges == [] then rows
    else Tombstone(Tombstoned(rows, merges[..|merges| - 1], now), merges[|merges| - 1], now)
  }

  function Persisted(rows: Table, a: Assignment, now: Time): Table {
    Tombstoned(Upserted(rows, a.stories, now), a.merges, now)
  }

  function MarkDelivered(rows: Table, ids: set<Uuid>): Table {
    map id | id in rows :: if id in ids then rows[id].(delivered := true) else rows[id]
  }

  /** One fire: load the prior assignment, link the candidates, persist the result. */
  ghost function Fired(rows: Table, cs: seq<Cluster>, es: seq<Edge>, mint: nat -> Uuid, now: Time): Table
    requires Candidates(cs) && InRange(es, |cs|)
  {
    Persisted(rows, Link(cs, es, PriorOf(rows), DeliveredOf(rows), mint), now)
  }
}
