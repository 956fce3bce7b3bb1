/** What a fire and a delivery leave in the story table, field by field. */
module RowMeaning {
  import opened Ordering
  import opened LinkModel
  import opened LinkIds
  import opened Linking
  import opened StoryRows
  import opened StoryRowsLaws

  /** The row shows the story. */
  predicate Shows(row: Row, s: LinkedStory) {
    && row.clusters == s.clusters && row.firstEventTime == s.firstEventTime && row.lastEventTime == s.lastEventTime
    && row.eventCount == s.eventCount && row.sourceDiversity == s.sourceDiversity && row.contentDepth == s.contentDepth
    && row.maxSeverity == s.maxSeverity && row.mergedInto == None
  }

  lemma WrittenShows(rows: Table, s: LinkedStory, now: Time)
    ensures var row := Written(rows, s, now);
      && Shows(row, s) && (row.delivered <==> s.id in rows && rows[s.id].delivered)
      && row.updatedAt == if s.id in rows && Shows(rows[s.id], s) then rows[s.id].updatedAt else now
  {
  }

  /** A story's row shows the story, keeps its delivered mark, and is dated anew exactly when it did not show it before. */
  lemma StoryStored(rows: Table, cs: seq<Cluster>, es: seq<Edge>, mint: nat -> Uuid, now: Time, s: LinkedStory)
    requires Sound(rows) && Candidates(cs) && InRange(es, |cs|) && Fresh(mint, rows.Keys)
    requires s in Link(cs, es, PriorOf(rows), DeliveredOf(rows), mint).stories
    ensures s.id in Fired(rows, cs, es, mint, now)
    ensures var row := Fired(rows, cs, es, mint, now)[s.id];
      && Shows(row, s) && (row.delivered <==> s.id in rows && rows[s.id].delivered)
      && row.updatedAt == if s.id in rows && Shows(rows[s.id], s) then rows[s.id].updatedAt else now
  {
    LinkFits(rows, cs, es, mint);
    PersistedRow(rows, Link(cs, es, PriorOf(rows), DeliveredOf(rows), mint), now, s.id);
    WrittenShows(rows, s, now);
  }

  lemma {:induction false} TombstoneFields(rows: Table, merges: seq<Merge>, now: Time, id: Uuid)
    requires id in rows && Loses(merges, id)
    ensures id in Tombstoned(rows, merges, now)
    ensures exists m | m in merges && m.loser == id ::
      Tombstoned(rows, merges, now)[id] == rows[id].(mergedInto := Some(m.survivor), clusters := [], updatedAt := now)
  {
    var front, last := merges[..|merges| - 1], merges[|merges| - 1];
    assert merges == front + [last];
    TombstonedRow(rows, front, now, id);
    if Loses(front, id) {
      TombstoneFields(rows, front, now, id);
      var m :| m in front && m.loser == id
               && Tombstoned(rows, front, now)[id] == rows[id].(mergedInto := Some(m.survivor), clusters := [], updatedAt := now);
      assert m in merges && last in merges;
    } else {
      assert last.loser == id && last in merges;
    }
  }

  /** A story merged away keeps its row as a signpost: emptied, dated now, pointing at what absorbed it, otherwise unchanged. */
  lemma LoserRetired(rows: Table, cs: seq<Cluster>, es: seq<Edge>, mint: nat -> Uuid, now: Time, loser: Uuid)
    requires Sound(rows) && Candidates(cs) && InRange(es, |cs|) && Fresh(mint, rows.Keys)
    requires Loses(Link(cs, es, PriorOf(rows), DeliveredOf(rows), mint).merges, loser)
    ensures loser in rows && loser in Fired(rows, cs, es, mint, now)
    ensures exists m | m in Link(cs, es, PriorOf(rows), DeliveredOf(rows), mint).merges && m.loser == loser ::
      Fired(rows, cs, es, mint, now)[loser] == rows[loser].(mergedInto := Some(m.survivor), clusters := [], updatedAt := now)
  {
    var a := Link(cs, es, PriorOf(rows), DeliveredOf(rows), mint);
    LinkFits(rows, cs, es, mint);
    LoserNotWritten(rows, IdSet(cs), a, loser);
    UpsertedOther(rows, a.stories, now, loser);
    TombstoneFields(Upserted(rows, a.stories, now), a.merges, now, loser);
  }

  lemma LoserNotWritten(rows: Table, candidates: set<Uuid>, a: Assignment, loser: Uuid)
    requires Fits(rows, candidates, a) && Loses(a.merges, loser)
    ensures loser in rows && !Writes(a.stories, loser)
  {
  }

  /** A row that is neither a story's nor merged away stays as it is, and no other row appears. */
  lemma OthersUntouched(rows: Table, cs: seq<Cluster>, es: seq<Edge>, mint: nat -> Uuid, now: Time, id: Uuid)
    requires Sound(rows) && Candidates(cs) && InRange(es, |cs|) && Fresh(mint, rows.Keys)
    requires var a := Link(cs, es, PriorOf(rows), DeliveredOf(rows), mint); !Writes(a.stories, id) && !Loses(a.merges, id)
    ensures var next := Fired(rows, cs, es, mint, now); (id in next <==> id in rows) && (id in rows ==> next[id] == rows[id])
  {
    LinkFits(rows, cs, es, mint);
    PersistedRow(rows, Link(cs, es, PriorOf(rows), DeliveredOf(rows), mint), now, id);
  }
}
