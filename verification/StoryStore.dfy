/** The story table as an object: loading, persisting, and firing, each proved against its effect on the rows. */
module StoryStore {
  import opened LinkModel
  import opened LinkIds
  import opened Linking
  import opened StoryRows
  import StoryRowsLaws

  class StoryTable {
    var rows: Table

    ghost predicate Valid()
      reads this
    {
      Sound(rows)
    }

    constructor ()
      ensures Valid() && rows == map[]
    {
      rows := map[];
    }

    /** Reads the live rows in whatever order the database returns them. */
    method LoadPriorMembers() returns (prior: seq<PriorMember>)
      ensures Loaded(rows, prior)
    {
      prior := [];
      var rest, seen: set<Uuid> := rows.Keys, {};
      while rest != {}
        invariant rest <= rows.Keys && seen == rows.Keys - rest
        invariant forall m :: m in prior <==>
          && m.storyId in seen && rows[m.storyId].mergedInto.None?
          && m.delivered == rows[m.storyId].delivered && Contains(rows[m.storyId], m.clusterId)
        decreases rest
      {
        var id :| id in rest;
        if rows[id].mergedInto.None? {
          var members := RowMembers(id, rows[id]);
          prior := prior + members;
        }
        rest, seen := rest - {id}, seen + {id};
      }
    }

    static method RowMembers(id: Uuid, row: Row) returns (members: seq<PriorMember>)
      ensures forall m :: m in members <==> m.storyId == id && m.delivered == row.delivered && Contains(row, m.clusterId)
    {
      members := [];
      for k := 0 to |row.clusters|
        invariant forall m :: m in members <==>
          m.storyId == id && m.delivered == row.delivered && exists r | r in row.clusters[..k] :: r.clusterId == m.clusterId
      {
        assert row.clusters[..k + 1] == row.clusters[..k] + [row.clusters[k]];
        members := members + [PriorMember(row.clusters[k].clusterId, id, row.delivered)];
      }
      assert row.clusters[..|row.clusters|] == row.clusters;
    }

    /** Upserts the current stories, then tombstones the merge losers, in one transaction. */
    method PersistAssignment(a: Assignment, now: Time)
      modifies this
      ensures rows == Persisted(old(rows), a, now)
    {
      for k := 0 to |a.stories|
        invariant rows == Upserted(old(rows), a.stories[..k], now)
      {
        assert a.stories[..k + 1][..k] == a.stories[..k];
        rows := rows[a.stories[k].id := Written(rows, a.stories[k], now)];
      }
      assert a.stories[..|a.stories|] == a.stories;
      for k := 0 to |a.merges|
        invariant rows == Tombstoned(Upserted(old(rows), a.stories, now), a.merges[..k], now)
      {
        assert a.merges[..k + 1][..k] == a.merges[..k];
        rows := Tombstone(rows, a.merges[k], now);
      }
      assert a.merges[..|a.merges|] == a.merges;
    }

    /** Marks the stories of a delivered digest. */
    method MarkStoriesDelivered(ids: set<Uuid>)
      requires Valid()
      modifies this
      ensures Valid() && rows == MarkDelivered(old(rows), ids)
    {
      StoryRowsLaws.DeliverKeepsSound(rows, ids);
      rows := map id | id in rows :: if id in ids then rows[id].(delivered := true) else rows[id];
    }

    /** A fire's whole effect on the table is a function of the table, whatever order the prior rows came back in. */
    method Fire(cs: seq<Cluster>, tuning: Tuning, ln: real -> real, mint: nat -> Uuid, now: Time)
      requires Valid() && Candidates(cs) && Fresh(mint, rows.Keys)
      modifies this
      ensures Valid() && rows == Fired(old(rows), cs, LinkEdges(cs, tuning, ln), mint, now)
    {
      StoryRowsLaws.FireKeepsSound(rows, cs, LinkEdges(cs, tuning, ln), mint, now);
      var prior := LoadPriorMembers();
      LoadedIsPrior(rows, prior);
      var a := LinkWith(cs, prior, tuning, ln, mint);
      PersistAssignment(a, now);
    }
  }
}
