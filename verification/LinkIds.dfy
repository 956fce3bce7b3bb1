/** Claiming, minting and absorbing story ids, over the lists of prior ids each component carries. */
module LinkIds {
  import opened Ordering
  import opened LinkModel
  import opened LinkForwarding

  /** Minted ids are new: distinct from each other and from every id in `used`. */
  ghost predicate Fresh(mint: nat -> Uuid, used: set<Uuid>) {
    && (forall i, j {:trigger mint(i), mint(j)} | 0 <= i < j :: mint(i) != mint(j))
    && (forall i {:trigger mint(i)} | 0 <= i :: mint(i) !in used)
  }

  ghost function AllCarried(carried: seq<seq<Uuid>>): set<Uuid> {
    set k: nat, id | k < |carried| && id in carried[k] :: id
  }

  lemma {:induction false} FirstUnclaimedOldest(ids: seq<Uuid>, claimed: set<Uuid>, id: Uuid)
    requires Ascending(IdLe, ids) && id in ids && id !in claimed
    ensures FirstUnclaimed(ids, claimed).Some? && FirstUnclaimed(ids, claimed).value <= id
  {
    if ids[0] in claimed {
      assert ids == [ids[0]] + ids[1..];
      FirstUnclaimedOldest(ids[1..], claimed, id);
    } else {
      var i :| 0 <= i < |ids| && ids[i] == id;
      if i > 0 { assert IdLe(ids[0], ids[i]); }
    }
  }

  /** What the claiming walk has used up: ids carried somewhere, or minted before position `minted`. */
  ghost predicate ClaimedSoFar(claimed: set<Uuid>, used: set<Uuid>, mint: nat -> Uuid, minted: nat) {
    forall id | id in claimed :: id in used || exists m: nat :: m < minted && id == mint(m)
  }

  lemma {:induction false} SurvivorsDistinct(carried: seq<seq<Uuid>>, claimed: set<Uuid>, used: set<Uuid>, mint: nat -> Uuid, minted: nat)
    requires Fresh(mint, used) && AllCarried(carried) <= used && ClaimedSoFar(claimed, used, mint, minted)
    ensures var ids := Survivors(carried, claimed, mint, minted);
      Distinct(ids) && forall id | id in ids :: id !in claimed
  {
    if carried != [] {
      var rest := carried[1..];
      assert AllCarried(rest) <= used by {
        forall id | id in AllCarried(rest) ensures id in used {
          var k: nat :| k < |rest| && id in rest[k];
          assert id in carried[k + 1];
          assert id in AllCarried(carried);
        }
      }
      match FirstUnclaimed(carried[0], claimed) {
        case Some(id) =>
          assert id in AllCarried(carried);
          SurvivorsDistinct(rest, claimed + {id}, used, mint, minted);
        case None =>
          var id := mint(minted);
          forall m: nat | m < minted ensures id != mint(m) {}
          SurvivorsDistinct(rest, claimed + {id}, used, mint, minted + 1);
      }
    }
  }

  /** At each position the survivor is the oldest carried id not claimed earlier, if there is one. */
  lemma {:induction false} SurvivorAt(carried: seq<seq<Uuid>>, claimed: set<Uuid>, mint: nat -> Uuid, minted: nat, k: nat)
    requires k < |carried|
    ensures var ids := Survivors(carried, claimed, mint, minted);
      var before := claimed + SetOf(ids[..k]);
      match FirstUnclaimed(carried[k], before)
      case Some(id) => ids[k] == id
      case None => exists m: nat :: ids[k] == mint(m)
  {
    var ids := Survivors(carried, claimed, mint, minted);
    var first := FirstUnclaimed(carried[0], claimed);
    var next := if first.Some? then minted else minted + 1;
    assert ids[1..] == Survivors(carried[1..], claimed + {ids[0]}, mint, next);
    if k == 0 {
      assert claimed + SetOf(ids[..0]) == claimed;
    } else {
      SurvivorAt(carried[1..], claimed + {ids[0]}, mint, next, k - 1);
      assert ids[..k] == [ids[0]] + ids[1..][..k - 1];
      assert claimed + {ids[0]} + SetOf(ids[1..][..k - 1]) == claimed + SetOf(ids[..k]);
    }
  }

  lemma {:induction false} MergesMeaning(carried: seq<seq<Uuid>>, survivors: seq<Uuid>, claimed: set<Uuid>, m: Merge)
    requires |carried| == |survivors|
    ensures m in Merges(carried, survivors, claimed)
       <==> exists k: nat :: k < |carried| && m.survivor == survivors[k] && m.loser in carried[k]
                             && m.loser != m.survivor && m.loser !in claimed
  {
    if carried != [] {
      AbsorbedMeaning(carried[0], survivors[0], claimed, m);
      MergesMeaning(carried[1..], survivors[1..], claimed, m);
      if k: nat :| k < |carried| && m.survivor == survivors[k] && m.loser in carried[k] && m.loser != m.survivor && m.loser !in claimed {
        if k > 0 {
          assert carried[1..][k - 1] == carried[k] && survivors[1..][k - 1] == survivors[k];
        }
      }
      if k: nat :| k < |carried[1..]| && m.survivor == survivors[1..][k] && m.loser in carried[1..][k] && m.loser != m.survivor && m.loser !in claimed {
        assert carried[k + 1] == carried[1..][k] && survivors[k + 1] == survivors[1..][k];
      }
    }
  }

  /**
   * Every carried prior id names a story or was absorbed, never both; each merge points to a strictly older
   * prior id carried by the same component; and story ids are distinct.
   */
  ghost predicate Accounted(carried: seq<seq<Uuid>>, ids: seq<Uuid>) {
    && |carried| == |ids| && Distinct(ids)
    && (forall k, id | 0 <= k < |carried| && id in carried[k] :: id in ids || Merge(id, ids[k]) in Merges(carried, ids, SetOf(ids)))
    && (forall m | m in Merges(carried, ids, SetOf(ids)) ::
          && m.loser !in ids && m.survivor in ids && m.survivor < m.loser
          && exists k: nat :: k < |carried| && m.loser in carried[k] && m.survivor in carried[k])
  }

  lemma {:induction false} EachCarriedKept(carried: seq<seq<Uuid>>, ids: seq<Uuid>, k: nat, id: Uuid)
    requires |carried| == |ids| && k < |carried| && id in carried[k]
    ensures id in ids || Merge(id, ids[k]) in Merges(carried, ids, SetOf(ids))
  {
    MergesMeaning(carried, ids, SetOf(ids), Merge(id, ids[k]));
    assert ids[k] in ids;
  }

  lemma {:induction false} ForwardingAccounts(carried: seq<seq<Uuid>>, mint: nat -> Uuid)
    requires Fresh(mint, AllCarried(carried)) && forall k | 0 <= k < |carried| :: Ascending(IdLe, carried[k])
    ensures Accounted(carried, Survivors(carried, {}, mint, 0))
  {
    var ids := Survivors(carried, {}, mint, 0);
    SurvivorsDistinct(carried, {}, AllCarried(carried), mint, 0);
    forall k, id | 0 <= k < |carried| && id in carried[k] ensures id in ids || Merge(id, ids[k]) in Merges(carried, ids, SetOf(ids)) {
      EachCarriedKept(carried, ids, k, id);
    }
    forall m | m in Merges(carried, ids, SetOf(ids))
      ensures m.loser !in ids && m.survivor in ids && m.survivor < m.loser
      ensures exists k: nat :: k < |carried| && m.loser in carried[k] && m.survivor in carried[k]
    {
      MergesMeaning(carried, ids, SetOf(ids), m);
      var k: nat :| k < |carried| && m.survivor == ids[k] && m.loser in carried[k] && m.loser != m.survivor && m.loser !in SetOf(ids);
      LoserIsNewer(carried, mint, k, m.loser);
    }
  }

  /** An id left unclaimed by the whole walk lost to an older id of the same component. */
  lemma {:induction false} LoserIsNewer(carried: seq<seq<Uuid>>, mint: nat -> Uuid, k: nat, loser: Uuid)
    requires k < |carried| && Ascending(IdLe, carried[k]) && loser in carried[k] && loser !in Survivors(carried, {}, mint, 0)
    ensures var ids := Survivors(carried, {}, mint, 0); ids[k] in carried[k] && ids[k] < loser
  {
    var ids := Survivors(carried, {}, mint, 0);
    var before := {} + SetOf(ids[..k]);
    SurvivorAt(carried, {}, mint, 0, k);
    assert loser !in before by {
      assert forall x | x in ids[..k] :: x in ids;
    }
    FirstUnclaimedOldest(carried[k], before, loser);
  }

  lemma {:induction false} SelfCarried(carried: seq<seq<Uuid>>, ids: seq<Uuid>, claimed: set<Uuid>, mint: nat -> Uuid, minted: nat)
    requires |carried| == |ids| && Distinct(ids) && forall k | 0 <= k < |ids| :: carried[k] == [ids[k]] && ids[k] !in claimed
    ensures Survivors(carried, claimed, mint, minted) == ids
  {
    if carried != [] {
      SelfCarried(carried[1..], ids[1..], claimed + {ids[0]}, mint, minted);
    }
  }

  lemma {:induction false} SelfMerges(carried: seq<seq<Uuid>>, ids: seq<Uuid>, claimed: set<Uuid>)
    requires |carried| == |ids| && forall k | 0 <= k < |ids| :: carried[k] == [ids[k]] && ids[k] in claimed
    ensures Merges(carried, ids, claimed) == []
  {
    if carried != [] {
      assert carried[0] == [ids[0]] && carried[0][1..] == [];
      assert Absorbed(carried[0], ids[0], claimed) == [];
      SelfMerges(carried[1..], ids[1..], claimed);
    }
  }
}
