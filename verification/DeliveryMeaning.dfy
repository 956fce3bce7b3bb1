/** What a window freezes, and what its delivery writes. */
module DeliveryMeaning {
  import opened Ordering
  import opened LinkModel
  import opened Select
  import opened Delivery
  import opened SelectLaws
  import opened SelectMeaning

  function IsSelected(): Decision -> bool {
    (d: Decision) => d.verdict.Selected?
  }

  /** Each item keeps the story, its last event time, and the format it has by nature. */
  ghost predicate Freezes(items: seq<FrozenItem>, ds: seq<Decision>) {
    |items| == |ds| && forall k | 0 <= k < |ds| ::
      items[k].storyId == ds[k].id && items[k].lastEventTime == ds[k].lastEventTime && items[k].format == ds[k].naturalFormat
  }

  lemma {:induction false} FrozenInOrder(ds: seq<Decision>)
    ensures Freezes(FrozenItems(ds), Filter(IsSelected(), ds))
  {
    if ds != [] {
      FrozenInOrder(ds[1..]);
      FilterCons(IsSelected(), ds[0], ds[1..]);
      assert ds == [ds[0]] + ds[1..];
    }
  }

  /** The frozen items are the selected decisions, the item at render position `k` being the decision selected for it. */
  lemma FrozenMeaning(cs: seq<Candidate>, cfg: Config, maxItems: nat, half: (real, real) -> real, now: Time, displayFloor: Time)
    ensures var ds := Decisions(cs, cfg, maxItems, half, now, displayFloor);
      var chosen := Filter(IsSelected(), ds);
      && Freezes(FrozenItems(ds), chosen) && (forall d :: d in chosen <==> d in ds && d.verdict.Selected?)
      && forall k | 0 <= k < |chosen| :: chosen[k].verdict == Selected(k)
  {
    var ranked := Ranked(cs, cfg, half, now, displayFloor);
    var pick := Cut(ranked, cfg, maxItems);
    var ds := Decisions(cs, cfg, maxItems, half, now, displayFloor);
    FrozenInOrder(ds);
    SelectedFirst(cs, cfg, maxItems, half, now, displayFloor);
    forall k | 0 <= k < |SelectedOf(ranked, pick)| ensures SelectedOf(ranked, pick)[k].verdict == Selected(k) {
      PositionsConsecutive(ranked, pick, k);
    }
  }

  lemma {:induction false} SelectedFirst(cs: seq<Candidate>, cfg: Config, maxItems: nat, half: (real, real) -> real, now: Time, displayFloor: Time)
    ensures var ranked := Ranked(cs, cfg, half, now, displayFloor);
      Filter(IsSelected(), Decisions(cs, cfg, maxItems, half, now, displayFloor)) == SelectedOf(ranked, Cut(ranked, cfg, maxItems))
  {
    var ranked := Ranked(cs, cfg, half, now, displayFloor);
    var pick := Cut(ranked, cfg, maxItems);
    var dropped := Sort(IdLe, DroppedOf(cs, cfg, displayFloor));
    OthersNotSelected(ranked, pick, cs, cfg, displayFloor);
    AllSelected(ranked, pick);
    Regrouped(SelectedOf(ranked, pick), OverCapOf(ranked, pick), dropped);
    KeepsFirst(SelectedOf(ranked, pick), OverCapOf(ranked, pick) + dropped);
  }

  lemma {:induction false} KeepsFirst(selected: seq<Decision>, others: seq<Decision>)
    requires (forall d | d in selected :: d.verdict.Selected?) && forall d | d in others :: !d.verdict.Selected?
    ensures Filter(IsSelected(), selected + others) == selected
  {
    FilterNone(IsSelected(), others);
    FilterAppend(IsSelected(), selected, others);
    FilterAll(IsSelected(), selected);
  }

  /** The window carries the story. */
  ghost predicate Carries(s: State, w: Time, id: Uuid) {
    w in s.digests && exists item | item in s.digests[w].items :: item.storyId == id
  }

  /** A stamp is set once, by the mark of its own window. */
  function StampAfter(stamp: Option<Time>, own: bool, now: Time): Option<Time> {
    if own && stamp.None? then Some(now) else stamp
  }

  /**
   * A mark, in any state: the job's window is stamped now unless it was stamped before, each story it carries is
   * stamped now, the job's snapshot becomes the last delivery, the next boundary is reckoned from now, and the job
   * is done. Nothing else moves.
   */
  lemma MarkMeaning(s: State, j: nat, w: Time, id: Uuid, next: (Time, Preference) -> Time)
    requires Enabled(s, Mark(j))
    ensures var t, window := Take(s, Mark(j), next), s.jobs[j].windowEnd;
      && t.digests.Keys == s.digests.Keys && (w in s.digests ==> t.digests[w].items == s.digests[w].items)
      && (w in s.digests ==> t.digests[w].deliveredAt == StampAfter(s.digests[w].deliveredAt, w == window, s.now))
      && (id in t.stamps <==> id in s.stamps || Carries(s, window, id))
      && (id in t.stamps ==> t.stamps[id] == if Carries(s, window, id) then s.now else s.stamps[id])
      && t.lastRunAt == Some(s.jobs[j].snapshotAt) && t.nextRunAt == next(s.now, s.preference)
      && t.sent == s.sent && t.now == s.now && t.preference == s.preference && t.jobs == s.jobs - {j}
  {
    CarriedIff(s, s.jobs[j].windowEnd, id);
  }

  /** A preference change, in any state: the next boundary is reckoned anew, past the present and past the last delivery. Nothing else moves. */
  lemma PreferMeaning(s: State, p: Preference, next: (Time, Preference) -> Time)
    requires Recurs(next)
    ensures var t := Take(s, Prefer(p), next);
      && t.preference == p && t.nextRunAt > s.now && (s.lastRunAt.Some? ==> t.nextRunAt > s.lastRunAt.value)
      && (t.nextRunAt == next(s.now, p) || (s.lastRunAt.Some? && t.nextRunAt == next(s.lastRunAt.value, p)))
      && s == t.(preference := s.preference, nextRunAt := s.nextRunAt)
  {
    assert next(LaterOf(s.now, s.lastRunAt), p) > LaterOf(s.now, s.lastRunAt);
  }

  lemma CarriedIff(s: State, w: Time, id: Uuid)
    ensures id in Carried(s.digests, w) <==> Carries(s, w, id)
  {
  }
}
