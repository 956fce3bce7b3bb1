/** What the metrics guarantee: counts that partition, grades tallied once, scores within range. */
module EvalLaws {
  import opened Ordering
  import opened Sums
  import opened LinkModel
  import opened Select
  import opened Ranking
  import opened Eval

  lemma TotalSnoc(p: Record -> bool, seen: seq<seq<Record>>, ds: seq<Record>)
    ensures Across(p, seen + [ds]) == Across(p, seen) + Count(p, ds)
  {
    SumAppend(CountIn(p), seen, [ds]);
    SumOne(CountIn(p), ds);
  }

  lemma CountCons<T>(p: T -> bool, x: T, s: seq<T>)
    ensures Count(p, [x] + s) == (if p(x) then 1 else 0) + Count(p, s)
  {
    SumAppend(Ones(p), [x], s);
    SumOne(Ones(p), x);
  }

  /** A property only selected records have is counted in full among the selected ones. */
  lemma {:induction false} SelectedCount(p: Record -> bool, ds: seq<Record>)
    requires forall d :: p(d) ==> d.verdict.Selected?
    ensures Count(p, SelectedIn(ds)) == Count(p, ds)
  {
    if ds != [] {
      assert ds == [ds[0]] + ds[1..];
      SelectedCount(p, ds[1..]);
      CountCons(p, ds[0], ds[1..]);
      if ds[0].verdict.Selected? {
        CountCons(p, ds[0], SelectedIn(ds[1..]));
      } else {
        assert [] + SelectedIn(ds[1..]) == SelectedIn(ds[1..]);
      }
    }
  }

  lemma {:induction false} CountAll<T>(p: T -> bool, s: seq<T>)
    requires forall x | x in s :: p(x)
    ensures Count(p, s) == |s|
  {
    if s != [] {
      assert s == [s[0]] + s[1..] && s[0] in s && forall x | x in s[1..] :: x in s;
      CountAll(p, s[1..]);
      CountCons(p, s[0], s[1..]);
    }
  }

  lemma {:induction false} RenderCount(p: Record -> bool, ds: seq<Record>)
    requires forall d :: p(d) ==> d.verdict.Selected?
    ensures Count(p, RenderOrder(ds)) == Count(p, ds)
  {
    RenderIsSorted(ds);
    SumPermuted(Ones(p), RenderOrder(ds), SelectedIn(ds));
    SelectedCount(p, ds);
  }

  lemma {:induction false} RenderLength(ds: seq<Record>)
    ensures |RenderOrder(ds)| == Count(IsSelected(), ds)
  {
    RenderIsSorted(ds);
    SelectedCount(IsSelected(), ds);
    CountAll(IsSelected(), SelectedIn(ds));
  }

  lemma {:induction false} NoneRendered(ds: seq<Record>)
    ensures RenderOrder(ds) == [] <==> HasNone()(ds)
  {
    RenderIsSorted(ds);
  }

  lemma MoreVerdicts(front: seq<seq<Record>>, ds: seq<Record>)
    ensures Across(Any(), front + [ds]) == Across(Any(), front) + |ds|
    ensures Across(IsOverCap(), front + [ds]) == Across(IsOverCap(), front) + Count(IsOverCap(), ds)
    ensures Across(IsBelowFloor(), front + [ds]) == Across(IsBelowFloor(), front) + Count(IsBelowFloor(), ds)
    ensures Across(IsStale(), front + [ds]) == Across(IsStale(), front) + Count(IsStale(), ds)
  {
    TotalSnoc(Any(), front, ds);
    TotalSnoc(IsOverCap(), front, ds);
    TotalSnoc(IsBelowFloor(), front, ds);
    TotalSnoc(IsStale(), front, ds);
    CountAll(Any(), ds);
  }

  lemma {:induction false} MoreShown(front: seq<seq<Record>>, ds: seq<Record>)
    ensures Across(IsSelected(), front + [ds]) == Across(IsSelected(), front) + |RenderOrder(ds)|
    ensures Across(IsStory(), front + [ds]) == Across(IsStory(), front) + Count(IsStory(), RenderOrder(ds))
    ensures Across(IsNote(), front + [ds]) == Across(IsNote(), front) + Count(IsNote(), RenderOrder(ds))
  {
    TotalSnoc(IsSelected(), front, ds);
    TotalSnoc(IsStory(), front, ds);
    TotalSnoc(IsNote(), front, ds);
    RenderLength(ds);
    RenderCount(IsStory(), ds);
    RenderCount(IsNote(), ds);
  }

  /** Each running count is the number of records, over all digests, of its kind. */
  lemma {:induction false} CountsMeaning(digests: seq<seq<Record>>, grades: map<Uuid, Grade>)
    ensures var c := CountsOf(digests, grades);
      && c.candidates == Across(Any(), digests) && c.selected == Across(IsSelected(), digests)
      && c.overCap == Across(IsOverCap(), digests) && c.belowFloor == Across(IsBelowFloor(), digests) && c.stale == Across(IsStale(), digests)
      && c.selectedStories == Across(IsStory(), digests) && c.selectedNotes == Across(IsNote(), digests)
      && c.emptyDigests == Count(HasNone(), digests) && c.capLimited == Count(HitsCap(), digests)
  {
    if digests != [] {
      var front, ds := digests[..|digests| - 1], digests[|digests| - 1];
      assert digests == front + [ds];
      CountsMeaning(front, grades);
      MoreVerdicts(front, ds);
      MoreShown(front, ds);
      CountSnoc(HasNone(), front, ds);
      CountSnoc(HitsCap(), front, ds);
      NoneRendered(ds);
    }
  }

  lemma {:induction false} VerdictsPartition(ds: seq<Record>)
    ensures Count(Any(), ds) == Count(IsSelected(), ds) + Count(IsOverCap(), ds) + Count(IsBelowFloor(), ds) + Count(IsStale(), ds)
    ensures Count(IsSelected(), ds) == Count(IsStory(), ds) + Count(IsNote(), ds)
  {
    if ds != [] {
      var d := ds[0];
      VerdictsPartition(ds[1..]);
      match d.verdict {
        case Selected(_) => assert IsStory()(d) || IsNote()(d);
        case OverCap(_) => assert IsOverCap()(d);
        case Dropped(BelowFloor) => assert IsBelowFloor()(d);
        case Dropped(StaleForCadence) => assert IsStale()(d);
      }
    }
  }

  lemma {:induction false} TotalsPartition(digests: seq<seq<Record>>)
    ensures Across(Any(), digests)
         == Across(IsSelected(), digests) + Across(IsOverCap(), digests) + Across(IsBelowFloor(), digests) + Across(IsStale(), digests)
    ensures Across(IsSelected(), digests) == Across(IsStory(), digests) + Across(IsNote(), digests)
  {
    if digests != [] {
      VerdictsPartition(digests[0]);
      TotalsPartition(digests[1..]);
    }
  }

  /** Every candidate decision falls under exactly one verdict, and every selected one under one format. */
  lemma {:induction false} CountsPartition(digests: seq<seq<Record>>, grades: map<Uuid, Grade>)
    ensures var c := CountsOf(digests, grades);
      && c.candidates == c.selected + c.overCap + c.belowFloor + c.stale
      && c.selected == c.selectedStories + c.selectedNotes
  {
    CountsMeaning(digests, grades);
    TotalsPartition(digests);
  }

  /** Some digest selected the story. */
  ghost predicate ShownIn(digests: seq<seq<Record>>, id: Uuid) {
    exists ds, d | ds in digests && d in ds :: d.verdict.Selected? && d.storyId == id
  }

  /** The stories some digest selected and the subscriber graded `g`. */
  ghost function GradedAs(digests: seq<seq<Record>>, grades: map<Uuid, Grade>, g: Grade): set<Uuid> {
    set id | id in grades && grades[id] == g && ShownIn(digests, id)
  }

  /** The tallies split the counted stories by grade. */
  ghost predicate Split(t: Tallies, ups: set<Uuid>, downs: set<Uuid>, grades: map<Uuid, Grade>) {
    && t.counted == ups + downs && t.more == |ups| && t.less == |downs|
    && (forall id | id in ups :: id in grades && grades[id] == Up)
    && (forall id | id in downs :: id in grades && grades[id] == Down)
  }

  lemma SplitOne(t: Tallies, ups: set<Uuid>, downs: set<Uuid>, grades: map<Uuid, Grade>, id: Uuid)
    requires Split(t, ups, downs, grades)
    ensures var isUp, isDown := id in grades && grades[id] == Up, id in grades && grades[id] == Down;
      Split(TallyOne(t, id, grades), if isUp then ups + {id} else ups, if isDown then downs + {id} else downs, grades)
  {
    if id in grades && grades[id] == Up {
      SplitUp(t, ups, downs, grades, id);
    } else if id in grades {
      SplitDown(t, ups, downs, grades, id);
    }
  }

  lemma AddToUnion(c: set<Uuid>, u: set<Uuid>, v: set<Uuid>, id: Uuid)
    requires c == u + v
    ensures c + {id} == (u + {id}) + v && c + {id} == u + (v + {id})
  {
  }

  lemma AlreadyIn(u: set<Uuid>, id: Uuid)
    requires id in u
    ensures u + {id} == u
  {
  }

  lemma SplitUp(t: Tallies, ups: set<Uuid>, downs: set<Uuid>, grades: map<Uuid, Grade>, id: Uuid)
    requires Split(t, ups, downs, grades) && id in grades && grades[id] == Up
    ensures Split(TallyOne(t, id, grades), ups + {id}, downs, grades)
  {
    if id in ups {
      AlreadyIn(ups, id);
      assert id in t.counted;
    } else {
      assert id !in t.counted;
      AddToUnion(t.counted, ups, downs, id);
    }
  }

  lemma SplitDown(t: Tallies, ups: set<Uuid>, downs: set<Uuid>, grades: map<Uuid, Grade>, id: Uuid)
    requires Split(t, ups, downs, grades) && id in grades && grades[id] == Down
    ensures Split(TallyOne(t, id, grades), ups, downs + {id}, grades)
  {
    if id in downs {
      AlreadyIn(downs, id);
      assert id in t.counted;
    } else {
      assert id !in t.counted;
      AddToUnion(t.counted, ups, downs, id);
    }
  }

  /** The list shows the story, and it is graded so. */
  ghost predicate ShowsGraded(sel: seq<Record>, grades: map<Uuid, Grade>, g: Grade, id: Uuid) {
    id in grades && grades[id] == g && exists d | d in sel :: d.storyId == id
  }

  lemma ShowsSnoc(front: seq<Record>, last: Record, grades: map<Uuid, Grade>, g: Grade, id: Uuid)
    ensures ShowsGraded(front + [last], grades, g, id)
       <==> ShowsGraded(front, grades, g, id) || (last.storyId == id && id in grades && grades[id] == g)
  {
    if d :| d in front && d.storyId == id {
      assert d in front + [last];
    }
    assert last in front + [last];
  }

  /** What tallying leaves: every graded story among those seen, once. */
  lemma {:induction false} SplitAll(t0: Tallies, sel: seq<Record>, grades: map<Uuid, Grade>, ups0: set<Uuid>, downs0: set<Uuid>)
    returns (ups: set<Uuid>, downs: set<Uuid>)
    requires Split(t0, ups0, downs0, grades)
    ensures Split(TallyAll(t0, sel, grades), ups, downs, grades)
    ensures forall id :: id in ups <==> id in ups0 || ShowsGraded(sel, grades, Up, id)
    ensures forall id :: id in downs <==> id in downs0 || ShowsGraded(sel, grades, Down, id)
  {
    if sel == [] {
      ups, downs := ups0, downs0;
    } else {
      var front, last := sel[..|sel| - 1], sel[|sel| - 1];
      assert sel == front + [last];
      var u, v := SplitAll(t0, front, grades, ups0, downs0);
      SplitOne(TallyAll(t0, front, grades), u, v, grades, last.storyId);
      var isUp, isDown := last.storyId in grades && grades[last.storyId] == Up, last.storyId in grades && grades[last.storyId] == Down;
      ups, downs := if isUp then u + {last.storyId} else u, if isDown then v + {last.storyId} else v;
      forall id ensures id in ups <==> id in ups0 || ShowsGraded(sel, grades, Up, id) {
        ShowsSnoc(front, last, grades, Up, id);
      }
      forall id ensures id in downs <==> id in downs0 || ShowsGraded(sel, grades, Down, id) {
        ShowsSnoc(front, last, grades, Down, id);
      }
    }
  }

  lemma {:induction false} ShownInSnoc(seen: seq<seq<Record>>, ds: seq<Record>, id: Uuid)
    ensures ShownIn(seen + [ds], id) <==> ShownIn(seen, id) || exists d | d in RenderOrder(ds) :: d.storyId == id
  {
    RenderMembers(ds);
    if es, d :| es in seen + [ds] && d in es && d.verdict.Selected? && d.storyId == id {
      if es != ds { assert es in seen; }
    }
    if d :| d in RenderOrder(ds) && d.storyId == id {
      assert ds in seen + [ds] && d in ds;
    }
    if es, d :| es in seen && d in es && d.verdict.Selected? && d.storyId == id {
      assert es in seen + [ds];
    }
  }

  lemma {:induction false} GradedAsSnoc(seen: seq<seq<Record>>, ds: seq<Record>, grades: map<Uuid, Grade>, g: Grade, ids: set<Uuid>)
    requires forall id :: id in ids <==> (id in GradedAs(seen, grades, g) || ShowsGraded(RenderOrder(ds), grades, g, id))
    ensures ids == GradedAs(seen + [ds], grades, g)
  {
    forall id ensures id in ids <==> id in GradedAs(seen + [ds], grades, g) {
      ShownInSnoc(seen, ds, id);
    }
  }

  lemma {:induction false} TallyMeaning(digests: seq<seq<Record>>, grades: map<Uuid, Grade>)
    ensures Split(CountsOf(digests, grades).tallies, GradedAs(digests, grades, Up), GradedAs(digests, grades, Down), grades)
  {
    if digests == [] {
      assert GradedAs(digests, grades, Up) == {} && GradedAs(digests, grades, Down) == {};
    } else {
      var front, last := digests[..|digests| - 1], digests[|digests| - 1];
      assert digests == front + [last];
      TallyMeaning(front, grades);
      var ups, downs := SplitAll(CountsOf(front, grades).tallies, RenderOrder(last), grades, GradedAs(front, grades, Up), GradedAs(front, grades, Down));
      GradedAsSnoc(front, last, grades, Up, ups);
      GradedAsSnoc(front, last, grades, Down, downs);
    }
  }

  /** A graded story counts once, under its grade, however many digests showed it. */
  lemma {:induction false} GradedOnce(digests: seq<seq<Record>>, grades: map<Uuid, Grade>)
    ensures var t := CountsOf(digests, grades).tallies;
      t.more == |GradedAs(digests, grades, Up)| && t.less == |GradedAs(digests, grades, Down)|
  {
    TallyMeaning(digests, grades);
  }

  /** The order digests come in shows in no count and no tally. */
  lemma {:induction false} CountsOrderFree(digests: seq<seq<Record>>, shuffled: seq<seq<Record>>, grades: map<Uuid, Grade>)
    requires multiset(digests) == multiset(shuffled)
    ensures CountsOf(digests, grades) == CountsOf(shuffled, grades)
  {
    CountsMeaning(digests, grades);
    CountsMeaning(shuffled, grades);
    SumPermuted(CountIn(Any()), digests, shuffled);
    SumPermuted(CountIn(IsSelected()), digests, shuffled);
    SumPermuted(CountIn(IsOverCap()), digests, shuffled);
    SumPermuted(CountIn(IsBelowFloor()), digests, shuffled);
    SumPermuted(CountIn(IsStale()), digests, shuffled);
    SumPermuted(CountIn(IsStory()), digests, shuffled);
    SumPermuted(CountIn(IsNote()), digests, shuffled);
    SumPermuted(Ones(HasNone()), digests, shuffled);
    SumPermuted(Ones(HitsCap()), digests, shuffled);
    TalliesOrderFree(digests, shuffled, grades);
  }

  // ── The mean score does not depend on the order either ──

  function ScoreOf(score: Option<real>): real {
    if score.Some? then score.value else 0.0
  }

  function HasScore<T>(score: T -> Option<real>): T -> int {
    (x: T) => if score(x).Some? then 1 else 0
  }

  lemma {:induction false} TotalsAppend<T>(score: T -> Option<real>, a: seq<T>, b: seq<T>)
    ensures ScoreTotals(score, a + b).0 == ScoreTotals(score, a).0 + ScoreTotals(score, b).0
    ensures ScoreTotals(score, a + b).1 == ScoreTotals(score, a).1 + ScoreTotals(score, b).1
  {
    if b == [] {
      assert a + b == a;
    } else {
      assert (a + b)[..|a + b| - 1] == a + b[..|b| - 1];
      TotalsAppend(score, a, b[..|b| - 1]);
    }
  }

  lemma TotalsOne<T>(score: T -> Option<real>, x: T)
    ensures ScoreTotals(score, [x]) == (ScoreOf(score(x)), HasScore(score)(x))
  {
    assert [x][..0] == [];
  }

  lemma {:induction false} TotalsWithout<T>(score: T -> Option<real>, s: seq<T>, k: nat)
    requires k < |s|
    ensures ScoreTotals(score, s).0 == ScoreOf(score(s[k])) + ScoreTotals(score, Without(s, k)).0
    ensures ScoreTotals(score, s).1 == HasScore(score)(s[k]) + ScoreTotals(score, Without(s, k)).1
  {
    TotalsAround(score, s, Without(s, k), s[..k], s[k], s[k + 1..]);
  }

  lemma {:induction false} TotalsAround<T>(score: T -> Option<real>, s: seq<T>, rest: seq<T>, front: seq<T>, x: T, back: seq<T>)
    requires s == front + ([x] + back) && rest == front + back
    ensures ScoreTotals(score, s).0 == ScoreOf(score(x)) + ScoreTotals(score, rest).0
    ensures ScoreTotals(score, s).1 == HasScore(score)(x) + ScoreTotals(score, rest).1
  {
    TotalsAppend(score, front, [x] + back);
    TotalsAppend(score, [x], back);
    TotalsAppend(score, front, back);
    TotalsOne(score, x);
  }

  lemma {:induction false} TotalsPermuted<T(!new)>(score: T -> Option<real>, a: seq<T>, b: seq<T>)
    requires multiset(a) == multiset(b)
    ensures ScoreTotals(score, a) == ScoreTotals(score, b)
  {
    PermutedMembers(a, b);
    if a != [] {
      assert a[0] in b;
      var k :| 0 <= k < |b| && b[k] == a[0];
      WithoutMultiset(a, 0);
      WithoutMultiset(b, k);
      TotalsPermuted(score, Without(a, 0), Without(b, k));
      TotalsWithout(score, a, 0);
      TotalsWithout(score, b, k);
    }
  }

  /** The order digests come in shows in no metric: not in a count, a tally, a rate, or the mean score. */
  lemma {:induction false} MetricsOrderFree(digests: seq<seq<Record>>, shuffled: seq<seq<Record>>, grades: map<Uuid, Grade>, w: nat -> real)
    requires multiset(digests) == multiset(shuffled)
    ensures MetricsOf(digests, CountsOf(digests, grades), ScoreTotals(Scorer(grades, w), digests))
         == MetricsOf(shuffled, CountsOf(shuffled, grades), ScoreTotals(Scorer(grades, w), shuffled))
  {
    CountsOrderFree(digests, shuffled, grades);
    TotalsPermuted(Scorer(grades, w), digests, shuffled);
    PermutedMembers(digests, shuffled);
  }

  lemma {:induction false} TalliesOrderFree(digests: seq<seq<Record>>, shuffled: seq<seq<Record>>, grades: map<Uuid, Grade>)
    requires multiset(digests) == multiset(shuffled)
    ensures CountsOf(digests, grades).tallies == CountsOf(shuffled, grades).tallies
  {
    TallyMeaning(digests, grades);
    TallyMeaning(shuffled, grades);
    SameGraded(digests, shuffled, grades, Up);
    SameGraded(digests, shuffled, grades, Down);
  }

  lemma SameGraded(digests: seq<seq<Record>>, shuffled: seq<seq<Record>>, grades: map<Uuid, Grade>, g: Grade)
    requires multiset(digests) == multiset(shuffled)
    ensures GradedAs(digests, grades, g) == GradedAs(shuffled, grades, g)
  {
    PermutedMembers(digests, shuffled);
    forall id ensures ShownIn(digests, id) <==> ShownIn(shuffled, id) {}
  }

  lemma {:induction false} ScoresBounded<T>(score: T -> Option<real>, s: seq<T>)
    requires forall x | x in s :: score(x).Some? ==> 0.0 <= score(x).value <= 1.0
    ensures var (sum, n) := ScoreTotals(score, s); 0.0 <= sum <= n as real
  {
    if s != [] {
      var front, last := s[..|s| - 1], s[|s| - 1];
      assert s == front + [last] && last in s;
      ScoresBounded(score, front);
    }
  }

  lemma {:induction false} TotalsBounded(digests: seq<seq<Record>>, grades: map<Uuid, Grade>, w: nat -> real)
    requires Discount(w)
    ensures var (sum, n) := ScoreTotals(Scorer(grades, w), digests); 0.0 <= sum <= n as real
  {
    forall ds | ds in digests && Scorer(grades, w)(ds).Some? ensures 0.0 <= Scorer(grades, w)(ds).value <= 1.0 {
      NdcgBounds(Gains(RenderOrder(ds), grades), w);
    }
    ScoresBounded(Scorer(grades, w), digests);
  }

  /** The mean ranking score lies between 0 and 1. */
  lemma {:induction false} MeanNdcgBounds(digests: seq<seq<Record>>, grades: map<Uuid, Grade>, w: nat -> real)
    requires Discount(w)
    ensures var m := MetricsOf(digests, CountsOf(digests, grades), ScoreTotals(Scorer(grades, w), digests));
      m.ndcg.Some? ==> 0.0 <= m.ndcg.value <= 1.0
  {
    TotalsBounded(digests, grades, w);
    var (sum, n) := ScoreTotals(Scorer(grades, w), digests);
    if n > 0 {
      QuotientBounds(sum, n as real);
    }
  }

  // ── Replaying a digest ──

  /** The frozen input of one selection. */
  datatype Snapshot = Snapshot(now: Time, maxItems: nat, candidates: seq<Candidate>)

  /** A display floor below every candidate. */
  ghost predicate FullyOpen(cs: seq<Candidate>, floor: Time) {
    forall c | c in cs :: c.lastEventTime >= floor
  }

  /** Re-scores a snapshot under a trial configuration, with the freshness gate open. */
  function Replay(s: Snapshot, cfg: Config, half: (real, real) -> real, open: Time): seq<Decision> {
    Decisions(s.candidates, cfg, s.maxItems, half, s.now, open)
  }

  ghost predicate ShowsStale(ds: seq<Decision>) {
    exists d | d in ds :: d.verdict == Dropped(StaleForCadence)
  }

  lemma {:induction false} CapShowsNoStale(gs: seq<Gated>, pick: seq<bool>)
    requires |pick| == |gs|
    ensures !ShowsStale(SelectedOf(gs, pick)) && !ShowsStale(OverCapOf(gs, pick))
  {
    if gs != [] {
      CapShowsNoStale(gs[..|gs| - 1], pick[..|gs| - 1]);
    }
  }

  lemma {:induction false} DroppedShowsStale(cs: seq<Candidate>, cfg: Config, floor: Time)
    ensures ShowsStale(DroppedOf(cs, cfg, floor)) <==> !FullyOpen(cs, floor)
  {
    if cs != [] {
      var front, last := cs[..|cs| - 1], cs[|cs| - 1];
      assert cs == front + [last];
      DroppedShowsStale(front, cfg, floor);
      var added := match DropReason(last, cfg, floor) case Some(cause) => [DropDecision(last, cfg, cause)] case None => [];
      assert DroppedOf(cs, cfg, floor) == DroppedOf(front, cfg, floor) + added;
      ShowsEither(DroppedOf(front, cfg, floor), added);
      if added != [] {
        assert added[0] in added;
      }
    }
  }

  lemma ShowsEither(x: seq<Decision>, y: seq<Decision>)
    ensures ShowsStale(x + y) <==> ShowsStale(x) || ShowsStale(y)
  {
    if d :| d in x && d.verdict == Dropped(StaleForCadence) { assert d in x + y; }
    if d :| d in y && d.verdict == Dropped(StaleForCadence) { assert d in x + y; }
  }

  lemma DecisionsShowStale(cs: seq<Candidate>, cfg: Config, maxItems: nat, half: (real, real) -> real, now: Time, floor: Time)
    ensures ShowsStale(Decisions(cs, cfg, maxItems, half, now, floor)) <==> !FullyOpen(cs, floor)
  {
    var ranked := Ranked(cs, cfg, half, now, floor);
    var pick := Cut(ranked, cfg, maxItems);
    var dropped := DroppedOf(cs, cfg, floor);
    CapShowsNoStale(ranked, pick);
    DroppedShowsStale(cs, cfg, floor);
    SortMembers(Select.IdLe, dropped);
    ShowsEither(SelectedOf(ranked, pick), OverCapOf(ranked, pick));
    ShowsEither(SelectedOf(ranked, pick) + OverCapOf(ranked, pick), Sort(Select.IdLe, dropped));
    assert ShowsStale(Sort(Select.IdLe, dropped)) <==> ShowsStale(dropped);
  }

  lemma {:induction false} OpenGateSame(cs: seq<Candidate>, cfg: Config, half: (real, real) -> real, now: Time, floor: Time, open: Time)
    requires FullyOpen(cs, floor) && FullyOpen(cs, open)
    ensures Passed(cs, cfg, half, now, floor) == Passed(cs, cfg, half, now, open) && DroppedOf(cs, cfg, floor) == DroppedOf(cs, cfg, open)
  {
    if cs != [] {
      assert cs[|cs| - 1] in cs && forall c | c in cs[..|cs| - 1] :: c in cs;
      OpenGateSame(cs[..|cs| - 1], cfg, half, now, floor, open);
    }
  }

  /** Replaying a snapshot under its own configuration gives the live decisions exactly when none was dropped as stale. */
  lemma ReplayFaithfulIff(s: Snapshot, cfg: Config, half: (real, real) -> real, floor: Time, open: Time)
    requires FullyOpen(s.candidates, open)
    ensures Replay(s, cfg, half, open) == Decisions(s.candidates, cfg, s.maxItems, half, s.now, floor) <==> FullyOpen(s.candidates, floor)
  {
    DecisionsShowStale(s.candidates, cfg, s.maxItems, half, s.now, floor);
    DecisionsShowStale(s.candidates, cfg, s.maxItems, half, s.now, open);
    if FullyOpen(s.candidates, floor) {
      OpenGateSame(s.candidates, cfg, half, s.now, floor, open);
    }
  }
}
