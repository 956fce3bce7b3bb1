/** What each metric of a window measures, in numbers a reader can check by hand. */
module EvalMeaning {
  import opened Ordering
  import opened LinkModel
  import opened Select
  import opened Ranking
  import opened Eval
  import opened EvalLaws

  // ── Counts ──

  /** All the records of a window. */
  function Pooled<T>(digests: seq<seq<T>>): seq<T> {
    if digests == [] then [] else digests[0] + Pooled(digests[1..])
  }

  lemma {:induction false} CountIsFilter<T(!new)>(p: T -> bool, s: seq<T>)
    ensures Count(p, s) == |Filter(p, s)|
  {
    if s != [] {
      assert s == [s[0]] + s[1..];
      CountIsFilter(p, s[1..]);
      CountCons(p, s[0], s[1..]);
      FilterCons(p, s[0], s[1..]);
    }
  }

  lemma {:induction false} AcrossIsFilter(p: Record -> bool, digests: seq<seq<Record>>)
    ensures Across(p, digests) == |Filter(p, Pooled(digests))|
  {
    if digests != [] {
      AcrossIsFilter(p, digests[1..]);
      CountIsFilter(p, digests[0]);
      FilterAppend(p, digests[0], Pooled(digests[1..]));
    }
  }

  /** How many records of the window satisfy `p`. */
  function Number(p: Record -> bool, digests: seq<seq<Record>>): nat {
    |Filter(p, Pooled(digests))|
  }

  lemma NumberOf(p: Record -> bool, q: Record -> bool, digests: seq<seq<Record>>)
    requires forall d :: p(d) <==> q(d)
    ensures Across(p, digests) == Number(q, digests)
  {
    AcrossIsFilter(p, digests);
    FilterAgrees(p, q, Pooled(digests));
  }

  /** Every count is a number of records of the window, or of digests in it. */
  lemma {:induction false} CountMeaning(digests: seq<seq<Record>>, grades: map<Uuid, Grade>)
    ensures var c := CountsOf(digests, grades);
      && c.candidates == |Pooled(digests)|
      && c.selected == Number((d: Record) => d.verdict.Selected?, digests)
      && c.overCap == Number((d: Record) => d.verdict.OverCap?, digests)
      && c.belowFloor == Number((d: Record) => d.verdict == Dropped(BelowFloor), digests)
      && c.stale == Number((d: Record) => d.verdict == Dropped(StaleForCadence), digests)
      && c.selectedStories == Number((d: Record) => d.verdict.Selected? && d.format == Story, digests)
      && c.selectedNotes == Number((d: Record) => d.verdict.Selected? && d.format == Note, digests)
  {
    CountsMeaning(digests, grades);
    NumberOf(Any(), (d: Record) => true, digests);
    FilterAll((d: Record) => true, Pooled(digests));
    NumberOf(IsSelected(), (d: Record) => d.verdict.Selected?, digests);
    NumberOf(IsOverCap(), (d: Record) => d.verdict.OverCap?, digests);
    NumberOf(IsBelowFloor(), (d: Record) => d.verdict == Dropped(BelowFloor), digests);
    NumberOf(IsStale(), (d: Record) => d.verdict == Dropped(StaleForCadence), digests);
    NumberOf(IsStory(), (d: Record) => d.verdict.Selected? && d.format == Story, digests);
    NumberOf(IsNote(), (d: Record) => d.verdict.Selected? && d.format == Note, digests);
  }

  /** A digest shows something. */
  predicate Shows(ds: seq<Record>) {
    exists d | d in ds :: d.verdict.Selected?
  }

  lemma {:induction false} DigestMeaning(digests: seq<seq<Record>>, grades: map<Uuid, Grade>)
    ensures CountsOf(digests, grades).emptyDigests == |Filter((ds: seq<Record>) => !Shows(ds), digests)|
    ensures CountsOf(digests, grades).capLimited == |Filter((ds: seq<Record>) => exists d | d in ds :: d.verdict.OverCap?, digests)|
  {
    CountsMeaning(digests, grades);
    CountIsFilter(HasNone(), digests);
    CountIsFilter(HitsCap(), digests);
    forall ds ensures HasNone()(ds) <==> !Shows(ds) {
      if SelectedIn(ds) != [] {
        assert SelectedIn(ds)[0] in SelectedIn(ds);
      }
    }
    FilterAgrees(HasNone(), (ds: seq<Record>) => !Shows(ds), digests);
    FilterAgrees(HitsCap(), (ds: seq<Record>) => exists d | d in ds :: d.verdict.OverCap?, digests);
  }

  // ── Rates ──

  /** The quotient of `a` and `b`, standing in for a division. */
  predicate IsShare(x: real, a: int, b: int) {
    x * b as real == a as real
  }

  lemma Share(a: int, b: int)
    requires b > 0
    ensures IsShare(a as real / b as real, a, b)
  {
  }

  /** Mean items a digest; 0 for a window without digests. */
  lemma {:induction false} MeanItemsMeaning(digests: seq<seq<Record>>, grades: map<Uuid, Grade>, totals: (real, nat))
    ensures var m := MetricsOf(digests, CountsOf(digests, grades), totals);
      && m.digests == |digests| && m.counts == CountsOf(digests, grades)
      && if digests == [] then m.meanItems == 0.0 else IsShare(m.meanItems, m.counts.selected, |digests|)
  {
    if digests != [] { Share(CountsOf(digests, grades).selected, |digests|); }
  }

  /** The part of the items that are stories; 0 where nothing was selected. */
  lemma {:induction false} StoryShareMeaning(digests: seq<seq<Record>>, grades: map<Uuid, Grade>, totals: (real, nat))
    ensures var m := MetricsOf(digests, CountsOf(digests, grades), totals);
      var shown := Number((d: Record) => d.verdict.Selected?, digests);
      var stories := Number((d: Record) => d.verdict.Selected? && d.format == Story, digests);
      if shown == 0 then m.storyShare == 0.0 else IsShare(m.storyShare, stories, shown)
  {
    CountMeaning(digests, grades);
    var c := CountsOf(digests, grades);
    if c.selected > 0 { Share(c.selectedStories, c.selected); }
  }

  /** The part of the graded stories that were liked, each story counted once; missing where none was graded. */
  lemma {:induction false} PrecisionMeaning(digests: seq<seq<Record>>, grades: map<Uuid, Grade>, totals: (real, nat))
    ensures var m := MetricsOf(digests, CountsOf(digests, grades), totals);
      var liked, disliked := |GradedAs(digests, grades, Up)|, |GradedAs(digests, grades, Down)|;
      && m.graded == liked + disliked && (m.precision == None <==> liked + disliked == 0)
      && (m.precision.Some? ==> IsShare(m.precision.value, liked, liked + disliked))
  {
    GradedOnce(digests, grades);
    var t := CountsOf(digests, grades).tallies;
    if t.more + t.less > 0 { Share(t.more, t.more + t.less); }
  }

  // ── Scores ──

  /** What showing a story is worth: 2 if it was liked, 0 if it was not, 1 if nobody said. */
  predicate Worth(x: real, id: Uuid, grades: map<Uuid, Grade>) {
    && (id !in grades ==> x == 1.0)
    && (id in grades && grades[id] == Up ==> x == 2.0)
    && (id in grades && grades[id] == Down ==> x == 0.0)
  }

  /** The selected records of a digest, by ascending position. */
  ghost predicate Rendered(sel: seq<Record>, ds: seq<Record>) {
    && multiset(sel) == multiset(Filter((d: Record) => d.verdict.Selected?, ds))
    && (forall d | d in sel :: d.verdict.Selected?)
    && forall i, j | 0 <= i < j < |sel| :: sel[i].verdict.position <= sel[j].verdict.position
  }

  lemma {:induction false} SelectedIsFilter(ds: seq<Record>)
    ensures SelectedIn(ds) == Filter((d: Record) => d.verdict.Selected?, ds)
  {
    if ds != [] {
      SelectedIsFilter(ds[1..]);
    }
  }

  lemma {:induction false} RenderMeaning(ds: seq<Record>)
    ensures Rendered(RenderOrder(ds), ds)
  {
    RenderIsSorted(ds);
    SelectedIsFilter(ds);
    RenderMembers(ds);
    SortSorted(PositionLe, SelectedIn(ds));
    var sel := RenderOrder(ds);
    forall i, j | 0 <= i < j < |sel| ensures sel[i].verdict.position <= sel[j].verdict.position {
      assert PositionLe(sel[i], sel[j]) && sel[i] in sel && sel[j] in sel;
    }
  }

  /** The worth of what is shown, position by position. */
  ghost predicate Worths(gains: seq<real>, sel: seq<Record>, grades: map<Uuid, Grade>) {
    |gains| == |sel| && forall k | 0 <= k < |sel| :: Worth(gains[k], sel[k].storyId, grades)
  }

  /** A digest is scored where it shows two stories or more, one of them graded: the normalised gain of the worths in render order. */
  lemma {:induction false} ScoreMeaning(ds: seq<Record>, grades: map<Uuid, Grade>, w: nat -> real)
    ensures var sel, gains := RenderOrder(ds), Gains(RenderOrder(ds), grades);
      && Rendered(sel, ds) && Worths(gains, sel, grades)
      && Scorer(grades, w)(ds) == if |sel| >= 2 && (exists d | d in sel :: d.storyId in grades) then Ndcg(gains, w) else None
  {
    RenderMeaning(ds);
  }

  /** Each gain weighted by its place. */
  function Weighted(xs: seq<real>, w: nat -> real): real {
    if xs == [] then 0.0 else Weighted(xs[..|xs| - 1], w) + xs[|xs| - 1] * w(|xs| - 1)
  }

  lemma {:induction false} DcgSnoc(xs: seq<real>, x: real, w: nat -> real, i: nat)
    ensures Dcg(xs + [x], w, i) == Dcg(xs, w, i) + x * w(i + |xs|)
  {
    if xs == [] {
      DcgCons(x, [], w, i);
      assert [] + [x] == [x] + [];
    } else {
      assert (xs + [x])[1..] == xs[1..] + [x];
      DcgSnoc(xs[1..], x, w, i + 1);
    }
  }

  lemma {:induction false} DcgIsWeighted(xs: seq<real>, w: nat -> real)
    ensures Dcg(xs, w, 0) == Weighted(xs, w)
  {
    if xs != [] {
      var n := |xs| - 1;
      assert xs == xs[..n] + [xs[n]];
      DcgIsWeighted(xs[..n], w);
      DcgSnoc(xs[..n], xs[n], w, 0);
    }
  }

  /** `x` times `b` is `a`. */
  predicate IsPart(x: real, a: real, b: real) {
    x * b == a
  }

  lemma Earned(a: real, b: real)
    requires b > 0.0
    ensures IsPart(a / b, a, b)
  {
  }

  lemma NdcgOf(xs: seq<real>, w: nat -> real, a: real, b: real)
    requires a == Dcg(xs, w, 0) && b == Dcg(Sort(AtLeast, xs), w, 0)
    ensures Ndcg(xs, w).Some? <==> xs != [] && b > 0.0
    ensures Ndcg(xs, w).Some? ==> IsPart(Ndcg(xs, w).value, a, b)
  {
    if b > 0.0 { Earned(a, b); }
  }

  /** The normalised gain of an order, against the same gains in descending order; missing where there is nothing to gain. */
  lemma NdcgMeaning(xs: seq<real>, best: seq<real>, w: nat -> real)
    requires multiset(best) == multiset(xs) && Descending(best)
    ensures Ndcg(xs, w).Some? <==> xs != [] && Weighted(best, w) > 0.0
    ensures Ndcg(xs, w).Some? ==> IsPart(Ndcg(xs, w).value, Weighted(xs, w), Weighted(best, w))
  {
    DescendingIsSorted(best);
    SameIdeal(xs, best);
    DcgIsWeighted(xs, w);
    DcgIsWeighted(best, w);
    NdcgOf(xs, w, Weighted(xs, w), Weighted(best, w));
  }

  /** No story stands below one worth less: no disliked one above another, no ungraded one above a liked one. */
  ghost predicate WellRanked(sel: seq<Record>, grades: map<Uuid, Grade>) {
    forall k | 0 <= k < |sel| - 1 :: !WorseFirst(sel[k].storyId, sel[k + 1].storyId, grades)
  }

  predicate WorseFirst(above: Uuid, below: Uuid, grades: map<Uuid, Grade>) {
    || (above in grades && grades[above] == Down && !(below in grades && grades[below] == Down))
    || (above !in grades && below in grades && grades[below] == Up)
  }

  /** Under a strictly falling discount a digest scores 1 exactly when no story is rendered right above one worth more. */
  lemma {:induction false} PerfectDigestIff(ds: seq<Record>, grades: map<Uuid, Grade>, w: nat -> real)
    requires Discount(w) && (forall i: nat :: StrictlyFalls(w, i)) && Scorer(grades, w)(ds).Some?
    ensures Rendered(RenderOrder(ds), ds)
    ensures Scorer(grades, w)(ds).value == 1.0 <==> WellRanked(RenderOrder(ds), grades)
  {
    RenderMeaning(ds);
    var sel := RenderOrder(ds);
    PerfectIff(Gains(sel, grades), w);
    DescendingIff(sel, grades);
  }

  lemma DescendingIff(sel: seq<Record>, grades: map<Uuid, Grade>)
    ensures Descending(Gains(sel, grades)) <==> WellRanked(sel, grades)
  {
    var gains := Gains(sel, grades);
    forall k | 0 <= k < |sel| - 1 ensures gains[k] >= gains[k + 1] <==> !WorseFirst(sel[k].storyId, sel[k + 1].storyId, grades) {
      assert Worth(gains[k], sel[k].storyId, grades) && Worth(gains[k + 1], sel[k + 1].storyId, grades);
    }
  }

  // ── The mean score ──

  /** The scores there are. */
  function Scores<T>(score: T -> Option<real>, s: seq<T>): seq<real> {
    if s == [] then []
    else (match score(s[0]) case Some(x) => [x] case None => []) + Scores(score, s[1..])
  }

  function Plus(xs: seq<real>): real {
    if xs == [] then 0.0 else xs[0] + Plus(xs[1..])
  }

  lemma {:induction false} ScoresCons<T>(score: T -> Option<real>, x: T, s: seq<T>)
    ensures Scores(score, [x] + s) == (match score(x) case Some(v) => [v] case None => []) + Scores(score, s)
  {
    assert ([x] + s)[1..] == s;
  }

  lemma {:induction false} PlusCons(x: real, xs: seq<real>)
    ensures Plus([x] + xs) == x + Plus(xs)
  {
    assert ([x] + xs)[1..] == xs;
  }

  lemma {:induction false} TotalsAreSums<T(!new)>(score: T -> Option<real>, s: seq<T>)
    ensures ScoreTotals(score, s).0 == Plus(Scores(score, s)) && ScoreTotals(score, s).1 == |Scores(score, s)|
  {
    if s != [] {
      var x, rest := s[0], s[1..];
      assert s == [x] + rest;
      TotalsAreSums(score, rest);
      TotalsAppend(score, [x], rest);
      TotalsOne(score, x);
      ScoresCons(score, x, rest);
      if score(x).Some? {
        PlusCons(score(x).value, Scores(score, rest));
      } else {
        assert [] + Scores(score, rest) == Scores(score, rest);
      }
    }
  }

  /** `x` is the mean of `xs`. */
  predicate IsMean(x: real, xs: seq<real>) {
    x * |xs| as real == Plus(xs)
  }

  lemma {:induction false} MeanOf(sum: real, n: nat, xs: seq<real>)
    requires n > 0 && n == |xs| && sum == Plus(xs)
    ensures IsMean(sum / n as real, xs)
  {
  }

  /** The mean score is the mean of the scores there are, and missing exactly when there are none. */
  lemma {:induction false} MeanMeaning(digests: seq<seq<Record>>, counts: Counts, grades: map<Uuid, Grade>, w: nat -> real)
    ensures var ndcg := MetricsOf(digests, counts, ScoreTotals(Scorer(grades, w), digests)).ndcg;
      var scores := Scores(Scorer(grades, w), digests);
      (ndcg == None <==> scores == []) && (ndcg.Some? ==> IsMean(ndcg.value, scores))
  {
    var score := Scorer(grades, w);
    TotalsAreSums(score, digests);
    var (sum, n) := ScoreTotals(score, digests);
    MeanMetric(digests, counts, sum, n, Scores(score, digests));
  }

  lemma {:induction false} MeanMetric(digests: seq<seq<Record>>, counts: Counts, sum: real, n: nat, xs: seq<real>)
    requires sum == Plus(xs) && n == |xs|
    ensures var ndcg := MetricsOf(digests, counts, (sum, n)).ndcg;
      (ndcg == None <==> xs == []) && (ndcg.Some? ==> IsMean(ndcg.value, xs))
  {
    if n > 0 { MeanOf(sum, n, xs); }
  }
}
