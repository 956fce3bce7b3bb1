/** Evaluation of a window of decision logs against story grades. */
module Eval {
  import opened Ordering
  import opened Sums
  import opened LinkModel
  import opened Select
  import opened Ranking

  datatype Grade = Up | Down

  function Gain(g: Grade): real {
    if g == Up then 2.0 else 0.0
  }

  const UNGRADED_GAIN: real := 1.0

  /** A persisted decision, as far as the metrics read it. */
  datatype Record = Record(storyId: Uuid, verdict: Verdict, format: Format)

  /** The stories tallied so far, and how they were graded. */
  datatype Tallies = Tallies(counted: set<Uuid>, more: int, less: int)

  datatype Counts = Counts(
    candidates: int, selected: int, overCap: int, belowFloor: int, stale: int, selectedStories: int, selectedNotes: int,
    emptyDigests: int, capLimited: int, tallies: Tallies)

  const ZERO := Counts(0, 0, 0, 0, 0, 0, 0, 0, 0, Tallies({}, 0, 0))

  datatype Metrics = Metrics(
    digests: nat, counts: Counts, graded: int, meanItems: real, storyShare: real, precision: Option<real>, ndcg: Option<real>)

  // ── Counting ──

  function Ones<T>(p: T -> bool): T -> int {
    (x: T) => if p(x) then 1 else 0
  }

  /** How many of the records satisfy `p`. */
  function Count<T>(p: T -> bool, s: seq<T>): int {
    Sum(Ones(p), s)
  }

  function CountIn(p: Record -> bool): seq<Record> -> int {
    (ds: seq<Record>) => Count(p, ds)
  }

  /** How many records of all the digests satisfy `p`. */
  function Across(p: Record -> bool, digests: seq<seq<Record>>): int {
    Sum(CountIn(p), digests)
  }

  function Any(): Record -> bool { (d: Record) => true }
  function IsSelected(): Record -> bool { (d: Record) => d.verdict.Selected? }
  function IsOverCap(): Record -> bool { (d: Record) => d.verdict.OverCap? }
  function IsBelowFloor(): Record -> bool { (d: Record) => d.verdict == Dropped(BelowFloor) }
  function IsStale(): Record -> bool { (d: Record) => d.verdict == Dropped(StaleForCadence) }
  function IsStory(): Record -> bool { (d: Record) => d.verdict.Selected? && d.format == Story }
  function IsNote(): Record -> bool { (d: Record) => d.verdict.Selected? && d.format == Note }

  function SelectedIn(ds: seq<Record>): (r: seq<Record>)
    ensures forall d :: d in r <==> d in ds && d.verdict.Selected?
  {
    if ds == [] then []
    else
      assert ds == [ds[0]] + ds[1..];
      (if ds[0].verdict.Selected? then [ds[0]] else []) + SelectedIn(ds[1..])
  }

  function PositionOf(d: Record): nat {
    if d.verdict.Selected? then d.verdict.position else 0
  }

  predicate PositionLe(x: Record, y: Record) {
    PositionOf(x) <= PositionOf(y)
  }

  /** The selected records in render order. */
  function RenderOrder(ds: seq<Record>): seq<Record> {
    if ds == [] then []
    else if ds[0].verdict.Selected? then Insert(PositionLe, ds[0], RenderOrder(ds[1..]))
    else RenderOrder(ds[1..])
  }

  /** That is: filter, then sort stably by position. */
  lemma {:induction false} RenderIsSorted(ds: seq<Record>)
    ensures RenderOrder(ds) == Sort(PositionLe, SelectedIn(ds))
  {
    if ds != [] {
      RenderIsSorted(ds[1..]);
      if ds[0].verdict.Selected? {
        assert SelectedIn(ds)[1..] == SelectedIn(ds[1..]);
      } else {
        assert SelectedIn(ds) == SelectedIn(ds[1..]);
      }
    }
  }

  function GainOf(d: Record, grades: map<Uuid, Grade>): real {
    if d.storyId in grades then Gain(grades[d.storyId]) else UNGRADED_GAIN
  }

  function Gains(sel: seq<Record>, grades: map<Uuid, Grade>): (r: seq<real>)
    ensures |r| == |sel| && forall x | x in r :: x >= 0.0
  {
    seq(|sel|, k requires 0 <= k < |sel| => GainOf(sel[k], grades))
  }

  /** A digest's ranking score, where there is an order to judge and something graded in it. */
  function DigestNdcg(ds: seq<Record>, grades: map<Uuid, Grade>, w: nat -> real): Option<real> {
    var sel := RenderOrder(ds);
    if |sel| >= 2 && exists d | d in sel :: d.storyId in grades then Ndcg(Gains(sel, grades), w) else None
  }

  /** A graded story is tallied the first time it shows up. */
  function TallyOne(t: Tallies, id: Uuid, grades: map<Uuid, Grade>): Tallies {
    if id !in grades || id in t.counted then t
    else if grades[id] == Up then Tallies(t.counted + {id}, t.more + 1, t.less)
    else Tallies(t.counted + {id}, t.more, t.less + 1)
  }

  function TallyAll(t: Tallies, sel: seq<Record>, grades: map<Uuid, Grade>): Tallies {
    if sel == [] then t
    else TallyOne(TallyAll(t, sel[..|sel| - 1], grades), sel[|sel| - 1].storyId, grades)
  }

  /** The sum of the scores there are, and how many there are. */
  function ScoreTotals<T>(score: T -> Option<real>, s: seq<T>): (real, nat) {
    if s == [] then (0.0, 0)
    else
      var (sum, n) := ScoreTotals(score, s[..|s| - 1]);
      match score(s[|s| - 1])
      case Some(x) => (sum + x, n + 1)
      case None => (sum, n)
  }

  function Scorer(grades: map<Uuid, Grade>, w: nat -> real): seq<Record> -> Option<real> {
    (ds: seq<Record>) => DigestNdcg(ds, grades, w)
  }

  function HasNone(): seq<Record> -> bool { (ds: seq<Record>) => SelectedIn(ds) == [] }
  function HitsCap(): seq<Record> -> bool { (ds: seq<Record>) => exists d | d in ds :: d.verdict.OverCap? }

  function Ratio(a: int, b: int): Option<real> {
    if b > 0 then Some(a as real / b as real) else None
  }

  // ── The algorithm ──

  /** One more digest's contribution to the counts. */
  function AddCounts(c: Counts, ds: seq<Record>, grades: map<Uuid, Grade>): Counts {
    Counts(c.candidates + |ds|, c.selected + |RenderOrder(ds)|, c.overCap + Count(IsOverCap(), ds),
           c.belowFloor + Count(IsBelowFloor(), ds), c.stale + Count(IsStale(), ds),
           c.selectedStories + Count(IsStory(), RenderOrder(ds)), c.selectedNotes + Count(IsNote(), RenderOrder(ds)),
           c.emptyDigests + (if RenderOrder(ds) == [] then 1 else 0), c.capLimited + (if HitsCap()(ds) then 1 else 0),
           TallyAll(c.tallies, RenderOrder(ds), grades))
  }

  function CountsOf(digests: seq<seq<Record>>, grades: map<Uuid, Grade>): Counts {
    if digests == [] then ZERO
    else AddCounts(CountsOf(digests[..|digests| - 1], grades), digests[|digests| - 1], grades)
  }

  lemma CountSnoc<T>(p: T -> bool, s: seq<T>, x: T)
    ensures Count(p, s + [x]) == Count(p, s) + if p(x) then 1 else 0
  {
    SumAppend(Ones(p), s, [x]);
    SumOne(Ones(p), x);
  }

  /** Counts the verdicts that did not make the digest. */
  method TallyVerdicts(ds: seq<Record>) returns (overCap: int, belowFloor: int, stale: int)
    ensures overCap == Count(IsOverCap(), ds) && belowFloor == Count(IsBelowFloor(), ds) && stale == Count(IsStale(), ds)
  {
    overCap, belowFloor, stale := 0, 0, 0;
    for k := 0 to |ds|
      invariant overCap == Count(IsOverCap(), ds[..k])
      invariant belowFloor == Count(IsBelowFloor(), ds[..k]) && stale == Count(IsStale(), ds[..k])
    {
      assert ds[..k + 1] == ds[..k] + [ds[k]];
      CountSnoc(IsOverCap(), ds[..k], ds[k]);
      CountSnoc(IsBelowFloor(), ds[..k], ds[k]);
      CountSnoc(IsStale(), ds[..k], ds[k]);
      match ds[k].verdict {
        case OverCap(_) => overCap := overCap + 1;
        case Dropped(BelowFloor) => belowFloor := belowFloor + 1;
        case Dropped(StaleForCadence) => stale := stale + 1;
        case Selected(_) =>
      }
    }
    assert ds[..|ds|] == ds;
  }

  method TallyFormats(sel: seq<Record>) returns (stories: int, notes: int)
    requires forall d | d in sel :: d.verdict.Selected?
    ensures stories == Count(IsStory(), sel) && notes == Count(IsNote(), sel)
  {
    stories, notes := 0, 0;
    for k := 0 to |sel|
      invariant stories == Count(IsStory(), sel[..k]) && notes == Count(IsNote(), sel[..k])
    {
      assert sel[..k + 1] == sel[..k] + [sel[k]];
      CountSnoc(IsStory(), sel[..k], sel[k]);
      CountSnoc(IsNote(), sel[..k], sel[k]);
      assert sel[k] in sel;
      match sel[k].format {
        case Story => stories := stories + 1;
        case Note => notes := notes + 1;
      }
    }
    assert sel[..|sel|] == sel;
  }

  /** Tallies each graded story the first time it shows up. */
  method TallyGrades(sel: seq<Record>, grades: map<Uuid, Grade>, t0: Tallies) returns (t: Tallies)
    ensures t == TallyAll(t0, sel, grades)
  {
    t := t0;
    for k := 0 to |sel|
      invariant t == TallyAll(t0, sel[..k], grades)
    {
      assert sel[..k + 1][..k] == sel[..k];
      var id := sel[k].storyId;
      if id in grades {
        var first := id !in t.counted;
        if first {
          match grades[id] {
            case Up => t := Tallies(t.counted + {id}, t.more + 1, t.less);
            case Down => t := Tallies(t.counted + {id}, t.more, t.less + 1);
          }
        }
      }
    }
    assert sel[..|sel|] == sel;
  }

  method RenderSelected(ds: seq<Record>) returns (sel: seq<Record>)
    ensures sel == RenderOrder(ds)
  {
    RenderIsSorted(ds);
    sel := Sort(PositionLe, SelectedIn(ds));
  }

  /** Folds one digest into the counts. */
  method AddDigest(c: Counts, ds: seq<Record>, grades: map<Uuid, Grade>) returns (r: Counts)
    ensures r == AddCounts(c, ds, grades)
  {
    var sel := RenderSelected(ds);
    RenderMembers(ds);
    var overCap, belowFloor, stale := TallyVerdicts(ds);
    var stories, notes := TallyFormats(sel);
    var tallies := TallyGrades(sel, grades, c.tallies);
    r := Counts(c.candidates + |ds|, c.selected + |sel|, c.overCap + overCap, c.belowFloor + belowFloor, c.stale + stale,
                c.selectedStories + stories, c.selectedNotes + notes, c.emptyDigests + (if sel == [] then 1 else 0),
                c.capLimited + (if HitsCap()(ds) then 1 else 0), tallies);
  }

  lemma {:induction false} RenderMembers(ds: seq<Record>)
    ensures forall d :: d in RenderOrder(ds) <==> d in ds && d.verdict.Selected?
  {
    RenderIsSorted(ds);
    SortMembers(PositionLe, SelectedIn(ds));
  }

  /** The metrics of a window, read off its counts and scores. */
  function MetricsOf(digests: seq<seq<Record>>, counts: Counts, totals: (real, nat)): Metrics {
    var graded := counts.tallies.more + counts.tallies.less;
    Metrics(|digests|, counts, graded,
            if digests == [] then 0.0 else counts.selected as real / |digests| as real,
            if counts.selected > 0 then counts.selectedStories as real / counts.selected as real else 0.0,
            if graded > 0 then Some(counts.tallies.more as real / graded as real) else None,
            if totals.1 > 0 then Some(totals.0 / totals.1 as real) else None)
  }

  method Evaluate(digests: seq<seq<Record>>, grades: map<Uuid, Grade>, w: nat -> real) returns (m: Metrics)
    ensures m == MetricsOf(digests, CountsOf(digests, grades), ScoreTotals(Scorer(grades, w), digests))
  {
    var counts, ndcgSum, ndcgDigests := Accumulate(digests, grades, w);
    m := MetricsOf(digests, counts, (ndcgSum, ndcgDigests));
  }

  lemma {:induction false} CountsNext(digests: seq<seq<Record>>, grades: map<Uuid, Grade>, k: nat)
    requires k < |digests|
    ensures CountsOf(digests[..k + 1], grades) == AddCounts(CountsOf(digests[..k], grades), digests[k], grades)
  {
    assert digests[..k + 1][..k] == digests[..k];
  }

  lemma TotalsNext<T>(score: T -> Option<real>, s: seq<T>, k: nat, sum: real, n: nat)
    requires k < |s| && ScoreTotals(score, s[..k]) == (sum, n)
    ensures ScoreTotals(score, s[..k + 1]) == match score(s[k]) case Some(x) => (sum + x, n + 1) case None => (sum, n)
  {
    assert s[..k + 1][..k] == s[..k];
  }

  /** Adds the next digest's score, if it has one. */
  method AddScore(digests: seq<seq<Record>>, k: nat, grades: map<Uuid, Grade>, w: nat -> real, sum: real, n: nat)
    returns (sum': real, n': nat)
    requires k < |digests| && ScoreTotals(Scorer(grades, w), digests[..k]) == (sum, n)
    ensures (sum', n') == ScoreTotals(Scorer(grades, w), digests[..k + 1])
  {
    TotalsNext(Scorer(grades, w), digests, k, sum, n);
    var score := ScoreDigest(digests[k], grades, w);
    sum', n' := sum, n;
    if score.Some? {
      sum', n' := sum + score.value, n + 1;
    }
  }

  /** One pass over the digests, gathering counts and scores. */
  method Accumulate(digests: seq<seq<Record>>, grades: map<Uuid, Grade>, w: nat -> real)
    returns (counts: Counts, ndcgSum: real, ndcgDigests: nat)
    ensures counts == CountsOf(digests, grades) && (ndcgSum, ndcgDigests) == ScoreTotals(Scorer(grades, w), digests)
  {
    counts, ndcgSum, ndcgDigests := ZERO, 0.0, 0;
    for k := 0 to |digests|
      invariant counts == CountsOf(digests[..k], grades)
      invariant (ndcgSum, ndcgDigests) == ScoreTotals(Scorer(grades, w), digests[..k])
    {
      CountsNext(digests, grades, k);
      counts := AddDigest(counts, digests[k], grades);
      ndcgSum, ndcgDigests := AddScore(digests, k, grades, w, ndcgSum, ndcgDigests);
    }
    assert digests[..|digests|] == digests;
  }

  /** Scores a digest's render order where that means something. */
  method ScoreDigest(ds: seq<Record>, grades: map<Uuid, Grade>, w: nat -> real) returns (score: Option<real>)
    ensures score == Scorer(grades, w)(ds)
  {
    var sel := RenderSelected(ds);
    score := None;
    if |sel| >= 2 && exists d | d in sel :: d.storyId in grades {
      score := Ndcg(Gains(sel, grades), w);
    }
  }
}
