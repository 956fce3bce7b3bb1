/** What the digest decides about each candidate, by arithmetic on the candidate and counting over the decisions. */
module SelectMeaning {
  import opened Ordering
  import opened Sums
  import opened LinkModel
  import opened Select
  import opened SelectLaws

  // ── One decision ──

  /** One for being there, the bonus for private news, and the subscriber's interest in its thread. */
  function Fit(c: Candidate, cfg: Config): real {
    1.0 + (if c.hasPrivate then cfg.scopeBonus else 0.0) + c.relevance
  }

  /** Whole seconds since, in days; nothing for the future. */
  function Age(now: Time, t: Time): real {
    if t >= now then 0.0 else ((now - t) / 1_000_000) as real / 86_400.0
  }

  function Fading(half: (real, real) -> real, age: real, halfLife: real): real {
    if halfLife > 0.0 then half(age, halfLife) else 1.0
  }

  /** Base relevance, severity and thread interest, each fading at its own pace. */
  function Score(c: Candidate, cfg: Config, half: (real, real) -> real, now: Time): real {
    var age := Age(now, c.lastEventTime);
    (1.0 + (if c.hasPrivate then cfg.scopeBonus else 0.0)) * Fading(half, age, cfg.recencyHalfLife)
    + cfg.severityWeight * (if c.maxSeverity.Some? then c.maxSeverity.value as real else 0.0) * Fading(half, age, cfg.salienceHalfLife)
    + c.relevance * Fading(half, age, cfg.threadHalfLife)
  }

  /** A story has several sources, several events, or one long piece. */
  predicate Substantial(c: Candidate) {
    c.sourceDiversity > 1 || c.eventCount > 1 || c.contentDepth == Longform
  }

  /** Shown before, with no event since, and not a note that has become a story. */
  predicate NothingNew(c: Candidate) {
    && c.lastShown.Some? && c.lastEventTime <= c.lastShown.value.lastEventTime
    && (c.lastShown.value.format == Note ==> !Substantial(c))
  }

  const DEVELOPING := "still developing"

  /** Why it is a story, several sources before several events, or what kind of note it is. */
  predicate Named(c: Candidate, phrase: string) {
    && (phrase == "multi-source" <==> c.sourceDiversity > 1) && (c.sourceDiversity <= 1 && c.eventCount > 1 ==> phrase == "multi-event")
    && (c.sourceDiversity <= 1 && c.eventCount <= 1 ==>
          match c.contentDepth case Longform => phrase == "longform" case Announcement => phrase == "announcement" case Message => phrase == "message")
  }

  /** The decision `d` that candidate `c` ought to get, up to which of the competing items win. */
  ghost predicate Decided(c: Candidate, cfg: Config, half: (real, real) -> real, now: Time, displayFloor: Time, d: Decision) {
    && d.lastEventTime == c.lastEventTime && d.relevance == Fit(c, cfg) && (d.naturalFormat == Story <==> Substantial(c))
    && (if c.lastEventTime < displayFloor then d.verdict == Dropped(StaleForCadence)
        else if Fit(c, cfg) < cfg.relevanceFloor then d.verdict == Dropped(BelowFloor)
        else d.verdict.Selected? || d.verdict.OverCap?)
    && (d.verdict.Dropped? ==> d.priority == 0.0 && d.format == d.naturalFormat && d.richness != DEVELOPING && Named(c, d.richness))
    && (!d.verdict.Dropped? && NothingNew(c) ==>
          d.priority == Score(c, cfg, half, now) * cfg.resurfacePenalty && d.format == Note && d.richness == DEVELOPING)
    && (!d.verdict.Dropped? && !NothingNew(c) ==>
          d.priority == Score(c, cfg, half, now) && d.format == d.naturalFormat && d.richness != DEVELOPING && Named(c, d.richness))
  }

  lemma Phrases(c: Candidate)
    ensures Richness(c).1 != DEVELOPING && (Richness(c).0 == Story <==> Substantial(c)) && (Stale(c) <==> NothingNew(c))
    ensures Named(c, Richness(c).1)
  {
    assert |"multi-source"| == 12 && |"multi-event"| == 11 && |"longform"| == 8 && |"announcement"| == 12 && |"message"| == 7;
    assert "multi-source"[0] == 'm' && "announcement"[0] == 'a';
    assert |DEVELOPING| == 16;
    assert |Richness(c).1| < 16;
  }

  lemma PriorityIsScore(c: Candidate, cfg: Config, half: (real, real) -> real, now: Time)
    ensures Priority(c, cfg, half, now) == Score(c, cfg, half, now) && Relevance(c, cfg) == Fit(c, cfg)
  {
  }

  lemma PassDecided(c: Candidate, cs: seq<Candidate>, cfg: Config, half: (real, real) -> real, now: Time, displayFloor: Time, verdict: Verdict)
    requires PassesGate(c, cs, cfg, displayFloor) && (verdict.Selected? || verdict.OverCap?)
    ensures Decided(c, cfg, half, now, displayFloor, Seal(Pass(c, cfg, half, now), verdict))
  {
    Phrases(c);
    PriorityIsScore(c, cfg, half, now);
  }

  lemma DropDecided(c: Candidate, cfg: Config, half: (real, real) -> real, now: Time, displayFloor: Time)
    requires DropReason(c, cfg, displayFloor).Some?
    ensures Decided(c, cfg, half, now, displayFloor, DropDecision(c, cfg, DropReason(c, cfg, displayFloor).value))
  {
    Phrases(c);
    PriorityIsScore(c, cfg, half, now);
  }

  /** Every sealed item comes from a ranked one. */
  lemma {:induction false} SealedFrom(gs: seq<Gated>, pick: seq<bool>, d: Decision) returns (g: Gated)
    requires |pick| == |gs| && (d in SelectedOf(gs, pick) || d in OverCapOf(gs, pick))
    ensures g in gs && d == Seal(g, d.verdict) && (d.verdict.Selected? || d.verdict.OverCap?)
    ensures d in SelectedOf(gs, pick) <==> d.verdict.Selected?
  {
    var n := |gs| - 1;
    OverCapVerdicts(gs, pick);
    if d in SelectedOf(gs[..n], pick[..n]) || d in OverCapOf(gs[..n], pick[..n]) {
      g := SealedFrom(gs[..n], pick[..n], d);
    } else {
      g := gs[n];
    }
  }

  /** The candidate behind a decision. */
  lemma DecisionFrom(cs: seq<Candidate>, cfg: Config, maxItems: nat, half: (real, real) -> real, now: Time, displayFloor: Time, d: Decision)
    returns (c: Candidate)
    requires d in Decisions(cs, cfg, maxItems, half, now, displayFloor)
    ensures c in cs && c.id == d.id && Decided(c, cfg, half, now, displayFloor, d)
  {
    var ranked := Ranked(cs, cfg, half, now, displayFloor);
    var pick := Cut(ranked, cfg, maxItems);
    SortMembers(IdLe, DroppedOf(cs, cfg, displayFloor));
    if d in SelectedOf(ranked, pick) || d in OverCapOf(ranked, pick) {
      var g := SealedFrom(ranked, pick, d);
      SortMembers(Outranks, Passed(cs, cfg, half, now, displayFloor));
      c := GatedFrom(cs, cfg, half, now, displayFloor, g);
      PassDecided(c, cs, cfg, half, now, displayFloor, d.verdict);
    } else {
      DroppedFrom(cs, cfg, displayFloor, d);
      c :| c in cs && DropReason(c, cfg, displayFloor).Some? && d == DropDecision(c, cfg, DropReason(c, cfg, displayFloor).value);
      DropDecided(c, cfg, half, now, displayFloor);
    }
  }

  /**
   * A candidate's decision: too old for the cadence, else not relevant enough, else in the running; and with what
   * relevance, priority and format.
   */
  lemma DecisionMeaning(cs: seq<Candidate>, cfg: Config, maxItems: nat, half: (real, real) -> real, now: Time, displayFloor: Time,
                        c: Candidate, d: Decision)
    requires OneCandidatePerId(cs) && c in cs && d in Decisions(cs, cfg, maxItems, half, now, displayFloor) && d.id == c.id
    ensures Decided(c, cfg, half, now, displayFloor, d)
  {
    var x := DecisionFrom(cs, cfg, maxItems, half, now, displayFloor, d);
  }

  lemma {:induction false} SomeCounted<T(!new)>(f: T -> int, s: seq<T>)
    requires Sum(f, s) > 0
    ensures exists x | x in s :: f(x) > 0
  {
    if f(s[0]) <= 0 {
      SomeCounted(f, s[1..]);
      var x :| x in s[1..] && f(x) > 0;
      assert x in s;
    } else {
      assert s[0] in s;
    }
  }

  lemma {:induction false} CountsOne<T(!new)>(f: T -> int, s: seq<T>, x: T)
    requires x in s && f(x) > 0 && forall y | y in s :: f(y) >= 0
    ensures Sum(f, s) > 0
  {
    assert s == [s[0]] + s[1..] && s[0] in s && forall y | y in s[1..] :: y in s;
    if x in s[1..] {
      CountsOne(f, s[1..], x);
    } else {
      SumNotNegative(f, s[1..]);
    }
  }

  lemma {:induction false} SumNotNegative<T(!new)>(f: T -> int, s: seq<T>)
    requires forall y | y in s :: f(y) >= 0
    ensures Sum(f, s) >= 0
  {
    if s != [] {
      assert s[0] in s && forall y | y in s[1..] :: y in s;
      SumNotNegative(f, s[1..]);
    }
  }

  /** Every candidate does get one. */
  lemma DecisionExists(cs: seq<Candidate>, cfg: Config, maxItems: nat, half: (real, real) -> real, now: Time, displayFloor: Time, c: Candidate)
    returns (d: Decision)
    requires c in cs
    ensures d in Decisions(cs, cfg, maxItems, half, now, displayFloor) && d.id == c.id
  {
    TraceComplete(cs, cfg, maxItems, half, now, displayFloor, c.id);
    CountsOne(CandidateHas(c.id), cs, c);
    SomeCounted(DecisionHas(c.id), Decisions(cs, cfg, maxItems, half, now, displayFloor));
    d :| d in Decisions(cs, cfg, maxItems, half, now, displayFloor) && DecisionHas(c.id)(d) > 0;
  }

  // ── The budgets ──

  ghost predicate Matches(p: Decision -> bool, gs: seq<Gated>, b: Budget) {
    forall g, v: Verdict | g in gs && v.Selected? :: p(Seal(g, v)) <==> Charges(b, g)
  }

  lemma {:induction false} CountsLast<T(!new)>(p: T -> bool, s: seq<T>, x: T)
    ensures |Filter(p, s + [x])| == |Filter(p, s)| + if p(x) then 1 else 0
  {
    FilterAppend(p, s, [x]);
    FilterCons(p, x, []);
  }

  /** Counting the selected decisions of a kind is tallying what the ranked items charge. */
  lemma {:induction false} SelectedTally(gs: seq<Gated>, pick: seq<bool>, b: Budget, p: Decision -> bool)
    requires |pick| == |gs| && Matches(p, gs, b)
    ensures |Filter(p, SelectedOf(gs, pick))| == Tally(gs, pick, b)
  {
    if gs != [] {
      var n := |gs| - 1;
      var front, last, kept := gs[..n], gs[n], pick[..n];
      assert last in gs && forall g | g in front :: g in gs;
      SelectedTally(front, kept, b, p);
      if pick[n] {
        CountsLast(p, SelectedOf(front, kept), Seal(last, Selected(Tally(front, kept, Items))));
      } else {
        assert SelectedOf(gs, pick) == SelectedOf(front, kept);
      }
    }
  }

  function Chosen(p: Decision -> bool): Decision -> bool {
    (d: Decision) => d.verdict.Selected? && p(d)
  }

  /** How many selected decisions satisfy `p`. */
  function HowMany(ds: seq<Decision>, p: Decision -> bool): nat {
    |Filter(Chosen(p), ds)|
  }

  lemma {:induction false} HowManyTallied(cs: seq<Candidate>, cfg: Config, maxItems: nat, half: (real, real) -> real, now: Time, displayFloor: Time,
                       b: Budget, p: Decision -> bool)
    requires Matches(p, Ranked(cs, cfg, half, now, displayFloor), b)
    ensures var ranked := Ranked(cs, cfg, half, now, displayFloor);
      HowMany(Decisions(cs, cfg, maxItems, half, now, displayFloor), p) == Tally(ranked, Cut(ranked, cfg, maxItems), b)
  {
    var ranked := Ranked(cs, cfg, half, now, displayFloor);
    var pick := Cut(ranked, cfg, maxItems);
    var dropped := Sort(IdLe, DroppedOf(cs, cfg, displayFloor));
    OthersNotSelected(ranked, pick, cs, cfg, displayFloor);
    AllSelected(ranked, pick);
    Regrouped(SelectedOf(ranked, pick), OverCapOf(ranked, pick), dropped);
    ChosenFirst(SelectedOf(ranked, pick), OverCapOf(ranked, pick) + dropped, p);
    SelectedTally(ranked, pick, b, p);
  }

  lemma Regrouped<T>(a: seq<T>, b: seq<T>, c: seq<T>)
    ensures a + b + c == a + (b + c)
  {
  }

  lemma {:induction false} ChosenFirst(selected: seq<Decision>, others: seq<Decision>, p: Decision -> bool)
    requires (forall d | d in selected :: d.verdict.Selected?) && forall d | d in others :: !d.verdict.Selected?
    ensures HowMany(selected + others, p) == |Filter(p, selected)|
  {
    FilterNone(Chosen(p), others);
    FilterAppend(Chosen(p), selected, others);
    FilterAgrees(Chosen(p), p, selected);
  }

  lemma {:induction false} AllSelected(gs: seq<Gated>, pick: seq<bool>)
    requires |pick| == |gs|
    ensures forall d | d in SelectedOf(gs, pick) :: d.verdict.Selected?
  {
    if gs != [] {
      AllSelected(gs[..|gs| - 1], pick[..|gs| - 1]);
    }
  }

  function Any(): Decision -> bool { (d: Decision) => true }
  function AsStory(): Decision -> bool { (d: Decision) => d.format == Story }
  function AsNote(): Decision -> bool { (d: Decision) => d.format == Note }
  function AsDeveloping(): Decision -> bool { (d: Decision) => d.richness == DEVELOPING }

  /** The candidate of the decision is on the thread. */
  function OnThread(cs: seq<Candidate>, thread: Uuid): Decision -> bool {
    (d: Decision) => exists c | c in cs :: c.id == d.id && c.threadId == Some(thread)
  }

  lemma RankedFrom(cs: seq<Candidate>, cfg: Config, half: (real, real) -> real, now: Time, displayFloor: Time, g: Gated) returns (c: Candidate)
    requires g in Ranked(cs, cfg, half, now, displayFloor)
    ensures c in cs && g == Pass(c, cfg, half, now)
  {
    SortMembers(Outranks, Passed(cs, cfg, half, now, displayFloor));
    c := GatedFrom(cs, cfg, half, now, displayFloor, g);
  }

  lemma DevelopingCharges(cs: seq<Candidate>, cfg: Config, half: (real, real) -> real, now: Time, displayFloor: Time)
    ensures Matches(AsDeveloping(), Ranked(cs, cfg, half, now, displayFloor), Resurfaces)
  {
    forall g, v: Verdict | g in Ranked(cs, cfg, half, now, displayFloor) && v.Selected? ensures AsDeveloping()(Seal(g, v)) <==> Charges(Resurfaces, g) {
      var c := RankedFrom(cs, cfg, half, now, displayFloor, g);
      Phrases(c);
    }
  }

  lemma ThreadCharges(cs: seq<Candidate>, cfg: Config, half: (real, real) -> real, now: Time, displayFloor: Time, thread: Uuid)
    requires OneCandidatePerId(cs)
    ensures Matches(OnThread(cs, thread), Ranked(cs, cfg, half, now, displayFloor), Thread(thread))
  {
    forall g, v: Verdict | g in Ranked(cs, cfg, half, now, displayFloor) && v.Selected? ensures OnThread(cs, thread)(Seal(g, v)) <==> Charges(Thread(thread), g) {
      var c := RankedFrom(cs, cfg, half, now, displayFloor, g);
    }
  }

  /** What each budget has spent. */
  ghost predicate Spent(cs: seq<Candidate>, ds: seq<Decision>, gs: seq<Gated>, pick: seq<bool>)
    requires |pick| == |gs|
  {
    && HowMany(ds, Any()) == Tally(gs, pick, Items) && HowMany(ds, AsStory()) == Tally(gs, pick, Stories)
    && HowMany(ds, AsNote()) == Tally(gs, pick, Notes) && HowMany(ds, AsDeveloping()) == Tally(gs, pick, Resurfaces)
    && forall t :: HowMany(ds, OnThread(cs, t)) == Tally(gs, pick, Thread(t))
  }

  lemma {:induction false} AllSpent(cs: seq<Candidate>, cfg: Config, maxItems: nat, half: (real, real) -> real, now: Time, displayFloor: Time)
    requires OneCandidatePerId(cs)
    ensures var ranked := Ranked(cs, cfg, half, now, displayFloor);
      Spent(cs, Decisions(cs, cfg, maxItems, half, now, displayFloor), ranked, Cut(ranked, cfg, maxItems))
  {
    HowManyTallied(cs, cfg, maxItems, half, now, displayFloor, Items, Any());
    HowManyTallied(cs, cfg, maxItems, half, now, displayFloor, Stories, AsStory());
    HowManyTallied(cs, cfg, maxItems, half, now, displayFloor, Notes, AsNote());
    DevelopingCharges(cs, cfg, half, now, displayFloor);
    HowManyTallied(cs, cfg, maxItems, half, now, displayFloor, Resurfaces, AsDeveloping());
    forall t ensures HowMany(Decisions(cs, cfg, maxItems, half, now, displayFloor), OnThread(cs, t))
      == Tally(Ranked(cs, cfg, half, now, displayFloor), Cut(Ranked(cs, cfg, half, now, displayFloor), cfg, maxItems), Thread(t)) {
      ThreadCharges(cs, cfg, half, now, displayFloor, t);
      HowManyTallied(cs, cfg, maxItems, half, now, displayFloor, Thread(t), OnThread(cs, t));
    }
  }

  /** At most so many items, stories, notes, items still developing, and items of any one thread where threads are capped. */
  lemma WithinBudgets(cs: seq<Candidate>, cfg: Config, maxItems: nat, half: (real, real) -> real, now: Time, displayFloor: Time)
    requires OneCandidatePerId(cs)
    ensures var ds := Decisions(cs, cfg, maxItems, half, now, displayFloor);
      && HowMany(ds, Any()) <= maxItems && HowMany(ds, AsStory()) <= cfg.storyCap && HowMany(ds, AsNote()) <= cfg.noteCap
      && HowMany(ds, AsDeveloping()) <= cfg.resurfaceCap
      && (cfg.threadCap > 0 ==> forall t :: HowMany(ds, OnThread(cs, t)) <= cfg.threadCap)
  {
    var ranked := Ranked(cs, cfg, half, now, displayFloor);
    AllSpent(cs, cfg, maxItems, half, now, displayFloor);
    CutFeasible(ranked, cfg, maxItems);
    FeasibleCounts(ranked, Cut(ranked, cfg, maxItems), cfg, maxItems);
  }

  lemma {:induction false} FeasibleCounts(gs: seq<Gated>, pick: seq<bool>, cfg: Config, maxItems: nat)
    requires Feasible(gs, pick, cfg, maxItems)
    ensures Tally(gs, pick, Items) <= maxItems && Tally(gs, pick, Stories) <= cfg.storyCap && Tally(gs, pick, Notes) <= cfg.noteCap
    ensures Tally(gs, pick, Resurfaces) <= cfg.resurfaceCap && (cfg.threadCap > 0 ==> forall t :: Tally(gs, pick, Thread(t)) <= cfg.threadCap)
  {
    assert Bounded(Items, cfg) && Bounded(Stories, cfg) && Bounded(Notes, cfg) && Bounded(Resurfaces, cfg);
    assert Limit(Items, cfg, maxItems) == maxItems && Limit(Stories, cfg, maxItems) == cfg.storyCap;
    assert Limit(Notes, cfg, maxItems) == cfg.noteCap && Limit(Resurfaces, cfg, maxItems) == cfg.resurfaceCap;
    forall t | cfg.threadCap > 0 ensures Tally(gs, pick, Thread(t)) <= cfg.threadCap {
      assert Bounded(Thread(t), cfg) && Limit(Thread(t), cfg, maxItems) == cfg.threadCap;
    }
  }

  lemma {:induction false} OverCapAt(gs: seq<Gated>, pick: seq<bool>, d: Decision) returns (k: nat)
    requires |pick| == |gs| && d in OverCapOf(gs, pick)
    ensures k < |gs| && !pick[k] && d == Seal(gs[k], OverCap(k))
  {
    var n := |gs| - 1;
    if d in OverCapOf(gs[..n], pick[..n]) {
      k := OverCapAt(gs[..n], pick[..n], d);
    } else {
      k := n;
    }
  }

  lemma {:induction false} FullBudget(gs: seq<Gated>, cfg: Config, maxItems: nat, k: nat)
    requires k < |gs| && !Cut(gs, cfg, maxItems)[k]
    ensures var pick := Cut(gs, cfg, maxItems);
      || Tally(gs, pick, Items) == maxItems
      || (gs[k].format == Story && Tally(gs, pick, Stories) == cfg.storyCap)
      || (gs[k].format == Note && Tally(gs, pick, Notes) == cfg.noteCap)
      || (gs[k].resurfaced && Tally(gs, pick, Resurfaces) == cfg.resurfaceCap)
      || (gs[k].threadId.Some? && cfg.threadCap > 0 && Tally(gs, pick, Thread(gs[k].threadId.value)) == cfg.threadCap)
  {
    var pick := Cut(gs, cfg, maxItems);
    OverCapIff(gs, cfg, maxItems, k);
    var b :| FullBefore(gs, pick, cfg, maxItems, k, b);
    match b {
      case Items =>
      case Stories =>
      case Notes =>
      case Resurfaces =>
      case Thread(t) =>
    }
  }

  /** An item in the running is left out only where a budget it draws on is spent to the last place. */
  lemma LeftOutOnlyWhenFull(cs: seq<Candidate>, cfg: Config, maxItems: nat, half: (real, real) -> real, now: Time, displayFloor: Time,
                            c: Candidate, d: Decision)
    requires OneCandidatePerId(cs) && c in cs && c.id == d.id
    requires d in Decisions(cs, cfg, maxItems, half, now, displayFloor) && d.verdict.OverCap?
    ensures var ds := Decisions(cs, cfg, maxItems, half, now, displayFloor);
      || HowMany(ds, Any()) == maxItems
      || (d.format == Story && HowMany(ds, AsStory()) == cfg.storyCap) || (d.format == Note && HowMany(ds, AsNote()) == cfg.noteCap)
      || (NothingNew(c) && HowMany(ds, AsDeveloping()) == cfg.resurfaceCap)
      || (c.threadId.Some? && cfg.threadCap > 0 && HowMany(ds, OnThread(cs, c.threadId.value)) == cfg.threadCap)
  {
    var ranked := Ranked(cs, cfg, half, now, displayFloor);
    var pick := Cut(ranked, cfg, maxItems);
    OverCapOnly(cs, cfg, maxItems, half, now, displayFloor, d);
    var k := OverCapAt(ranked, pick, d);
    var x := RankedFrom(cs, cfg, half, now, displayFloor, ranked[k]);
    Phrases(x);
    FullBudget(ranked, cfg, maxItems, k);
    AllSpent(cs, cfg, maxItems, half, now, displayFloor);
  }

  lemma {:induction false} OverCapOnly(cs: seq<Candidate>, cfg: Config, maxItems: nat, half: (real, real) -> real, now: Time, displayFloor: Time, d: Decision)
    requires d in Decisions(cs, cfg, maxItems, half, now, displayFloor) && d.verdict.OverCap?
    ensures var ranked := Ranked(cs, cfg, half, now, displayFloor); d in OverCapOf(ranked, Cut(ranked, cfg, maxItems))
  {
    var ranked := Ranked(cs, cfg, half, now, displayFloor);
    AllSelected(ranked, Cut(ranked, cfg, maxItems));
    SortMembers(IdLe, DroppedOf(cs, cfg, displayFloor));
    if d in DroppedOf(cs, cfg, displayFloor) {
      DroppedFrom(cs, cfg, displayFloor, d);
    }
  }

  // ── The order of the decisions ──

  /** Higher priority, then later, then the smaller id. */
  predicate RanksAbove(x: Decision, y: Decision) {
    x.priority > y.priority || (x.priority == y.priority && (x.lastEventTime > y.lastEventTime || (x.lastEventTime == y.lastEventTime && x.id < y.id)))
  }

  lemma SealedApart(g: Gated, h: Gated, v: Verdict, u: Verdict)
    requires Outranks(g, h)
    ensures !RanksAbove(Seal(h, u), Seal(g, v))
  {
  }

  ghost predicate InOrder(ds: seq<Decision>) {
    forall i, j | 0 <= i < j < |ds| :: !RanksAbove(ds[j], ds[i])
  }

  lemma OrderSnoc(ds: seq<Decision>, d: Decision)
    requires InOrder(ds) && forall x | x in ds :: !RanksAbove(d, x)
    ensures InOrder(ds + [d])
  {
    forall i, j | 0 <= i < j < |ds + [d]| ensures !RanksAbove((ds + [d])[j], (ds + [d])[i]) {
      assert (ds + [d])[i] in ds;
    }
  }

  lemma {:induction false} SealedInOrder(gs: seq<Gated>, pick: seq<bool>)
    requires |pick| == |gs| && Sorted(Outranks, gs)
    ensures InOrder(SelectedOf(gs, pick)) && InOrder(OverCapOf(gs, pick))
  {
    if gs != [] {
      var n := |gs| - 1;
      SealedInOrder(gs[..n], pick[..n]);
      var selected, overCap := SelectedOf(gs[..n], pick[..n]), OverCapOf(gs[..n], pick[..n]);
      var position := Tally(gs[..n], pick[..n], Items);
      forall x | x in selected || x in overCap ensures !RanksAbove(Seal(gs[n], Selected(position)), x) && !RanksAbove(Seal(gs[n], OverCap(n)), x) {
        var g := SealedFrom(gs[..n], pick[..n], x);
        SealedApart(g, gs[n], x.verdict, Selected(position));
        SealedApart(g, gs[n], x.verdict, OverCap(n));
      }
      OrderSnoc(selected, Seal(gs[n], Selected(position)));
      OrderSnoc(overCap, Seal(gs[n], OverCap(n)));
      assert selected + [] == selected && overCap + [] == overCap;
    }
  }

  /** The selected, the left out and the dropped, each in turn. */
  ghost predicate Staged(ds: seq<Decision>, selected: seq<Decision>, overCap: seq<Decision>, dropped: seq<Decision>) {
    && ds == selected + overCap + dropped
    && (forall d | d in selected :: d.verdict.Selected?) && (forall d | d in overCap :: d.verdict.OverCap?) && (forall d | d in dropped :: d.verdict.Dropped?)
  }

  lemma IdOrder()
    ensures Total(IdLe)
  {
  }

  lemma OutranksOrder()
    ensures Total(Outranks)
  {
  }

  /** First the selected at positions 0, 1, 2 and so on, then the left out, both by descending rank, then the dropped by id. */
  lemma TraceOrder(cs: seq<Candidate>, cfg: Config, maxItems: nat, half: (real, real) -> real, now: Time, displayFloor: Time)
    returns (selected: seq<Decision>, overCap: seq<Decision>, dropped: seq<Decision>)
    ensures Staged(Decisions(cs, cfg, maxItems, half, now, displayFloor), selected, overCap, dropped)
    ensures InOrder(selected) && InOrder(overCap) && forall i, j | 0 <= i < j < |dropped| :: dropped[i].id <= dropped[j].id
    ensures forall k | 0 <= k < |selected| :: selected[k].verdict == Selected(k)
  {
    var ranked := Ranked(cs, cfg, half, now, displayFloor);
    var pick := Cut(ranked, cfg, maxItems);
    selected, overCap, dropped := SelectedOf(ranked, pick), OverCapOf(ranked, pick), Sort(IdLe, DroppedOf(cs, cfg, displayFloor));
    OutranksOrder();
    SortSorted(Outranks, Passed(cs, cfg, half, now, displayFloor));
    SealedInOrder(ranked, pick);
    IdOrder();
    SortSorted(IdLe, DroppedOf(cs, cfg, displayFloor));
    SortMembers(IdLe, DroppedOf(cs, cfg, displayFloor));
    DroppedInOrder(dropped);
    AllSelected(ranked, pick);
    forall d | d in overCap ensures d.verdict.OverCap? { var k := OverCapAt(ranked, pick, d); }
    forall d | d in dropped ensures d.verdict.Dropped? { DroppedFrom(cs, cfg, displayFloor, d); }
    forall k | 0 <= k < |selected| ensures selected[k].verdict == Selected(k) { PositionsConsecutive(ranked, pick, k); }
  }

  lemma DroppedInOrder(ds: seq<Decision>)
    requires Sorted(IdLe, ds)
    ensures forall i, j | 0 <= i < j < |ds| :: ds[i].id <= ds[j].id
  {
    forall i, j | 0 <= i < j < |ds| ensures ds[i].id <= ds[j].id { assert IdLe(ds[i], ds[j]); }
  }

  // ── Ranks of the left out ──

  /** In the running, and above `d` there. */
  function Above(d: Decision): Decision -> bool {
    (x: Decision) => !x.verdict.Dropped? && RanksAbove(x, d)
  }

  /** Whatever an item's verdict, its decision has `p` when the item has `q`. */
  ghost predicate SealsAs(gs: seq<Gated>, p: Decision -> bool, q: Gated -> bool) {
    forall g, v: Verdict | g in gs && !v.Dropped? :: p(Seal(g, v)) <==> q(g)
  }

  /** The items sealed are those ranked, one by one. */
  lemma {:induction false} SealedCount(gs: seq<Gated>, pick: seq<bool>, p: Decision -> bool, q: Gated -> bool)
    requires |pick| == |gs| && SealsAs(gs, p, q)
    ensures |Filter(p, SelectedOf(gs, pick))| + |Filter(p, OverCapOf(gs, pick))| == |Filter(q, gs)|
  {
    if gs != [] {
      var n := |gs| - 1;
      var front, last, kept := gs[..n], gs[n], pick[..n];
      assert gs == front + [last] && last in gs && forall g | g in front :: g in gs;
      SealedCount(front, kept, p, q);
      CountsLast(q, front, last);
      if pick[n] {
        CountsLast(p, SelectedOf(front, kept), Seal(last, Selected(Tally(front, kept, Items))));
        assert OverCapOf(gs, pick) == OverCapOf(front, kept);
      } else {
        CountsLast(p, OverCapOf(front, kept), Seal(last, OverCap(n)));
        assert SelectedOf(gs, pick) == SelectedOf(front, kept);
      }
    }
  }

  function AheadOf(k: Gated): Gated -> bool {
    (g: Gated) => RanksAbove(Seal(g, Selected(0)), Seal(k, Selected(0)))
  }

  lemma StrictlyAhead(gs: seq<Gated>, i: nat, k: nat)
    requires i < k < |gs| && Sorted(Outranks, gs) && gs[i].id != gs[k].id
    ensures AheadOf(gs[k])(gs[i])
  {
    assert Outranks(gs[i], gs[k]);
  }

  lemma NotAhead(gs: seq<Gated>, k: nat, i: nat)
    requires k <= i < |gs| && Sorted(Outranks, gs)
    ensures !AheadOf(gs[k])(gs[i])
  {
    if i > k { assert Outranks(gs[k], gs[i]); }
  }

  lemma AllAhead(gs: seq<Gated>, k: nat)
    requires k < |gs| && Sorted(Outranks, gs) && forall i, j | 0 <= i < j < |gs| :: gs[i].id != gs[j].id
    ensures Filter(AheadOf(gs[k]), gs[..k]) == gs[..k]
  {
    forall g | g in gs[..k] ensures AheadOf(gs[k])(g) {
      var i :| 0 <= i < k && gs[i] == g;
      StrictlyAhead(gs, i, k);
    }
    FilterAll(AheadOf(gs[k]), gs[..k]);
  }

  lemma NoneAhead(gs: seq<Gated>, k: nat)
    requires k < |gs| && Sorted(Outranks, gs)
    ensures Filter(AheadOf(gs[k]), gs[k..]) == []
  {
    forall g | g in gs[k..] ensures !AheadOf(gs[k])(g) {
      var i :| k <= i < |gs| && gs[i] == g;
      NotAhead(gs, k, i);
    }
    FilterNone(AheadOf(gs[k]), gs[k..]);
  }

  lemma {:induction false} AheadCount(gs: seq<Gated>, k: nat)
    requires k < |gs| && Sorted(Outranks, gs) && forall i, j | 0 <= i < j < |gs| :: gs[i].id != gs[j].id
    ensures |Filter(AheadOf(gs[k]), gs)| == k
  {
    assert gs == gs[..k] + gs[k..];
    FilterAppend(AheadOf(gs[k]), gs[..k], gs[k..]);
    AllAhead(gs, k);
    NoneAhead(gs, k);
  }

  lemma AboveSealed(gs: seq<Gated>, k: nat)
    requires k < |gs|
    ensures SealsAs(gs, Above(Seal(gs[k], OverCap(k))), AheadOf(gs[k]))
  {
  }

  /** No two candidates share an id. */
  ghost predicate DistinctIds(cs: seq<Candidate>) {
    forall i, j | 0 <= i < j < |cs| :: cs[i].id != cs[j].id
  }

  lemma {:induction false} HeldOnce(cs: seq<Candidate>, id: Uuid)
    requires DistinctIds(cs)
    ensures Sum(CandidateHas(id), cs) <= 1
  {
    if cs != [] {
      HeldOnce(cs[1..], id);
      if cs[0].id == id {
        NotHeld(cs[1..], id);
      }
    }
  }

  lemma {:induction false} NotHeld(cs: seq<Candidate>, id: Uuid)
    requires forall k | 0 <= k < |cs| :: cs[k].id != id
    ensures Sum(CandidateHas(id), cs) == 0
  {
    if cs != [] {
      NotHeld(cs[1..], id);
    }
  }

  lemma {:induction false} HeldTwice(gs: seq<Gated>, i: nat, j: nat)
    requires i < j < |gs| && gs[i].id == gs[j].id
    ensures Sum(GatedHas(gs[i].id), gs) >= 2
  {
    var f := GatedHas(gs[i].id);
    assert gs == gs[..j] + gs[j..] && gs[i] in gs[..j] && gs[j] in gs[j..];
    SumAppend(f, gs[..j], gs[j..]);
    CountsOne(f, gs[..j], gs[i]);
    CountsOne(f, gs[j..], gs[j]);
  }

  lemma RankedIds(cs: seq<Candidate>, cfg: Config, half: (real, real) -> real, now: Time, displayFloor: Time, i: nat, j: nat)
    requires DistinctIds(cs) && i < j < |Ranked(cs, cfg, half, now, displayFloor)|
    ensures Ranked(cs, cfg, half, now, displayFloor)[i].id != Ranked(cs, cfg, half, now, displayFloor)[j].id
  {
    var ranked, passed := Ranked(cs, cfg, half, now, displayFloor), Passed(cs, cfg, half, now, displayFloor);
    var id := ranked[i].id;
    if id == ranked[j].id {
      HeldTwice(ranked, i, j);
      SumPermuted(GatedHas(id), ranked, passed);
      GateKeepsAll(cs, cfg, half, now, displayFloor, id);
      SumNotNegative(DecisionHas(id), DroppedOf(cs, cfg, displayFloor));
      HeldOnce(cs, id);
      assert false;
    }
  }

  /** The rank noted for an item left out is the number of items in the running above it. */
  lemma RankMeaning(cs: seq<Candidate>, cfg: Config, maxItems: nat, half: (real, real) -> real, now: Time, displayFloor: Time, d: Decision)
    requires DistinctIds(cs) && d in Decisions(cs, cfg, maxItems, half, now, displayFloor) && d.verdict.OverCap?
    ensures d.verdict == OverCap(|Filter(Above(d), Decisions(cs, cfg, maxItems, half, now, displayFloor))|)
  {
    var ranked := Ranked(cs, cfg, half, now, displayFloor);
    var pick := Cut(ranked, cfg, maxItems);
    OverCapOnly(cs, cfg, maxItems, half, now, displayFloor, d);
    var k := OverCapAt(ranked, pick, d);
    forall i, j | 0 <= i < j < |ranked| ensures ranked[i].id != ranked[j].id { RankedIds(cs, cfg, half, now, displayFloor, i, j); }
    OutranksOrder();
    SortSorted(Outranks, Passed(cs, cfg, half, now, displayFloor));
    AheadCount(ranked, k);
    AboveSealed(ranked, k);
    SealedCount(ranked, pick, Above(d), AheadOf(ranked[k]));
    NoneDroppedAbove(cs, cfg, displayFloor, d);
    var dropped := Sort(IdLe, DroppedOf(cs, cfg, displayFloor));
    FilterAppend(Above(d), SelectedOf(ranked, pick) + OverCapOf(ranked, pick), dropped);
    FilterAppend(Above(d), SelectedOf(ranked, pick), OverCapOf(ranked, pick));
  }

  lemma {:induction false} NoneDroppedAbove(cs: seq<Candidate>, cfg: Config, displayFloor: Time, d: Decision)
    ensures Filter(Above(d), Sort(IdLe, DroppedOf(cs, cfg, displayFloor))) == []
  {
    var dropped := Sort(IdLe, DroppedOf(cs, cfg, displayFloor));
    SortMembers(IdLe, DroppedOf(cs, cfg, displayFloor));
    forall x | x in dropped ensures !Above(d)(x) { DroppedFrom(cs, cfg, displayFloor, x); }
    FilterNone(Above(d), dropped);
  }

  // ── The default settings ──

  /** Priority under the default settings, with half-lives of 3, 7 and 21 days. */
  function Halving(c: Candidate, half: (real, real) -> real, now: Time): real {
    var age := Age(now, c.lastEventTime);
    var severity := if c.maxSeverity.Some? then c.maxSeverity.value as real else 0.0;
    (if c.hasPrivate then 1.5 else 1.0) * half(age, 3.0) + 0.1 * severity * half(age, 7.0) + c.relevance * half(age, 21.0)
  }

  lemma DefaultScore(c: Candidate, half: (real, real) -> real, now: Time)
    ensures Score(c, DEFAULT, half, now) == Halving(c, half, now) && DEFAULT.resurfacePenalty == 0.25
    ensures Fit(c, DEFAULT) < DEFAULT.relevanceFloor <==> c.relevance < if c.hasPrivate then -1.5 else -1.0
  {
  }

  /** By default only a thread term below minus the base drops a candidate; damping leaves a quarter. */
  lemma DefaultDecision(cs: seq<Candidate>, maxItems: nat, half: (real, real) -> real, now: Time, displayFloor: Time, c: Candidate, d: Decision)
    requires OneCandidatePerId(cs) && c in cs && d in Decisions(cs, DEFAULT, maxItems, half, now, displayFloor) && d.id == c.id
    ensures d.verdict == Dropped(BelowFloor) <==> c.lastEventTime >= displayFloor && c.relevance < if c.hasPrivate then -1.5 else -1.0
    ensures !d.verdict.Dropped? ==> d.priority == if NothingNew(c) then Halving(c, half, now) * 0.25 else Halving(c, half, now)
  {
    DecisionMeaning(cs, DEFAULT, maxItems, half, now, displayFloor, c, d);
    DefaultScore(c, half, now);
    FromDecided(c, DEFAULT, half, now, displayFloor, d);
  }

  lemma FromDecided(c: Candidate, cfg: Config, half: (real, real) -> real, now: Time, displayFloor: Time, d: Decision)
    requires Decided(c, cfg, half, now, displayFloor, d)
    ensures d.verdict == Dropped(BelowFloor) <==> c.lastEventTime >= displayFloor && Fit(c, cfg) < cfg.relevanceFloor
    ensures !d.verdict.Dropped? ==> d.priority == if NothingNew(c) then Score(c, cfg, half, now) * cfg.resurfacePenalty else Score(c, cfg, half, now)
  {
  }

  /** By default at most 5 stories, 20 notes, 5 items still developing, and 2 items of a thread. */
  lemma DefaultBudgets(cs: seq<Candidate>, maxItems: nat, half: (real, real) -> real, now: Time, displayFloor: Time, t: Uuid)
    requires OneCandidatePerId(cs)
    ensures var ds := Decisions(cs, DEFAULT, maxItems, half, now, displayFloor);
      && HowMany(ds, AsStory()) <= 5 && HowMany(ds, AsNote()) <= 20 && HowMany(ds, AsDeveloping()) <= 5 && HowMany(ds, OnThread(cs, t)) <= 2
  {
    WithinBudgets(cs, DEFAULT, maxItems, half, now, displayFloor);
  }
}
