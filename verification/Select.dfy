/** Digest selection: gate by freshness and relevance, rank by priority, cap under five budgets, record every outcome. */
module Select {
  import opened Ordering
  import opened LinkModel

  datatype Format = Story | Note

  datatype Config = Config(
    relevanceFloor: real, scopeBonus: real, severityWeight: real, recencyHalfLife: real, salienceHalfLife: real,
    threadHalfLife: real, storyCap: nat, noteCap: nat, threadCap: nat, resurfacePenalty: real, resurfaceCap: nat)

  /** The code-side defaults. */
  const DEFAULT := Config(0.0, 0.5, 0.1, 3.0, 7.0, 21.0, 5, 20, 2, 0.25, 5)

  datatype Shown = Shown(lastEventTime: Time, format: Format)

  datatype Candidate = Candidate(
    id: Uuid, lastEventTime: Time, relevance: real, eventCount: int, sourceDiversity: int, contentDepth: ContentKind,
    maxSeverity: Option<int>, hasPrivate: bool, lastShown: Option<Shown>, threadId: Option<Uuid>)

  datatype DropCause = StaleForCadence | BelowFloor

  datatype Verdict = Selected(position: nat) | OverCap(rank: nat) | Dropped(cause: DropCause)

  datatype Decision = Decision(
    id: Uuid, lastEventTime: Time, relevance: real, priority: real, naturalFormat: Format, format: Format,
    richness: string, verdict: Verdict)

  /** A candidate past the gate, carried through ranking. */
  datatype Gated = Gated(
    id: Uuid, lastEventTime: Time, relevance: real, priority: real, naturalFormat: Format, format: Format,
    richness: string, resurfaced: bool, threadId: Option<Uuid>)

  // ── Scoring ──

  /** Age in days at whole-second resolution, never negative. */
  function AgeDays(now: Time, t: Time): (age: real)
    ensures age >= 0.0
  {
    if now <= t then 0.0 else ((now - t) / 1_000_000) as real / 86_400.0
  }

  /** `half(age, halfLife)` stands for a half raised to `age / halfLife`; a non-positive half-life disables decay. */
  function Decay(half: (real, real) -> real, now: Time, t: Time, halfLife: real): real {
    if halfLife <= 0.0 then 1.0 else half(AgeDays(now, t), halfLife)
  }

  function BaseRelevance(c: Candidate, cfg: Config): real {
    1.0 + if c.hasPrivate then cfg.scopeBonus else 0.0
  }

  function Relevance(c: Candidate, cfg: Config): real {
    BaseRelevance(c, cfg) + c.relevance
  }

  function Priority(c: Candidate, cfg: Config, half: (real, real) -> real, now: Time): real {
    var severity := if c.maxSeverity.Some? then c.maxSeverity.value as real else 0.0;
    BaseRelevance(c, cfg) * Decay(half, now, c.lastEventTime, cfg.recencyHalfLife)
    + cfg.severityWeight * severity * Decay(half, now, c.lastEventTime, cfg.salienceHalfLife)
    + c.relevance * Decay(half, now, c.lastEventTime, cfg.threadHalfLife)
  }

  function Richness(c: Candidate): (Format, string) {
    if c.sourceDiversity > 1 then (Story, "multi-source")
    else if c.eventCount > 1 then (Story, "multi-event")
    else
      match c.contentDepth
      case Longform => (Story, "longform")
      case Announcement => (Note, "announcement")
      case Message => (Note, "message")
  }

  /** Shown before, nothing new since, and not grown from a Note into a Story. */
  predicate Stale(c: Candidate) {
    c.lastShown.Some?
    && c.lastEventTime <= c.lastShown.value.lastEventTime
    && !(c.lastShown.value.format == Note && Richness(c).0 == Story)
  }

  function DropReason(c: Candidate, cfg: Config, displayFloor: Time): Option<DropCause> {
    if c.lastEventTime < displayFloor then Some(StaleForCadence)
    else if Relevance(c, cfg) < cfg.relevanceFloor then Some(BelowFloor)
    else None
  }

  function DropDecision(c: Candidate, cfg: Config, cause: DropCause): Decision {
    Decision(c.id, c.lastEventTime, Relevance(c, cfg), 0.0, Richness(c).0, Richness(c).0, Richness(c).1, Dropped(cause))
  }

  function Pass(c: Candidate, cfg: Config, half: (real, real) -> real, now: Time): Gated {
    var p := Priority(c, cfg, half, now);
    if Stale(c) then
      Gated(c.id, c.lastEventTime, Relevance(c, cfg), p * cfg.resurfacePenalty, Richness(c).0, Note, "still developing", true, c.threadId)
    else
      Gated(c.id, c.lastEventTime, Relevance(c, cfg), p, Richness(c).0, Richness(c).0, Richness(c).1, false, c.threadId)
  }

  function Passed(cs: seq<Candidate>, cfg: Config, half: (real, real) -> real, now: Time, displayFloor: Time): seq<Gated> {
    if cs == [] then []
    else
      var last := cs[|cs| - 1];
      Passed(cs[..|cs| - 1], cfg, half, now, displayFloor)
      + if DropReason(last, cfg, displayFloor).None? then [Pass(last, cfg, half, now)] else []
  }

  function DroppedOf(cs: seq<Candidate>, cfg: Config, displayFloor: Time): seq<Decision> {
    if cs == [] then []
    else
      var last := cs[|cs| - 1];
      DroppedOf(cs[..|cs| - 1], cfg, displayFloor)
      + match DropReason(last, cfg, displayFloor)
        case Some(cause) => [DropDecision(last, cfg, cause)]
        case None => []
  }

  /** Higher priority first, then the more recent, then the smaller id. */
  predicate Outranks(x: Gated, y: Gated) {
    || x.priority > y.priority
    || (x.priority == y.priority && x.lastEventTime > y.lastEventTime)
    || (x.priority == y.priority && x.lastEventTime == y.lastEventTime && x.id <= y.id)
  }

  // ── Budgets ──

  datatype Budget = Stories | Notes | Resurfaces | Thread(id: Uuid) | Items

  /** Which budgets an item draws on. */
  predicate Charges(b: Budget, g: Gated) {
    match b
    case Stories => g.format == Story
    case Notes => g.format == Note
    case Resurfaces => g.resurfaced
    case Thread(id) => g.threadId == Some(id)
    case Items => true
  }

  /** A zero thread cap disables the per-thread budgets. */
  predicate Bounded(b: Budget, cfg: Config) {
    b.Thread? ==> cfg.threadCap > 0
  }

  function Limit(b: Budget, cfg: Config, maxItems: nat): nat {
    match b
    case Stories => cfg.storyCap
    case Notes => cfg.noteCap
    case Resurfaces => cfg.resurfaceCap
    case Thread(_) => cfg.threadCap
    case Items => maxItems
  }

  /** How many picked items draw on a budget. */
  function Tally(gs: seq<Gated>, pick: seq<bool>, b: Budget): nat
    requires |pick| == |gs|
  {
    if gs == [] then 0
    else
      var n := |gs| - 1;
      Tally(gs[..n], pick[..n], b) + if pick[n] && Charges(b, gs[n]) then 1 else 0
  }

  predicate Admits(gs: seq<Gated>, pick: seq<bool>, g: Gated, cfg: Config, maxItems: nat)
    requires |pick| == |gs|
  {
    && (if g.format == Story then Tally(gs, pick, Stories) < cfg.storyCap else Tally(gs, pick, Notes) < cfg.noteCap)
    && (!g.resurfaced || Tally(gs, pick, Resurfaces) < cfg.resurfaceCap)
    && (g.threadId.None? || cfg.threadCap == 0 || Tally(gs, pick, Thread(g.threadId.value)) < cfg.threadCap)
    && Tally(gs, pick, Items) < maxItems
  }

  /** Which ranked items make the digest. */
  function Cut(gs: seq<Gated>, cfg: Config, maxItems: nat): (pick: seq<bool>)
    ensures |pick| == |gs|
  {
    if gs == [] then []
    else
      var n := |gs| - 1;
      var earlier := Cut(gs[..n], cfg, maxItems);
      earlier + [Admits(gs[..n], earlier, gs[n], cfg, maxItems)]
  }

  function Seal(g: Gated, verdict: Verdict): Decision {
    Decision(g.id, g.lastEventTime, g.relevance, g.priority, g.naturalFormat, g.format, g.richness, verdict)
  }

  /** The picked items, in rank order, at consecutive positions. */
  function SelectedOf(gs: seq<Gated>, pick: seq<bool>): (ds: seq<Decision>)
    requires |pick| == |gs|
  {
    if gs == [] then []
    else
      var n := |gs| - 1;
      SelectedOf(gs[..n], pick[..n]) + if pick[n] then [Seal(gs[n], Selected(Tally(gs[..n], pick[..n], Items)))] else []
  }

  /** The other ranked items, each with its rank. */
  function OverCapOf(gs: seq<Gated>, pick: seq<bool>): (ds: seq<Decision>)
    requires |pick| == |gs|
  {
    if gs == [] then []
    else
      var n := |gs| - 1;
      OverCapOf(gs[..n], pick[..n]) + if pick[n] then [] else [Seal(gs[n], OverCap(n))]
  }

  predicate IdLe(x: Decision, y: Decision) {
    x.id <= y.id
  }

  function Ranked(cs: seq<Candidate>, cfg: Config, half: (real, real) -> real, now: Time, displayFloor: Time): seq<Gated> {
    Sort(Outranks, Passed(cs, cfg, half, now, displayFloor))
  }

  /** What selection returns. */
  function Decisions(cs: seq<Candidate>, cfg: Config, maxItems: nat, half: (real, real) -> real, now: Time, displayFloor: Time): seq<Decision> {
    var ranked := Ranked(cs, cfg, half, now, displayFloor);
    var pick := Cut(ranked, cfg, maxItems);
    SelectedOf(ranked, pick) + OverCapOf(ranked, pick) + Sort(IdLe, DroppedOf(cs, cfg, displayFloor))
  }

  // ── The algorithm ──

  /** The gate: dropped candidates get their decision at once, the rest go on to ranking. */
  method Gate(cs: seq<Candidate>, cfg: Config, half: (real, real) -> real, now: Time, displayFloor: Time)
    returns (gated: seq<Gated>, dropped: seq<Decision>)
    ensures gated == Passed(cs, cfg, half, now, displayFloor) && dropped == DroppedOf(cs, cfg, displayFloor)
  {
    gated, dropped := [], [];
    for k := 0 to |cs|
      invariant gated == Passed(cs[..k], cfg, half, now, displayFloor) && dropped == DroppedOf(cs[..k], cfg, displayFloor)
    {
      assert cs[..k + 1][..k] == cs[..k];
      var c := cs[k];
      if c.lastEventTime < displayFloor {
        dropped := dropped + [DropDecision(c, cfg, StaleForCadence)];
      } else if Relevance(c, cfg) < cfg.relevanceFloor {
        dropped := dropped + [DropDecision(c, cfg, BelowFloor)];
      } else {
        gated := gated + [Pass(c, cfg, half, now)];
      }
    }
    assert cs[..|cs|] == cs;
  }

  /** What the cap loop's counters hold after the items `gs`, picked as in `pick`. */
  ghost predicate Counted(gs: seq<Gated>, pick: seq<bool>, stories: nat, notes: nat, resurfaced: nat, position: nat, threads: map<Uuid, nat>)
    requires |pick| == |gs|
  {
    && stories == Tally(gs, pick, Stories) && notes == Tally(gs, pick, Notes)
    && resurfaced == Tally(gs, pick, Resurfaces) && position == Tally(gs, pick, Items)
    && forall t: Uuid :: ThreadCount(threads, t) == Tally(gs, pick, Thread(t))
  }

  function ThreadCount(threads: map<Uuid, nat>, t: Uuid): nat {
    if t in threads then threads[t] else 0
  }

  lemma {:induction false} TallyNext(gs: seq<Gated>, pick: seq<bool>, k: nat, b: Budget)
    requires |pick| == |gs| && k < |gs|
    ensures Tally(gs[..k + 1], pick[..k + 1], b) == Tally(gs[..k], pick[..k], b) + if pick[k] && Charges(b, gs[k]) then 1 else 0
  {
    assert gs[..k + 1][..k] == gs[..k] && pick[..k + 1][..k] == pick[..k];
  }

  lemma CountedNext(gs: seq<Gated>, pick: seq<bool>, k: nat, stories: nat, notes: nat, resurfaced: nat, position: nat, threads: map<Uuid, nat>)
    requires |pick| == |gs| && k < |gs| && Counted(gs[..k], pick[..k], stories, notes, resurfaced, position, threads)
    ensures !pick[k] ==> Counted(gs[..k + 1], pick[..k + 1], stories, notes, resurfaced, position, threads)
    ensures pick[k] ==>
      Counted(gs[..k + 1], pick[..k + 1],
              if gs[k].format == Story then stories + 1 else stories,
              if gs[k].format == Note then notes + 1 else notes,
              if gs[k].resurfaced then resurfaced + 1 else resurfaced,
              position + 1,
              if gs[k].threadId.Some? then threads[gs[k].threadId.value := ThreadCount(threads, gs[k].threadId.value) + 1] else threads)
  {
    TallyNext(gs, pick, k, Stories);
    TallyNext(gs, pick, k, Notes);
    TallyNext(gs, pick, k, Resurfaces);
    TallyNext(gs, pick, k, Items);
    forall t: Uuid ensures Tally(gs[..k + 1], pick[..k + 1], Thread(t)) == Tally(gs[..k], pick[..k], Thread(t)) + if pick[k] && gs[k].threadId == Some(t) then 1 else 0 {
      TallyNext(gs, pick, k, Thread(t));
    }
  }

  lemma {:induction false} CutFront(gs: seq<Gated>, cfg: Config, maxItems: nat)
    requires gs != []
    ensures Cut(gs[..|gs| - 1], cfg, maxItems) == Cut(gs, cfg, maxItems)[..|gs| - 1]
  {
  }

  lemma Nested<T>(s: seq<T>, n: nat, k: nat)
    requires k <= n <= |s|
    ensures s[..n][..k] == s[..k]
  {
  }

  lemma {:induction false} CutPrefix(gs: seq<Gated>, cfg: Config, maxItems: nat, k: nat)
    requires k <= |gs|
    ensures Cut(gs[..k], cfg, maxItems) == Cut(gs, cfg, maxItems)[..k]
  {
    if k == |gs| {
      assert gs[..k] == gs;
    } else {
      var n := |gs| - 1;
      CutPrefix(gs[..n], cfg, maxItems, k);
      CutFront(gs, cfg, maxItems);
      Nested(gs, n, k);
      Nested(Cut(gs, cfg, maxItems), n, k);
    }
  }

  lemma {:induction false} CutAt(gs: seq<Gated>, cfg: Config, maxItems: nat, k: nat)
    requires k < |gs|
    ensures var pick := Cut(gs, cfg, maxItems);
      pick[k] <==> Admits(gs[..k], pick[..k], gs[k], cfg, maxItems)
  {
    CutPrefix(gs, cfg, maxItems, k);
    CutPrefix(gs, cfg, maxItems, k + 1);
    assert gs[..k + 1][..k] == gs[..k];
    assert Cut(gs, cfg, maxItems)[..k + 1][k] == Cut(gs, cfg, maxItems)[k];
  }

  /** The cap loop: five counters, one pass in rank order. */
  method CapLoop(gs: seq<Gated>, cfg: Config, maxItems: nat) returns (selected: seq<Decision>, overCap: seq<Decision>)
    ensures selected == SelectedOf(gs, Cut(gs, cfg, maxItems)) && overCap == OverCapOf(gs, Cut(gs, cfg, maxItems))
  {
    var stories, notes, resurfaced, position := 0, 0, 0, 0;
    var threads: map<Uuid, nat> := map[];
    selected, overCap := [], [];
    ghost var pick := Cut(gs, cfg, maxItems);
    for rank := 0 to |gs|
      invariant Counted(gs[..rank], pick[..rank], stories, notes, resurfaced, position, threads)
      invariant selected == SelectedOf(gs[..rank], pick[..rank]) && overCap == OverCapOf(gs[..rank], pick[..rank])
    {
      var g := gs[rank];
      CutAt(gs, cfg, maxItems, rank);
      CountedNext(gs, pick, rank, stories, notes, resurfaced, position, threads);
      assert gs[..rank + 1][..rank] == gs[..rank] && pick[..rank + 1][..rank] == pick[..rank];
      var formatOk := if g.format == Story then stories < cfg.storyCap else notes < cfg.noteCap;
      var resurfaceOk := !g.resurfaced || resurfaced < cfg.resurfaceCap;
      var threadOk := g.threadId.None? || cfg.threadCap == 0 || ThreadCount(threads, g.threadId.value) < cfg.threadCap;
      if formatOk && resurfaceOk && threadOk && position < maxItems {
        selected := selected + [Seal(g, Selected(position))];
        if g.format == Story {
          stories := stories + 1;
        } else {
          notes := notes + 1;
        }
        if g.resurfaced {
          resurfaced := resurfaced + 1;
        }
        if g.threadId.Some? {
          threads := threads[g.threadId.value := ThreadCount(threads, g.threadId.value) + 1];
        }
        position := position + 1;
      } else {
        overCap := overCap + [Seal(g, OverCap(rank))];
      }
    }
    assert gs[..|gs|] == gs && pick[..|gs|] == pick;
  }

  method SelectItems(cs: seq<Candidate>, cfg: Config, maxItems: nat, half: (real, real) -> real, now: Time, displayFloor: Time)
    returns (decisions: seq<Decision>)
    ensures decisions == Decisions(cs, cfg, maxItems, half, now, displayFloor)
  {
    var gated, dropped := Gate(cs, cfg, half, now, displayFloor);
    var selected, overCap := CapLoop(Sort(Outranks, gated), cfg, maxItems);
    decisions := selected + overCap + Sort(IdLe, dropped);
  }
}
