/** The cap loop is the best feasible digest, every outcome is on record, and what damping does to a priority. */
module SelectLaws {
  import opened Ordering
  import opened Sums
  import opened LinkModel
  import opened Select

  // ── Feasible picks ──

  /** No bounded budget is overdrawn. */
  ghost predicate Feasible(gs: seq<Gated>, pick: seq<bool>, cfg: Config, maxItems: nat) {
    |pick| == |gs| && forall b | Bounded(b, cfg) :: Tally(gs, pick, b) <= Limit(b, cfg, maxItems)
  }

  /** Having room means every bounded budget the item draws on has room. */
  lemma {:induction false} AdmitsMeaning(gs: seq<Gated>, pick: seq<bool>, g: Gated, cfg: Config, maxItems: nat)
    requires |pick| == |gs|
    ensures Admits(gs, pick, g, cfg, maxItems)
       <==> forall b | Bounded(b, cfg) && Charges(b, g) :: Tally(gs, pick, b) < Limit(b, cfg, maxItems)
  {
    var room := forall b | Bounded(b, cfg) && Charges(b, g) :: Tally(gs, pick, b) < Limit(b, cfg, maxItems);
    if room {
      assert Charges(Items, g) && Bounded(Items, cfg) && Limit(Items, cfg, maxItems) == maxItems;
      assert g.format == Story ==> Charges(Stories, g) && Limit(Stories, cfg, maxItems) == cfg.storyCap;
      assert g.format == Note ==> Charges(Notes, g) && Limit(Notes, cfg, maxItems) == cfg.noteCap;
      assert g.resurfaced ==> Charges(Resurfaces, g) && Limit(Resurfaces, cfg, maxItems) == cfg.resurfaceCap;
      if g.threadId.Some? && cfg.threadCap > 0 {
        assert Charges(Thread(g.threadId.value), g) && Bounded(Thread(g.threadId.value), cfg);
      }
    }
  }

  lemma {:induction false} TallyGrows(gs: seq<Gated>, pick: seq<bool>, k: nat, b: Budget)
    requires |pick| == |gs| && k <= |gs|
    ensures Tally(gs[..k], pick[..k], b) <= Tally(gs, pick, b)
  {
    var n := |gs| - 1;
    if k == |gs| {
      assert gs[..k] == gs && pick[..k] == pick;
    } else {
      TallyGrows(gs[..n], pick[..n], k, b);
      assert gs[..n][..k] == gs[..k] && pick[..n][..k] == pick[..k];
    }
  }

  /** The cut respects every budget. */
  lemma {:induction false} CutFeasible(gs: seq<Gated>, cfg: Config, maxItems: nat)
    ensures Feasible(gs, Cut(gs, cfg, maxItems), cfg, maxItems)
  {
    if gs != [] {
      var n := |gs| - 1;
      var earlier := Cut(gs[..n], cfg, maxItems);
      CutFeasible(gs[..n], cfg, maxItems);
      AdmitsMeaning(gs[..n], earlier, gs[n], cfg, maxItems);
      var pick := Cut(gs, cfg, maxItems);
      assert pick[..n] == earlier;
    }
  }

  /** `x` takes the first item the two picks differ on. */
  ghost predicate Better(x: seq<bool>, y: seq<bool>) {
    exists k :: 0 <= k < |x| && k < |y| && x[k] && !y[k] && x[..k] == y[..k]
  }

  lemma {:induction false} FirstDifference(x: seq<bool>, y: seq<bool>) returns (k: nat)
    requires |x| == |y| && x != y
    ensures k < |x| && x[k] != y[k] && x[..k] == y[..k]
  {
    var n := |x| - 1;
    if x[..n] == y[..n] {
      k := n;
      assert x == x[..n] + [x[n]] && y == y[..n] + [y[n]];
    } else {
      k := FirstDifference(x[..n], y[..n]);
      assert x[..n][..k] == x[..k] && y[..n][..k] == y[..k];
    }
  }

  /** No feasible pick beats the cut: it is the greatest feasible digest in priority order. */
  lemma {:induction false} CutGreatest(gs: seq<Gated>, cfg: Config, maxItems: nat, pick: seq<bool>)
    requires Feasible(gs, pick, cfg, maxItems)
    ensures pick == Cut(gs, cfg, maxItems) || Better(Cut(gs, cfg, maxItems), pick)
  {
    var cut := Cut(gs, cfg, maxItems);
    if pick != cut {
      var k := FirstDifference(cut, pick);
      if pick[k] {
        CutAt(gs, cfg, maxItems, k);
        AdmitsMeaning(gs[..k], cut[..k], gs[k], cfg, maxItems);
        var b :| Bounded(b, cfg) && Charges(b, gs[k]) && Tally(gs[..k], cut[..k], b) >= Limit(b, cfg, maxItems);
        TallyNext(gs, pick, k, b);
        TallyGrows(gs, pick, k + 1, b);
      }
    }
  }

  /** Priority, then recency, then id: any two items compare, and the ranking descends. */
  lemma {:induction false} RankedDescends(cs: seq<Candidate>, cfg: Config, half: (real, real) -> real, now: Time, displayFloor: Time)
    ensures Total(Outranks) && Sorted(Outranks, Ranked(cs, cfg, half, now, displayFloor))
    ensures multiset(Ranked(cs, cfg, half, now, displayFloor)) == multiset(Passed(cs, cfg, half, now, displayFloor))
  {
    SortSorted(Outranks, Passed(cs, cfg, half, now, displayFloor));
  }

  /**
   * The digest of a candidate set: its items are the greatest feasible pick of the candidates past the gate,
   * listed from highest priority to lowest.
   */
  lemma {:induction false} DigestGreatest(cs: seq<Candidate>, cfg: Config, maxItems: nat, half: (real, real) -> real, now: Time, displayFloor: Time, pick: seq<bool>)
    requires Feasible(Ranked(cs, cfg, half, now, displayFloor), pick, cfg, maxItems)
    ensures var ranked := Ranked(cs, cfg, half, now, displayFloor);
      var cut := Cut(ranked, cfg, maxItems);
      && Sorted(Outranks, ranked) && multiset(ranked) == multiset(Passed(cs, cfg, half, now, displayFloor))
      && SelectedOf(ranked, cut) <= Decisions(cs, cfg, maxItems, half, now, displayFloor)
      && (forall d | d in Decisions(cs, cfg, maxItems, half, now, displayFloor) && d.verdict.Selected? :: d in SelectedOf(ranked, cut))
      && (pick == cut || Better(cut, pick))
  {
    var ranked := Ranked(cs, cfg, half, now, displayFloor);
    var cut := Cut(ranked, cfg, maxItems);
    RankedDescends(cs, cfg, half, now, displayFloor);
    CutGreatest(ranked, cfg, maxItems, pick);
    OthersNotSelected(ranked, cut, cs, cfg, displayFloor);
  }

  lemma {:induction false} OverCapVerdicts(gs: seq<Gated>, pick: seq<bool>)
    requires |pick| == |gs|
    ensures forall d | d in OverCapOf(gs, pick) :: !d.verdict.Selected?
  {
    if gs != [] {
      OverCapVerdicts(gs[..|gs| - 1], pick[..|gs| - 1]);
    }
  }

  lemma {:induction false} DroppedVerdicts(cs: seq<Candidate>, cfg: Config, displayFloor: Time)
    ensures forall d | d in DroppedOf(cs, cfg, displayFloor) :: !d.verdict.Selected?
  {
    if cs != [] {
      DroppedVerdicts(cs[..|cs| - 1], cfg, displayFloor);
    }
  }

  lemma {:induction false} OthersNotSelected(gs: seq<Gated>, pick: seq<bool>, cs: seq<Candidate>, cfg: Config, displayFloor: Time)
    requires |pick| == |gs|
    ensures forall d | d in OverCapOf(gs, pick) + Sort(IdLe, DroppedOf(cs, cfg, displayFloor)) :: !d.verdict.Selected?
  {
    OverCapVerdicts(gs, pick);
    DroppedVerdicts(cs, cfg, displayFloor);
    SortMembers(IdLe, DroppedOf(cs, cfg, displayFloor));
  }

  // ── The order candidates come in ──

  function PassesAs(g: Gated, cfg: Config, half: (real, real) -> real, now: Time, displayFloor: Time): Candidate -> int {
    (c: Candidate) => if DropReason(c, cfg, displayFloor).None? && Pass(c, cfg, half, now) == g then 1 else 0
  }

  function DropsAs(d: Decision, cfg: Config, displayFloor: Time): Candidate -> int {
    (c: Candidate) =>
      var cause := DropReason(c, cfg, displayFloor);
      if cause.Some? && DropDecision(c, cfg, cause.value) == d then 1 else 0
  }

  lemma CountAppend<T>(s: seq<T>, r: seq<T>, x: T)
    ensures multiset(s + r)[x] == multiset(s)[x] + multiset(r)[x]
  {
  }

  lemma {:induction false} PassedSnoc(front: seq<Candidate>, last: Candidate, cfg: Config, half: (real, real) -> real, now: Time, displayFloor: Time, g: Gated)
    ensures multiset(Passed(front + [last], cfg, half, now, displayFloor))[g]
         == multiset(Passed(front, cfg, half, now, displayFloor))[g] + PassesAs(g, cfg, half, now, displayFloor)(last)
  {
    var passed := Passed(front, cfg, half, now, displayFloor);
    assert (front + [last])[..|front|] == front;
    if DropReason(last, cfg, displayFloor).None? {
      CountAppend(passed, [Pass(last, cfg, half, now)], g);
    } else {
      assert passed + [] == passed;
    }
  }

  lemma {:induction false} PassedCount(cs: seq<Candidate>, cfg: Config, half: (real, real) -> real, now: Time, displayFloor: Time, g: Gated)
    ensures multiset(Passed(cs, cfg, half, now, displayFloor))[g] == Sum(PassesAs(g, cfg, half, now, displayFloor), cs)
  {
    if cs != [] {
      var front, last := cs[..|cs| - 1], cs[|cs| - 1];
      PassedCount(front, cfg, half, now, displayFloor, g);
      assert cs == front + [last];
      PassedSnoc(front, last, cfg, half, now, displayFloor, g);
      SumSnoc(PassesAs(g, cfg, half, now, displayFloor), front, last);
    }
  }

  lemma {:induction false} DroppedSnoc(front: seq<Candidate>, last: Candidate, cfg: Config, displayFloor: Time, d: Decision)
    ensures multiset(DroppedOf(front + [last], cfg, displayFloor))[d]
         == multiset(DroppedOf(front, cfg, displayFloor))[d] + DropsAs(d, cfg, displayFloor)(last)
  {
    var cause, dropped := DropReason(last, cfg, displayFloor), DroppedOf(front, cfg, displayFloor);
    assert (front + [last])[..|front|] == front;
    if cause.Some? {
      CountAppend(dropped, [DropDecision(last, cfg, cause.value)], d);
    } else {
      assert dropped + [] == dropped;
    }
  }

  lemma {:induction false} DroppedCount(cs: seq<Candidate>, cfg: Config, displayFloor: Time, d: Decision)
    ensures multiset(DroppedOf(cs, cfg, displayFloor))[d] == Sum(DropsAs(d, cfg, displayFloor), cs)
  {
    if cs != [] {
      DroppedCount(cs[..|cs| - 1], cfg, displayFloor, d);
      DroppedStep(cs, cs[..|cs| - 1], cs[|cs| - 1], cfg, displayFloor, d);
    }
  }

  lemma {:induction false} DroppedStep(cs: seq<Candidate>, front: seq<Candidate>, last: Candidate, cfg: Config, displayFloor: Time, d: Decision)
    requires cs == front + [last] && multiset(DroppedOf(front, cfg, displayFloor))[d] == Sum(DropsAs(d, cfg, displayFloor), front)
    ensures multiset(DroppedOf(cs, cfg, displayFloor))[d] == Sum(DropsAs(d, cfg, displayFloor), cs)
  {
    SumSnoc(DropsAs(d, cfg, displayFloor), front, last);
    DroppedSnoc(front, last, cfg, displayFloor, d);
  }

  ghost predicate OneCandidatePerId(cs: seq<Candidate>) {
    forall c, d | c in cs && d in cs && c.id == d.id :: c == d
  }

  /** The candidate passes the gate. */
  predicate PassesGate(c: Candidate, cs: seq<Candidate>, cfg: Config, displayFloor: Time) {
    c in cs && DropReason(c, cfg, displayFloor).None?
  }

  lemma {:induction false} GatedFrom(cs: seq<Candidate>, cfg: Config, half: (real, real) -> real, now: Time, displayFloor: Time, g: Gated)
    returns (c: Candidate)
    requires g in Passed(cs, cfg, half, now, displayFloor)
    ensures PassesGate(c, cs, cfg, displayFloor) && g == Pass(c, cfg, half, now)
  {
    var front, last := cs[..|cs| - 1], cs[|cs| - 1];
    assert cs == front + [last];
    if g in Passed(front, cfg, half, now, displayFloor) {
      c := GatedFrom(front, cfg, half, now, displayFloor, g);
    } else {
      c := last;
    }
  }

  lemma {:induction false} DroppedFrom(cs: seq<Candidate>, cfg: Config, displayFloor: Time, d: Decision)
    requires d in DroppedOf(cs, cfg, displayFloor)
    ensures exists c | c in cs :: DropReason(c, cfg, displayFloor).Some? && d == DropDecision(c, cfg, DropReason(c, cfg, displayFloor).value)
  {
    var front, last := cs[..|cs| - 1], cs[|cs| - 1];
    assert cs == front + [last];
    if d in DroppedOf(front, cfg, displayFloor) {
      DroppedFrom(front, cfg, displayFloor, d);
      var c :| c in front && DropReason(c, cfg, displayFloor).Some? && d == DropDecision(c, cfg, DropReason(c, cfg, displayFloor).value);
      assert c in cs;
    } else {
      assert last in cs;
    }
  }

  lemma RankedOrderFree(cs: seq<Candidate>, ds: seq<Candidate>, cfg: Config, half: (real, real) -> real, now: Time, displayFloor: Time)
    requires multiset(cs) == multiset(ds) && OneCandidatePerId(cs)
    ensures Ranked(cs, cfg, half, now, displayFloor) == Ranked(ds, cfg, half, now, displayFloor)
  {
    var a, b := Passed(cs, cfg, half, now, displayFloor), Passed(ds, cfg, half, now, displayFloor);
    forall g ensures multiset(a)[g] == multiset(b)[g] {
      PassedCount(cs, cfg, half, now, displayFloor, g);
      PassedCount(ds, cfg, half, now, displayFloor, g);
      SumPermuted(PassesAs(g, cfg, half, now, displayFloor), cs, ds);
    }
    forall x, y | x in a && y in a && Outranks(x, y) && Outranks(y, x) ensures x == y {
      var c := GatedFrom(cs, cfg, half, now, displayFloor, x);
      var d := GatedFrom(cs, cfg, half, now, displayFloor, y);
      assert c.id == x.id && d.id == y.id;
    }
    SortPermuted(Outranks, a, b);
  }

  lemma {:induction false} DroppedOrderFree(cs: seq<Candidate>, ds: seq<Candidate>, cfg: Config, displayFloor: Time)
    requires multiset(cs) == multiset(ds) && OneCandidatePerId(cs)
    ensures Sort(IdLe, DroppedOf(cs, cfg, displayFloor)) == Sort(IdLe, DroppedOf(ds, cfg, displayFloor))
  {
    var a, b := DroppedOf(cs, cfg, displayFloor), DroppedOf(ds, cfg, displayFloor);
    forall d ensures multiset(a)[d] == multiset(b)[d] {
      DroppedCount(cs, cfg, displayFloor, d);
      DroppedCount(ds, cfg, displayFloor, d);
      SumPermuted(DropsAs(d, cfg, displayFloor), cs, ds);
    }
    forall x, y | x in a && y in a && IdLe(x, y) && IdLe(y, x) ensures x == y {
      DroppedFrom(cs, cfg, displayFloor, x);
      DroppedFrom(cs, cfg, displayFloor, y);
    }
    SortPermuted(IdLe, a, b);
  }

  /** The order the candidates come in changes nothing: not the ranking, not the cut, not the trace. */
  lemma DecisionsOrderFree(cs: seq<Candidate>, ds: seq<Candidate>, cfg: Config, maxItems: nat, half: (real, real) -> real, now: Time, displayFloor: Time)
    requires multiset(cs) == multiset(ds) && OneCandidatePerId(cs)
    ensures Decisions(cs, cfg, maxItems, half, now, displayFloor) == Decisions(ds, cfg, maxItems, half, now, displayFloor)
  {
    RankedOrderFree(cs, ds, cfg, half, now, displayFloor);
    DroppedOrderFree(cs, ds, cfg, displayFloor);
  }

  /** Why an item fell over the cap: one of its budgets was filled to the brim by items ranked before it, and stayed so. */
  ghost predicate FullBefore(gs: seq<Gated>, pick: seq<bool>, cfg: Config, maxItems: nat, k: nat, b: Budget)
    requires |pick| == |gs| && k < |gs|
  {
    && Bounded(b, cfg) && Charges(b, gs[k])
    && Tally(gs[..k], pick[..k], b) == Limit(b, cfg, maxItems) == Tally(gs, pick, b)
  }

  /** An item misses the cut exactly when one of its budgets is full, filled only by items ranked before it. */
  lemma {:induction false} OverCapIff(gs: seq<Gated>, cfg: Config, maxItems: nat, k: nat)
    requires k < |gs|
    ensures !Cut(gs, cfg, maxItems)[k] <==> exists b :: FullBefore(gs, Cut(gs, cfg, maxItems), cfg, maxItems, k, b)
  {
    var cut := Cut(gs, cfg, maxItems);
    CutAt(gs, cfg, maxItems, k);
    AdmitsMeaning(gs[..k], cut[..k], gs[k], cfg, maxItems);
    if !cut[k] {
      var b :| Bounded(b, cfg) && Charges(b, gs[k]) && Tally(gs[..k], cut[..k], b) >= Limit(b, cfg, maxItems);
      TallyGrows(gs, cut, k, b);
      CutFeasible(gs, cfg, maxItems);
      assert FullBefore(gs, cut, cfg, maxItems, k, b);
    }
  }

  // ── The trace ──

  function DecisionHas(id: Uuid): Decision -> int {
    (d: Decision) => if d.id == id then 1 else 0
  }

  function GatedHas(id: Uuid): Gated -> int {
    (g: Gated) => if g.id == id then 1 else 0
  }

  function CandidateHas(id: Uuid): Candidate -> int {
    (c: Candidate) => if c.id == id then 1 else 0
  }

  lemma {:induction false} SumSnoc<T>(f: T -> int, front: seq<T>, x: T)
    ensures Sum(f, front + [x]) == Sum(f, front) + f(x)
  {
    SumAppend(f, front, [x]);
    SumOne(f, x);
  }

  lemma {:induction false} CapKeepsAll(gs: seq<Gated>, pick: seq<bool>, id: Uuid)
    requires |pick| == |gs|
    ensures Sum(DecisionHas(id), SelectedOf(gs, pick)) + Sum(DecisionHas(id), OverCapOf(gs, pick)) == Sum(GatedHas(id), gs)
  {
    if gs != [] {
      var n := |gs| - 1;
      var selected, overCap := SelectedOf(gs[..n], pick[..n]), OverCapOf(gs[..n], pick[..n]);
      CapKeepsAll(gs[..n], pick[..n], id);
      assert gs == gs[..n] + [gs[n]];
      SumSnoc(GatedHas(id), gs[..n], gs[n]);
      if pick[n] {
        SumSnoc(DecisionHas(id), selected, Seal(gs[n], Selected(Tally(gs[..n], pick[..n], Items))));
        assert overCap + [] == overCap;
      } else {
        SumSnoc(DecisionHas(id), overCap, Seal(gs[n], OverCap(n)));
        assert selected + [] == selected;
      }
    }
  }

  lemma {:induction false} PassedNext(cs: seq<Candidate>, last: Candidate, cfg: Config, half: (real, real) -> real, now: Time, displayFloor: Time, id: Uuid)
    ensures Sum(GatedHas(id), Passed(cs + [last], cfg, half, now, displayFloor))
         == Sum(GatedHas(id), Passed(cs, cfg, half, now, displayFloor))
            + if DropReason(last, cfg, displayFloor).None? then CandidateHas(id)(last) else 0
  {
    var passed := Passed(cs, cfg, half, now, displayFloor);
    assert (cs + [last])[..|cs|] == cs;
    SumSnoc(GatedHas(id), passed, Pass(last, cfg, half, now));
    assert passed + [] == passed;
  }

  lemma {:induction false} DroppedNext(cs: seq<Candidate>, last: Candidate, cfg: Config, displayFloor: Time, id: Uuid)
    ensures Sum(DecisionHas(id), DroppedOf(cs + [last], cfg, displayFloor))
         == Sum(DecisionHas(id), DroppedOf(cs, cfg, displayFloor))
            + if DropReason(last, cfg, displayFloor).None? then 0 else CandidateHas(id)(last)
  {
    var dropped := DroppedOf(cs, cfg, displayFloor);
    assert (cs + [last])[..|cs|] == cs;
    if DropReason(last, cfg, displayFloor).Some? {
      SumSnoc(DecisionHas(id), dropped, DropDecision(last, cfg, DropReason(last, cfg, displayFloor).value));
    }
    assert dropped + [] == dropped;
  }

  lemma {:induction false} GateKeepsAll(cs: seq<Candidate>, cfg: Config, half: (real, real) -> real, now: Time, displayFloor: Time, id: Uuid)
    ensures Sum(GatedHas(id), Passed(cs, cfg, half, now, displayFloor)) + Sum(DecisionHas(id), DroppedOf(cs, cfg, displayFloor))
         == Sum(CandidateHas(id), cs)
  {
    if cs != [] {
      var front, last := cs[..|cs| - 1], cs[|cs| - 1];
      GateKeepsAll(front, cfg, half, now, displayFloor, id);
      assert cs == front + [last];
      SumSnoc(CandidateHas(id), front, last);
      PassedNext(front, last, cfg, half, now, displayFloor, id);
      DroppedNext(front, last, cfg, displayFloor, id);
    }
  }

  /** Every candidate gets exactly one decision, and nothing else does. */
  lemma {:induction false} TraceComplete(cs: seq<Candidate>, cfg: Config, maxItems: nat, half: (real, real) -> real, now: Time, displayFloor: Time, id: Uuid)
    ensures Sum(DecisionHas(id), Decisions(cs, cfg, maxItems, half, now, displayFloor)) == Sum(CandidateHas(id), cs)
  {
    var passed, dropped := Passed(cs, cfg, half, now, displayFloor), DroppedOf(cs, cfg, displayFloor);
    var ranked := Ranked(cs, cfg, half, now, displayFloor);
    var pick := Cut(ranked, cfg, maxItems);
    GateKeepsAll(cs, cfg, half, now, displayFloor, id);
    SumPermuted(GatedHas(id), ranked, passed);
    SumPermuted(DecisionHas(id), Sort(IdLe, dropped), dropped);
    CapKeepsAll(ranked, pick, id);
    SumAppend(DecisionHas(id), SelectedOf(ranked, pick) + OverCapOf(ranked, pick), Sort(IdLe, dropped));
    SumAppend(DecisionHas(id), SelectedOf(ranked, pick), OverCapOf(ranked, pick));
  }

  /** Selected items sit at consecutive positions, and there are never more than `maxItems` of them. */
  lemma {:induction false} PositionsConsecutive(gs: seq<Gated>, pick: seq<bool>, p: nat)
    requires |pick| == |gs| && p < |SelectedOf(gs, pick)|
    ensures SelectedOf(gs, pick)[p].verdict == Selected(p)
    ensures |SelectedOf(gs, pick)| == Tally(gs, pick, Items)
  {
    var n := |gs| - 1;
    SelectedCount(gs[..n], pick[..n]);
    SelectedCount(gs, pick);
    if p < |SelectedOf(gs[..n], pick[..n])| {
      PositionsConsecutive(gs[..n], pick[..n], p);
    }
  }

  lemma {:induction false} SelectedCount(gs: seq<Gated>, pick: seq<bool>)
    requires |pick| == |gs|
    ensures |SelectedOf(gs, pick)| == Tally(gs, pick, Items)
    ensures |SelectedOf(gs, pick)| + |OverCapOf(gs, pick)| == |gs|
  {
    if gs != [] {
      SelectedCount(gs[..|gs| - 1], pick[..|gs| - 1]);
    }
  }

  /** A digest renders at most `maxItems` items, and at most the two format caps together. */
  lemma {:induction false} DigestBounded(gs: seq<Gated>, cfg: Config, maxItems: nat)
    ensures var n := |SelectedOf(gs, Cut(gs, cfg, maxItems))|; n <= maxItems && n <= cfg.storyCap + cfg.noteCap
  {
    var pick := Cut(gs, cfg, maxItems);
    CutFeasible(gs, cfg, maxItems);
    SelectedCount(gs, pick);
    FormatsSplit(gs, pick);
    assert Bounded(Items, cfg) && Bounded(Stories, cfg) && Bounded(Notes, cfg);
    assert Tally(gs, pick, Stories) <= Limit(Stories, cfg, maxItems) && Tally(gs, pick, Notes) <= Limit(Notes, cfg, maxItems);
    assert Tally(gs, pick, Items) <= Limit(Items, cfg, maxItems);
  }

  lemma {:induction false} FormatsSplit(gs: seq<Gated>, pick: seq<bool>)
    requires |pick| == |gs|
    ensures Tally(gs, pick, Items) == Tally(gs, pick, Stories) + Tally(gs, pick, Notes)
  {
    if gs != [] {
      FormatsSplit(gs[..|gs| - 1], pick[..|gs| - 1]);
    }
  }

  // ── Priorities ──

  /** Decay grows with age. */
  ghost predicate StrictlyDecreasing(half: (real, real) -> real) {
    forall x, y, h {:trigger half(x, h), half(y, h)} | 0.0 <= x < y && h > 0.0 :: half(x, h) > half(y, h)
  }

  /** No severity, no thread term, never shown: priority is base relevance times recency. */
  ghost predicate Plain(c: Candidate) {
    (c.maxSeverity == None || c.maxSeverity == Some(0)) && c.relevance == 0.0 && c.lastShown == None
  }

  lemma Product(b: real, x: real, y: real)
    requires x > y
    ensures b > 0.0 ==> b * x > b * y
    ensures b < 0.0 ==> b * x < b * y
    ensures b == 0.0 ==> b * x == b * y == 0.0
  {
    if b > 0.0 {
      assert b * (x - y) > 0.0;
    } else if b < 0.0 {
      assert b * (x - y) < 0.0;
    }
  }

  lemma Vanishes(w: real, d: real)
    ensures w * 0.0 * d == 0.0 && 0.0 * d == 0.0
  {
    assert w * 0.0 == 0.0;
  }

  lemma PlainPriority(c: Candidate, cfg: Config, half: (real, real) -> real, now: Time)
    requires Plain(c)
    ensures Pass(c, cfg, half, now).priority == BaseRelevance(c, cfg) * Decay(half, now, c.lastEventTime, cfg.recencyHalfLife)
  {
    Vanishes(cfg.severityWeight, Decay(half, now, c.lastEventTime, cfg.salienceHalfLife));
    Vanishes(0.0, Decay(half, now, c.lastEventTime, cfg.threadHalfLife));
  }

  lemma OlderDecaysMore(half: (real, real) -> real, now: Time, newer: Time, older: Time, halfLife: real)
    requires StrictlyDecreasing(half) && halfLife > 0.0 && AgeDays(now, newer) < AgeDays(now, older)
    ensures Decay(half, now, newer, halfLife) > Decay(half, now, older, halfLife)
  {
  }

  /**
   * Between items never shown, with no severity hint, no thread term and equal base relevance, the ranking is
   * recency order exactly when the base is not negative: below zero, decay lifts the older item past the newer one.
   */
  lemma RecencyOrderIff(newer: Candidate, older: Candidate, cfg: Config, half: (real, real) -> real, now: Time)
    requires Plain(newer) && Plain(older) && BaseRelevance(newer, cfg) == BaseRelevance(older, cfg)
    requires StrictlyDecreasing(half) && cfg.recencyHalfLife > 0.0
    requires AgeDays(now, newer.lastEventTime) < AgeDays(now, older.lastEventTime)
    ensures Outranks(Pass(newer, cfg, half, now), Pass(older, cfg, half, now)) <==> BaseRelevance(newer, cfg) >= 0.0
  {
    PlainPriority(newer, cfg, half, now);
    PlainPriority(older, cfg, half, now);
    OlderDecaysMore(half, now, newer.lastEventTime, older.lastEventTime, cfg.recencyHalfLife);
    ByDecay(Pass(newer, cfg, half, now), Pass(older, cfg, half, now), BaseRelevance(newer, cfg),
            Decay(half, now, newer.lastEventTime, cfg.recencyHalfLife), Decay(half, now, older.lastEventTime, cfg.recencyHalfLife));
  }

  lemma ByDecay(x: Gated, y: Gated, base: real, recent: real, faded: real)
    requires x.priority == base * recent && y.priority == base * faded && recent > faded && x.lastEventTime > y.lastEventTime
    ensures Outranks(x, y) <==> base >= 0.0
  {
    Product(base, recent, faded);
  }

  // ── The whole ranking ──

  lemma {:induction false} GatedPass(cs: seq<Candidate>, cfg: Config, half: (real, real) -> real, now: Time, displayFloor: Time, c: Candidate)
    requires PassesGate(c, cs, cfg, displayFloor)
    ensures Pass(c, cfg, half, now) in Passed(cs, cfg, half, now, displayFloor)
  {
    var front, last := cs[..|cs| - 1], cs[|cs| - 1];
    assert cs == front + [last];
    if c != last {
      GatedPass(front, cfg, half, now, displayFloor, c);
    }
  }

  /** The newer first, then the smaller id. */
  predicate MoreRecent(x: Gated, y: Gated) {
    x.lastEventTime > y.lastEventTime || (x.lastEventTime == y.lastEventTime && x.id <= y.id)
  }

  /** Everything past the gate is plain and of the one base. */
  ghost predicate PlainGate(cs: seq<Candidate>, cfg: Config, displayFloor: Time, base: real) {
    forall c | PassesGate(c, cs, cfg, displayFloor) :: Plain(c) && BaseRelevance(c, cfg) == base
  }

  ghost predicate OneAge(cs: seq<Candidate>, cfg: Config, now: Time, displayFloor: Time) {
    forall c, d | PassesGate(c, cs, cfg, displayFloor) && PassesGate(d, cs, cfg, displayFloor) ::
      AgeDays(now, c.lastEventTime) == AgeDays(now, d.lastEventTime)
  }

  lemma AgesFollow(now: Time, newer: Time, older: Time)
    requires newer >= older
    ensures AgeDays(now, newer) <= AgeDays(now, older)
  {
    if newer < now {
      WholeSeconds(now - newer, now - older);
      InDays((now - newer) / 1_000_000, (now - older) / 1_000_000);
    }
  }

  lemma OlderNeverOutranks(older: Candidate, newer: Candidate, cfg: Config, half: (real, real) -> real, now: Time)
    requires Plain(older) && Plain(newer) && BaseRelevance(older, cfg) == BaseRelevance(newer, cfg)
    requires StrictlyDecreasing(half) && cfg.recencyHalfLife > 0.0 && older.lastEventTime < newer.lastEventTime
    requires BaseRelevance(older, cfg) >= 0.0 || AgeDays(now, older.lastEventTime) == AgeDays(now, newer.lastEventTime)
    ensures !Outranks(Pass(older, cfg, half, now), Pass(newer, cfg, half, now))
  {
    AgesFollow(now, newer.lastEventTime, older.lastEventTime);
    if AgeDays(now, newer.lastEventTime) < AgeDays(now, older.lastEventTime) {
      RecencyOrderIff(newer, older, cfg, half, now);
    } else {
      PlainPriority(older, cfg, half, now);
      PlainPriority(newer, cfg, half, now);
    }
  }

  lemma PlainOutranks(c: Candidate, d: Candidate, cfg: Config, half: (real, real) -> real, now: Time)
    requires Plain(c) && Plain(d) && BaseRelevance(c, cfg) == BaseRelevance(d, cfg)
    requires StrictlyDecreasing(half) && cfg.recencyHalfLife > 0.0
    requires BaseRelevance(c, cfg) >= 0.0 || AgeDays(now, c.lastEventTime) == AgeDays(now, d.lastEventTime)
    requires Outranks(Pass(c, cfg, half, now), Pass(d, cfg, half, now))
    ensures MoreRecent(Pass(c, cfg, half, now), Pass(d, cfg, half, now))
  {
    if c.lastEventTime < d.lastEventTime {
      OlderNeverOutranks(c, d, cfg, half, now);
    } else if c.lastEventTime == d.lastEventTime {
      PlainPriority(c, cfg, half, now);
      PlainPriority(d, cfg, half, now);
    }
  }

  lemma RecentWhenNonnegative(cs: seq<Candidate>, cfg: Config, half: (real, real) -> real, now: Time, displayFloor: Time, base: real)
    requires PlainGate(cs, cfg, displayFloor, base) && StrictlyDecreasing(half) && cfg.recencyHalfLife > 0.0
    requires base >= 0.0 || OneAge(cs, cfg, now, displayFloor)
    ensures Sorted(MoreRecent, Ranked(cs, cfg, half, now, displayFloor))
  {
    var ranked := Ranked(cs, cfg, half, now, displayFloor);
    RankedDescends(cs, cfg, half, now, displayFloor);
    SortMembers(Outranks, Passed(cs, cfg, half, now, displayFloor));
    forall i, j | 0 <= i < j < |ranked| ensures MoreRecent(ranked[i], ranked[j]) {
      assert ranked[i] in ranked && ranked[j] in ranked;
      var c := GatedFrom(cs, cfg, half, now, displayFloor, ranked[i]);
      var d := GatedFrom(cs, cfg, half, now, displayFloor, ranked[j]);
      PlainOutranks(c, d, cfg, half, now);
    }
  }

  lemma ListedLater<T(!new)>(le: (T, T) -> bool, s: seq<T>, i: nat, j: nat)
    requires Sorted(le, s) && i < |s| && j < |s| && i != j && !le(s[i], s[j])
    ensures j < i
  {
  }

  lemma OlderFirstWhenNegative(cs: seq<Candidate>, cfg: Config, half: (real, real) -> real, now: Time, displayFloor: Time,
                               newer: Candidate, older: Candidate)
    requires PassesGate(newer, cs, cfg, displayFloor) && PassesGate(older, cs, cfg, displayFloor) && Plain(newer) && Plain(older)
    requires BaseRelevance(newer, cfg) == BaseRelevance(older, cfg) < 0.0 && StrictlyDecreasing(half) && cfg.recencyHalfLife > 0.0
    requires AgeDays(now, newer.lastEventTime) < AgeDays(now, older.lastEventTime)
    ensures !Sorted(MoreRecent, Ranked(cs, cfg, half, now, displayFloor))
  {
    var ranked := Ranked(cs, cfg, half, now, displayFloor);
    RankedDescends(cs, cfg, half, now, displayFloor);
    SortMembers(Outranks, Passed(cs, cfg, half, now, displayFloor));
    GatedPass(cs, cfg, half, now, displayFloor, newer);
    GatedPass(cs, cfg, half, now, displayFloor, older);
    RecencyOrderIff(newer, older, cfg, half, now);
    AgesOrder(now, newer.lastEventTime, older.lastEventTime);
    var i :| 0 <= i < |ranked| && ranked[i] == Pass(newer, cfg, half, now);
    var j :| 0 <= j < |ranked| && ranked[j] == Pass(older, cfg, half, now);
    ListedLater(Outranks, ranked, i, j);
    assert !MoreRecent(ranked[j], ranked[i]);
  }

  /**
   * Where everything past the gate is plain and of one base, the ranking as a whole is recency order, the newest
   * first and ties by id, exactly when the base is not negative or all those items are of one age.
   */
  lemma {:induction false} RankingIsRecencyIff(cs: seq<Candidate>, cfg: Config, half: (real, real) -> real, now: Time, displayFloor: Time, base: real)
    requires PlainGate(cs, cfg, displayFloor, base) && StrictlyDecreasing(half) && cfg.recencyHalfLife > 0.0
    ensures multiset(Ranked(cs, cfg, half, now, displayFloor)) == multiset(Passed(cs, cfg, half, now, displayFloor))
    ensures Sorted(MoreRecent, Ranked(cs, cfg, half, now, displayFloor)) <==> base >= 0.0 || OneAge(cs, cfg, now, displayFloor)
  {
    if base >= 0.0 || OneAge(cs, cfg, now, displayFloor) {
      RecentWhenNonnegative(cs, cfg, half, now, displayFloor, base);
    } else {
      var c, d :| PassesGate(c, cs, cfg, displayFloor) && PassesGate(d, cs, cfg, displayFloor)
                  && AgeDays(now, c.lastEventTime) != AgeDays(now, d.lastEventTime);
      if AgeDays(now, c.lastEventTime) < AgeDays(now, d.lastEventTime) {
        OlderFirstWhenNegative(cs, cfg, half, now, displayFloor, c, d);
      } else {
        OlderFirstWhenNegative(cs, cfg, half, now, displayFloor, d, c);
      }
    }
  }

  // ── Where recency order ends ──

  const DAY: int := 86_400_000_000

  /** Settings whose scope bonus outweighs the base, with a floor that lets such items through. */
  const AVERSE := DEFAULT.(scopeBonus := -2.0, relevanceFloor := -2.0)

  function PrivateItem(id: Uuid, lastEventTime: Time): Candidate {
    Candidate(id, lastEventTime, 0.0, 1, 1, Longform, None, true, None, None)
  }

  /** A negative base turns recency order upside down for items the gate lets through. */
  lemma NegativeBaseInverts(half: (real, real) -> real)
    requires StrictlyDecreasing(half)
    ensures var newer, older := PrivateItem(1, 3 * DAY), PrivateItem(2, 0);
      && DropReason(newer, AVERSE, 0) == None && DropReason(older, AVERSE, 0) == None
      && !Outranks(Pass(newer, AVERSE, half, 3 * DAY), Pass(older, AVERSE, half, 3 * DAY))
  {
    assert AgeDays(3 * DAY, 3 * DAY) == 0.0 && AgeDays(3 * DAY, 0) == 3.0;
    RecencyOrderIff(PrivateItem(1, 3 * DAY), PrivateItem(2, 0), AVERSE, half, 3 * DAY);
  }

  function SeverityOf(c: Candidate): real {
    if c.maxSeverity.Some? then c.maxSeverity.value as real else 0.0
  }

  /** What a severity hint adds to a priority. */
  function Salience(c: Candidate, cfg: Config, half: (real, real) -> real, now: Time): real {
    cfg.severityWeight * SeverityOf(c) * Decay(half, now, c.lastEventTime, cfg.salienceHalfLife)
  }

  function Recency(c: Candidate, cfg: Config, half: (real, real) -> real, now: Time): real {
    BaseRelevance(c, cfg) * Decay(half, now, c.lastEventTime, cfg.recencyHalfLife)
  }

  lemma PriorityParts(c: Candidate, cfg: Config, half: (real, real) -> real, now: Time)
    requires c.relevance == 0.0 && c.lastShown == None
    ensures Pass(c, cfg, half, now).priority == Recency(c, cfg, half, now) + Salience(c, cfg, half, now)
  {
    Vanishes(0.0, Decay(half, now, c.lastEventTime, cfg.threadHalfLife));
  }

  /** With severity hints, the newer item ranks first exactly when what it gains in recency covers what the older gains in salience. */
  lemma SalienceOrderIff(newer: Candidate, older: Candidate, cfg: Config, half: (real, real) -> real, now: Time)
    requires newer.relevance == 0.0 && older.relevance == 0.0 && newer.lastShown == None && older.lastShown == None
    requires AgeDays(now, newer.lastEventTime) < AgeDays(now, older.lastEventTime)
    ensures Outranks(Pass(newer, cfg, half, now), Pass(older, cfg, half, now))
       <==> Recency(newer, cfg, half, now) - Recency(older, cfg, half, now) >= Salience(older, cfg, half, now) - Salience(newer, cfg, half, now)
  {
    PriorityParts(newer, cfg, half, now);
    PriorityParts(older, cfg, half, now);
  }

  function PublicItem(id: Uuid, lastEventTime: Time, severity: Option<int>, lastShown: Option<Shown>): Candidate {
    Candidate(id, lastEventTime, 0.0, 1, 1, Longform, severity, false, lastShown, None)
  }

  /** Under the default settings a severity hint of ten lifts a three-day-old item over a new one of the same base. */
  lemma GraverOlderOutranks(half: (real, real) -> real)
    requires StrictlyDecreasing(half) && half(0.0, 3.0) == 1.0 && half(3.0, 3.0) == 0.5 && half(7.0, 7.0) == 0.5
    ensures var newer, older := PublicItem(1, 3 * DAY, None, None), PublicItem(2, 0, Some(10), None);
      && DropReason(newer, DEFAULT, 0) == None && DropReason(older, DEFAULT, 0) == None
      && !Outranks(Pass(newer, DEFAULT, half, 3 * DAY), Pass(older, DEFAULT, half, 3 * DAY))
  {
    var newer, older := PublicItem(1, 3 * DAY, None, None), PublicItem(2, 0, Some(10), None);
    assert AgeDays(3 * DAY, 3 * DAY) == 0.0 && AgeDays(3 * DAY, 0) == 3.0;
    assert half(3.0, 7.0) > half(7.0, 7.0);
    PriorityParts(newer, DEFAULT, half, 3 * DAY);
    PriorityParts(older, DEFAULT, half, 3 * DAY);
    assert Salience(older, DEFAULT, half, 3 * DAY) == half(3.0, 7.0);
    assert Salience(newer, DEFAULT, half, 3 * DAY) == 0.0;
  }

  /** A re-surfaced newer item ranks before an older fresh one of the same positive base exactly when its damped recency reaches the other's. */
  lemma ResurfacedOrderIff(newer: Candidate, older: Candidate, cfg: Config, half: (real, real) -> real, now: Time)
    requires Plain(newer.(lastShown := None)) && Stale(newer) && Plain(older)
    requires BaseRelevance(newer, cfg) == BaseRelevance(older, cfg) > 0.0
    requires AgeDays(now, newer.lastEventTime) < AgeDays(now, older.lastEventTime)
    ensures Outranks(Pass(newer, cfg, half, now), Pass(older, cfg, half, now)) <==>
      Decay(half, now, newer.lastEventTime, cfg.recencyHalfLife) * cfg.resurfacePenalty >= Decay(half, now, older.lastEventTime, cfg.recencyHalfLife)
  {
    DampedPriority(newer, cfg, half, now);
    PlainPriority(older, cfg, half, now);
    AgesOrder(now, newer.lastEventTime, older.lastEventTime);
    ByDampedDecay(Pass(newer, cfg, half, now), Pass(older, cfg, half, now), BaseRelevance(newer, cfg),
                  Decay(half, now, newer.lastEventTime, cfg.recencyHalfLife), cfg.resurfacePenalty,
                  Decay(half, now, older.lastEventTime, cfg.recencyHalfLife));
  }

  lemma AgesOrder(now: Time, newer: Time, older: Time)
    requires AgeDays(now, newer) < AgeDays(now, older)
    ensures newer > older
  {
    if newer <= older && older < now {
      WholeSeconds(now - older, now - newer);
      InDays((now - older) / 1_000_000, (now - newer) / 1_000_000);
    }
  }

  lemma WholeSeconds(a: int, b: int)
    requires a <= b
    ensures a / 1_000_000 <= b / 1_000_000
  {
  }

  lemma InDays(a: int, b: int)
    requires a <= b
    ensures a as real / 86_400.0 <= b as real / 86_400.0
  {
  }

  lemma DampedPriority(c: Candidate, cfg: Config, half: (real, real) -> real, now: Time)
    requires Plain(c.(lastShown := None)) && Stale(c)
    ensures Pass(c, cfg, half, now).priority
         == BaseRelevance(c, cfg) * Decay(half, now, c.lastEventTime, cfg.recencyHalfLife) * cfg.resurfacePenalty
  {
    PlainPriority(c.(lastShown := None), cfg, half, now);
  }

  lemma ByDampedDecay(x: Gated, y: Gated, base: real, recent: real, f: real, faded: real)
    requires x.priority == base * recent * f && y.priority == base * faded && base > 0.0 && x.lastEventTime > y.lastEventTime
    ensures Outranks(x, y) <==> recent * f >= faded
  {
    Rescaled(base, recent, f, faded);
  }

  lemma Rescaled(b: real, x: real, f: real, y: real)
    requires b > 0.0
    ensures (b * x) * f >= b * y <==> x * f >= y
  {
    assert (b * x) * f == b * (x * f);
    if x * f < y {
      Product(b, y, x * f);
    } else if x * f > y {
      Product(b, x * f, y);
    }
  }

  /** Under the default settings a new item shown before sinks below a three-day-old one. */
  lemma ShownNewerSinks(half: (real, real) -> real)
    requires StrictlyDecreasing(half) && half(0.0, 3.0) == 1.0 && half(3.0, 3.0) == 0.5
    ensures var newer, older := PublicItem(1, 3 * DAY, None, Some(Shown(3 * DAY, Story))), PublicItem(2, 0, None, None);
      && DropReason(newer, DEFAULT, 0) == None && DropReason(older, DEFAULT, 0) == None
      && !Outranks(Pass(newer, DEFAULT, half, 3 * DAY), Pass(older, DEFAULT, half, 3 * DAY))
  {
    assert AgeDays(3 * DAY, 3 * DAY) == 0.0 && AgeDays(3 * DAY, 0) == 3.0;
    ResurfacedOrderIff(PublicItem(1, 3 * DAY, None, Some(Shown(3 * DAY, Story))), PublicItem(2, 0, None, None), DEFAULT, half, 3 * DAY);
  }

  /** The same candidate as if it had never been shown. */
  function Unshown(c: Candidate): Candidate {
    c.(lastShown := None)
  }

  lemma Scaled(p: real, f: real)
    requires 0.0 <= f < 1.0
    ensures p * f < p <==> p > 0.0
  {
    if p > 0.0 {
      assert p * f < p * 1.0;
    } else if p < 0.0 {
      assert p * f > p * 1.0;
    }
  }

  /** Re-surface damping sinks a stale story exactly when its priority is positive; a negative one rises. */
  lemma DampingSinksIff(c: Candidate, cfg: Config, half: (real, real) -> real, now: Time)
    requires Stale(c) && 0.0 <= cfg.resurfacePenalty < 1.0
    ensures Pass(c, cfg, half, now).priority < Pass(Unshown(c), cfg, half, now).priority <==> Priority(c, cfg, half, now) > 0.0
  {
    SamePriority(c, cfg, half, now);
    Damped(Pass(c, cfg, half, now), Pass(Unshown(c), cfg, half, now), Priority(c, cfg, half, now), cfg.resurfacePenalty);
  }

  lemma SamePriority(c: Candidate, cfg: Config, half: (real, real) -> real, now: Time)
    ensures Priority(Unshown(c), cfg, half, now) == Priority(c, cfg, half, now)
  {
  }

  lemma Damped(x: Gated, y: Gated, p: real, f: real)
    requires x.priority == p * f && y.priority == p && 0.0 <= f < 1.0
    ensures x.priority < y.priority <==> p > 0.0
  {
    Scaled(p, f);
  }

  /** A three-week-old story on a disliked thread, already shown, still at the relevance floor. */
  const DISLIKED := Candidate(1, 0, -1.0, 1, 1, Longform, None, false, Some(Shown(0, Story)), Some(4))

  /** Under the default settings that story passes the gate, has a negative priority, and damping lifts it. */
  lemma DampingLiftsDisliked(half: (real, real) -> real)
    requires half(21.0, 3.0) == 1.0 / 128.0 && half(21.0, 21.0) == 0.5
    ensures DropReason(DISLIKED, DEFAULT, 0) == None && Stale(DISLIKED)
    ensures Pass(DISLIKED, DEFAULT, half, 21 * DAY).priority > Pass(Unshown(DISLIKED), DEFAULT, half, 21 * DAY).priority
  {
    assert AgeDays(21 * DAY, 0) == 21.0;
    assert Priority(DISLIKED, DEFAULT, half, 21 * DAY) == 1.0 / 128.0 - 0.5;
  }
}
