/** From components to stories: each member's reason, stable ids carried forward, and the cross-source rollups. */
module LinkForwarding {
  import opened Ordering
  import opened LinkModel
  import opened LinkComponents

  // ── Member reasons ──

  /** A strong edge outranks a weak one; then the higher score wins. */
  predicate Beats(e: Edge, best: Option<Edge>) {
    best.None? || (e.strong && !best.value.strong) || (e.strong == best.value.strong && e.score > best.value.score)
  }

  /** The edge lies inside one story and touches `i`. */
  ghost predicate Explains(e: Edge, lab: seq<nat>, i: nat)
    requires e.a < |lab| && e.b < |lab|
  {
    lab[e.a] == lab[e.b] && (i == e.a || i == e.b)
  }

  ghost function BestEdge(es: seq<Edge>, lab: seq<nat>, i: nat): Option<Edge>
    requires InRange(es, |lab|)
  {
    if es == [] then None
    else
      var best, e := BestEdge(es[..|es| - 1], lab, i), es[|es| - 1];
      if Explains(e, lab, i) && Beats(e, best) then Some(e) else best
  }

  ghost function Reason(es: seq<Edge>, lab: seq<nat>, i: nat): Option<string>
    requires InRange(es, |lab|)
  {
    match BestEdge(es, lab, i)
    case Some(e) => Some(e.reason)
    case None => None
  }

  ghost function Reasons(es: seq<Edge>, lab: seq<nat>): seq<Option<string>>
    requires InRange(es, |lab|)
  {
    seq(|lab|, i requires 0 <= i < |lab| => Reason(es, lab, i))
  }

  lemma {:induction false} BestEdgeMeaning(es: seq<Edge>, lab: seq<nat>, i: nat)
    requires InRange(es, |lab|)
    ensures BestEdge(es, lab, i).None? <==> forall e | e in es :: !Explains(e, lab, i)
    ensures BestEdge(es, lab, i).Some? ==> BestEdge(es, lab, i).value in es && Explains(BestEdge(es, lab, i).value, lab, i)
    ensures forall e | e in es && Explains(e, lab, i) :: !Beats(e, BestEdge(es, lab, i))
  {
    if es != [] {
      var front, last := es[..|es| - 1], es[|es| - 1];
      assert es == front + [last];
      BestEdgeMeaning(front, lab, i);
    }
  }

  lemma RootOfMember(n: nat, comps: map<nat, seq<nat>>, roots: seq<nat>, lab: seq<nat>, r: nat, i: nat)
    requires |lab| == n && ClassRoots(roots, lab) && Groups(comps, roots, lab, n) && r in comps && i < n
    ensures i in comps[r] <==> roots[i] == r
  {
    assert roots[r] == r;
    assert lab[roots[i]] == lab[i];
  }

  /** Points every member of a component at its root. */
  method FileUnder(was: seq<nat>, ms: seq<nat>, r: nat) returns (root: seq<nat>)
    requires forall i | i in ms :: i < |was|
    ensures |root| == |was| && forall i | 0 <= i < |was| :: root[i] == if i in ms then r else was[i]
  {
    root := was;
    for k := 0 to |ms|
      invariant |root| == |was|
      invariant forall i | 0 <= i < |was| :: root[i] == if i in ms[..k] then r else was[i]
    {
      assert ms[..k + 1] == ms[..k] + [ms[k]];
      assert ms[k] in ms;
      root := root[ms[k] := r];
    }
    assert ms[..|ms|] == ms;
  }

  method ComponentRoots(n: nat, comps: map<nat, seq<nat>>, ghost roots: seq<nat>, ghost lab: seq<nat>) returns (root: seq<nat>)
    requires |lab| == n && ClassRoots(roots, lab) && Groups(comps, roots, lab, n)
    ensures root == roots
  {
    root := seq(n, _ => 0);
    var rest := comps.Keys;
    while rest != {}
      invariant rest <= comps.Keys && |root| == n
      invariant forall i | 0 <= i < n && roots[i] !in rest :: root[i] == roots[i]
      decreases rest
    {
      var r :| r in rest;
      forall i | i in comps[r] ensures i < n {
        assert comps[r] == Members(lab, lab[r], n);
      }
      root := FileUnder(root, comps[r], r);
      forall i: nat | i < n ensures i in comps[r] <==> roots[i] == r {
        RootOfMember(n, comps, roots, lab, r, i);
      }
      rest := rest - {r};
    }
  }

  method MemberReasons(cs: seq<Cluster>, es: seq<Edge>, comps: map<nat, seq<nat>>, ghost roots: seq<nat>, ghost lab: seq<nat>)
    returns (reasons: seq<Option<string>>)
    requires |lab| == |cs| && InRange(es, |cs|) && ClassRoots(roots, lab) && Groups(comps, roots, lab, |lab|)
    ensures reasons == Reasons(es, lab)
  {
    var root := ComponentRoots(|cs|, comps, roots, lab);
    var best: seq<Option<(bool, real)>> := seq(|cs|, _ => None);
    reasons := seq(|cs|, _ => None);
    for k := 0 to |es|
      invariant AllBest(best, reasons, es[..k], lab)
    {
      assert es[k] in es;
      var e := es[k];
      assert root[e.a] == root[e.b] <==> lab[e.a] == lab[e.b] by {
        assert lab[root[e.a]] == lab[e.a] && lab[root[e.b]] == lab[e.b];
      }
      ghost var best0, reasons0 := best, reasons;
      if root[e.a] == root[e.b] {
        if RankBeats(e, best[e.a]) {
          best, reasons := best[e.a := Some((e.strong, e.score))], reasons[e.a := Some(e.reason)];
        }
        if RankBeats(e, best[e.b]) {
          best, reasons := best[e.b := Some((e.strong, e.score))], reasons[e.b := Some(e.reason)];
        }
      }
      BestStep(best0, reasons0, best, reasons, es, k, lab);
    }
    assert es[..|es|] == es;
  }

  ghost predicate AllBest(best: seq<Option<(bool, real)>>, reasons: seq<Option<string>>, es: seq<Edge>, lab: seq<nat>) {
    && |best| == |reasons| == |lab| && InRange(es, |lab|)
    && forall i | 0 <= i < |lab| :: BestIs(best[i], reasons[i], BestEdge(es, lab, i))
  }

  lemma BestStep(best0: seq<Option<(bool, real)>>, reasons0: seq<Option<string>>, best: seq<Option<(bool, real)>>,
                 reasons: seq<Option<string>>, es: seq<Edge>, k: nat, lab: seq<nat>)
    requires k < |es| && InRange(es, |lab|) && AllBest(best0, reasons0, es[..k], lab) && |best| == |reasons| == |lab|
    requires var e := es[k]; forall i | 0 <= i < |lab| ::
      if e.a < |lab| && e.b < |lab| && Explains(e, lab, i) && RankBeats(e, best0[i])
      then best[i] == Some((e.strong, e.score)) && reasons[i] == Some(e.reason)
      else best[i] == best0[i] && reasons[i] == reasons0[i]
    ensures AllBest(best, reasons, es[..k + 1], lab)
  {
    assert es[k] in es;
    assert es[..k + 1][..k] == es[..k];
    forall i | 0 <= i < |lab| ensures BestIs(best[i], reasons[i], BestEdge(es[..k + 1], lab, i)) {
      assert BestIs(best0[i], reasons0[i], BestEdge(es[..k], lab, i));
    }
  }

  predicate RankBeats(e: Edge, best: Option<(bool, real)>) {
    best.None? || (e.strong && !best.value.0) || (e.strong == best.value.0 && e.score > best.value.1)
  }

  ghost predicate BestIs(best: Option<(bool, real)>, reason: Option<string>, e: Option<Edge>) {
    match e
    case Some(x) => best == Some((x.strong, x.score)) && reason == Some(x.reason)
    case None => best == None && reason == None
  }

  // ── Ordered components ──

  /** A component with its sort key, the smallest id among its clusters. */
  datatype Keyed = Keyed(key: Uuid, members: seq<nat>)

  predicate KeyLe(x: Keyed, y: Keyed) {
    x.key <= y.key
  }

  function MinId(cs: seq<Cluster>, ms: seq<nat>): Uuid
    requires ms != [] && forall i | i in ms :: i < |cs|
  {
    assert ms[0] in ms && forall i | i in ms[1..] :: i in ms;
    if |ms| == 1 then cs[ms[0]].id
    else
      var rest := MinId(cs, ms[1..]);
      if cs[ms[0]].id <= rest then cs[ms[0]].id else rest
  }

  lemma {:induction false} MinIdMeaning(cs: seq<Cluster>, ms: seq<nat>)
    requires ms != [] && forall i | i in ms :: i < |cs|
    ensures exists i | i in ms :: cs[i].id == MinId(cs, ms)
    ensures forall i | i in ms :: MinId(cs, ms) <= cs[i].id
  {
    assert ms == [ms[0]] + ms[1..] && ms[0] in ms && forall i | i in ms[1..] :: i in ms;
    if |ms| > 1 {
      MinIdMeaning(cs, ms[1..]);
    }
  }

  /** The whole class of `r`. */
  ghost function Class(lab: seq<nat>, r: nat): (ms: seq<nat>)
    requires r < |lab|
    ensures r in ms && forall i: nat :: i in ms <==> i < |lab| && lab[i] == lab[r]
  {
    Members(lab, lab[r], |lab|)
  }

  ghost function ClassKey(cs: seq<Cluster>, lab: seq<nat>, r: nat): Keyed
    requires |lab| == |cs| && r < |lab|
  {
    Keyed(MinId(cs, Class(lab, r)), Class(lab, r))
  }

  /** The classes led by their least members below `k`. */
  ghost function Classes(cs: seq<Cluster>, lab: seq<nat>, k: nat): (ks: seq<Keyed>)
    requires |lab| == |cs| && k <= |lab|
  {
    if k == 0 then []
    else Classes(cs, lab, k - 1) + if lab[k - 1] == k - 1 then [ClassKey(cs, lab, k - 1)] else []
  }

  /** The stories' member lists, in order of their smallest cluster id. */
  ghost function OrderedClasses(cs: seq<Cluster>, lab: seq<nat>): seq<Keyed>
    requires |lab| == |cs|
  {
    Sort(KeyLe, Classes(cs, lab, |lab|))
  }

  lemma SameClassKey(cs: seq<Cluster>, lab: seq<nat>, r: nat, s: nat)
    requires |lab| == |cs| && r < |lab| && s < |lab| && Candidates(cs)
    ensures lab[r] == lab[s] <==> ClassKey(cs, lab, r) == ClassKey(cs, lab, s)
    ensures lab[r] == lab[s] <==> ClassKey(cs, lab, r).key == ClassKey(cs, lab, s).key
  {
    MinIdMeaning(cs, Class(lab, r));
    MinIdMeaning(cs, Class(lab, s));
    if ClassKey(cs, lab, r).key == ClassKey(cs, lab, s).key {
      var i :| i in Class(lab, r) && cs[i].id == ClassKey(cs, lab, r).key;
      var j :| j in Class(lab, s) && cs[j].id == ClassKey(cs, lab, s).key;
      UniqueId(cs, i, j);
    }
  }

  /** `x` is the class of some leader below `k`. */
  ghost predicate IsClass(cs: seq<Cluster>, lab: seq<nat>, k: nat, x: Keyed)
    requires |lab| == |cs| && k <= |lab|
  {
    exists r: nat :: r < k && lab[r] == r && x == ClassKey(cs, lab, r)
  }

  lemma IsClassNext(cs: seq<Cluster>, lab: seq<nat>, k: nat, x: Keyed)
    requires |lab| == |cs| && k < |lab|
    ensures IsClass(cs, lab, k + 1, x) <==> IsClass(cs, lab, k, x) || (lab[k] == k && x == ClassKey(cs, lab, k))
  {
    if r: nat :| r < k + 1 && lab[r] == r && x == ClassKey(cs, lab, r) {
      assert r < k || r == k;
    }
  }

  lemma NewClass(cs: seq<Cluster>, lab: seq<nat>, k: nat)
    requires |lab| == |cs| && k < |lab| && Candidates(cs) && lab[k] == k
    ensures !IsClass(cs, lab, k, ClassKey(cs, lab, k))
  {
    forall r: nat | r < k && lab[r] == r ensures ClassKey(cs, lab, k) != ClassKey(cs, lab, r) {
      SameClassKey(cs, lab, k, r);
    }
  }

  lemma {:induction false} ClassesMeaning(cs: seq<Cluster>, lab: seq<nat>, k: nat)
    requires |lab| == |cs| && k <= |lab| && Candidates(cs)
    ensures Distinct(Classes(cs, lab, k))
    ensures forall x :: x in Classes(cs, lab, k) <==> IsClass(cs, lab, k, x)
  {
    if k > 0 {
      ClassesMeaning(cs, lab, k - 1);
      forall x ensures x in Classes(cs, lab, k) <==> IsClass(cs, lab, k, x) {
        IsClassNext(cs, lab, k - 1, x);
      }
      if lab[k - 1] == k - 1 {
        NewClass(cs, lab, k - 1);
      }
    }
  }

  /** `x` is the component filed under some root below `k`. */
  ghost predicate InComps(cs: seq<Cluster>, lab: seq<nat>, comps: map<nat, seq<nat>>, k: nat, x: Keyed)
    requires |lab| == |cs| && k <= |lab|
  {
    exists s: nat :: s < k && s in comps && x == ClassKey(cs, lab, s)
  }

  lemma InCompsNext(cs: seq<Cluster>, lab: seq<nat>, comps: map<nat, seq<nat>>, k: nat, x: Keyed)
    requires |lab| == |cs| && k < |lab|
    ensures InComps(cs, lab, comps, k + 1, x) <==> InComps(cs, lab, comps, k, x) || (k in comps && x == ClassKey(cs, lab, k))
  {
    if s: nat :| s < k + 1 && s in comps && x == ClassKey(cs, lab, s) {
      assert s < k || s == k;
    }
  }

  lemma NewComponent(cs: seq<Cluster>, lab: seq<nat>, comps: map<nat, seq<nat>>, roots: seq<nat>, k: nat)
    requires |lab| == |cs| && k < |lab| && Candidates(cs) && k in comps
    requires ClassRoots(roots, lab) && Groups(comps, roots, lab, |lab|)
    ensures !InComps(cs, lab, comps, k, ClassKey(cs, lab, k))
  {
    forall s: nat | s < k && s in comps ensures ClassKey(cs, lab, k) != ClassKey(cs, lab, s) {
      SameClassKey(cs, lab, k, s);
      assert roots[s] == s && roots[k] == k;
    }
  }

  lemma {:induction false} ListedAreClasses(cs: seq<Cluster>, comps: map<nat, seq<nat>>, roots: seq<nat>, lab: seq<nat>, listed: seq<Keyed>)
    requires |lab| == |cs| && Candidates(cs) && Connectivity.Canonical(lab)
    requires ClassRoots(roots, lab) && Groups(comps, roots, lab, |lab|) && Distinct(listed)
    requires forall x :: x in listed <==> InComps(cs, lab, comps, |cs|, x)
    ensures Sort(KeyLe, listed) == OrderedClasses(cs, lab)
  {
    var spec := Classes(cs, lab, |lab|);
    ClassesMeaning(cs, lab, |lab|);
    forall x ensures x in listed <==> x in spec {
      if x in listed {
        var s: nat :| s < |cs| && s in comps && x == ClassKey(cs, lab, s);
        assert lab[lab[s]] == lab[s];
        SameClassKey(cs, lab, s, lab[s]);
      }
      if IsClass(cs, lab, |lab|, x) {
        var r: nat :| r < |lab| && lab[r] == r && x == ClassKey(cs, lab, r);
        SameClassKey(cs, lab, r, roots[r]);
        assert roots[r] in comps;
      }
    }
    DistinctPermuted(listed, spec);
    forall x, y | x in listed && y in listed && KeyLe(x, y) && KeyLe(y, x) ensures x == y {
      var s: nat :| s < |cs| && s in comps && x == ClassKey(cs, lab, s);
      var t: nat :| t < |cs| && t in comps && y == ClassKey(cs, lab, t);
      SameClassKey(cs, lab, s, t);
    }
    SortPermuted(KeyLe, listed, spec);
  }

  /** Lists the components in root order, keyed by smallest cluster id, then sorts them. */
  method OrderComponents(cs: seq<Cluster>, comps: map<nat, seq<nat>>, ghost roots: seq<nat>, ghost lab: seq<nat>)
    returns (ordered: seq<Keyed>)
    requires |lab| == |cs| && Candidates(cs) && Connectivity.Canonical(lab)
    requires ClassRoots(roots, lab) && Groups(comps, roots, lab, |lab|)
    ensures ordered == OrderedClasses(cs, lab)
  {
    var listed: seq<Keyed> := [];
    for r := 0 to |cs|
      invariant forall x :: x in listed <==> InComps(cs, lab, comps, r, x)
      invariant Distinct(listed)
    {
      forall x ensures InComps(cs, lab, comps, r + 1, x) <==> InComps(cs, lab, comps, r, x) || (r in comps && x == ClassKey(cs, lab, r)) {
        InCompsNext(cs, lab, comps, r, x);
      }
      if r in comps {
        NewComponent(cs, lab, comps, roots, r);
        assert comps[r] == Class(lab, r);
        listed := listed + [Keyed(MinId(cs, comps[r]), comps[r])];
      }
    }
    ListedAreClasses(cs, comps, roots, lab, listed);
    ordered := Sort(KeyLe, listed);
  }

  // ── Stable ids ──

  predicate IdLe(x: Uuid, y: Uuid) {
    x <= y
  }

  function Carried(cs: seq<Cluster>, prior: map<Uuid, Uuid>, ms: seq<nat>): (ids: seq<Uuid>)
    requires forall i | i in ms :: i < |cs|
    ensures forall id :: id in ids <==> exists i | i in ms :: cs[i].id in prior && prior[cs[i].id] == id
  {
    if ms == [] then []
    else
      assert ms == [ms[0]] + ms[1..] && ms[0] in ms && forall i | i in ms[1..] :: i in ms;
      var c := cs[ms[0]].id;
      (if c in prior then [prior[c]] else []) + Carried(cs, prior, ms[1..])
  }

  /** The prior story ids a component carries, oldest first. */
  function PriorIds(cs: seq<Cluster>, prior: map<Uuid, Uuid>, ms: seq<nat>): (ids: seq<Uuid>)
    requires forall i | i in ms :: i < |cs|
    ensures forall id :: id in ids <==> exists i | i in ms :: cs[i].id in prior && prior[cs[i].id] == id
  {
    Keys(IdLe, Carried(cs, prior, ms))
  }

  lemma PriorIdsAscending(cs: seq<Cluster>, prior: map<Uuid, Uuid>, ms: seq<nat>)
    requires forall i | i in ms :: i < |cs|
    ensures Ascending(IdLe, PriorIds(cs, prior, ms))
  {
    KeysAscending(IdLe, Carried(cs, prior, ms));
  }

  /** The oldest id not yet claimed. */
  function FirstUnclaimed(ids: seq<Uuid>, claimed: set<Uuid>): (r: Option<Uuid>)
    ensures r.None? <==> forall id | id in ids :: id in claimed
    ensures r.Some? ==> r.value in ids && r.value !in claimed
  {
    if ids == [] then None
    else
      assert ids == [ids[0]] + ids[1..];
      if ids[0] !in claimed then Some(ids[0]) else FirstUnclaimed(ids[1..], claimed)
  }

  /** Each component claims its oldest unclaimed prior id, or the next freshly minted one. */
  function Survivors(carried: seq<seq<Uuid>>, claimed: set<Uuid>, mint: nat -> Uuid, minted: nat): (r: seq<Uuid>)
    ensures |r| == |carried|
  {
    if carried == [] then []
    else
      match FirstUnclaimed(carried[0], claimed)
      case Some(id) => [id] + Survivors(carried[1..], claimed + {id}, mint, minted)
      case None => [mint(minted)] + Survivors(carried[1..], claimed + {mint(minted)}, mint, minted + 1)
  }

  function Absorbed(ids: seq<Uuid>, survivor: Uuid, claimed: set<Uuid>): seq<Merge> {
    if ids == [] then []
    else (if ids[0] != survivor && ids[0] !in claimed then [Merge(ids[0], survivor)] else []) + Absorbed(ids[1..], survivor, claimed)
  }

  lemma {:induction false} AbsorbedMeaning(ids: seq<Uuid>, survivor: Uuid, claimed: set<Uuid>, m: Merge)
    ensures m in Absorbed(ids, survivor, claimed)
       <==> m.survivor == survivor && m.loser in ids && m.loser != survivor && m.loser !in claimed
  {
    if ids != [] {
      assert ids == [ids[0]] + ids[1..];
      AbsorbedMeaning(ids[1..], survivor, claimed, m);
    }
  }

  function Merges(carried: seq<seq<Uuid>>, survivors: seq<Uuid>, claimed: set<Uuid>): seq<Merge>
    requires |carried| == |survivors|
  {
    if carried == [] then []
    else Absorbed(carried[0], survivors[0], claimed) + Merges(carried[1..], survivors[1..], claimed)
  }

  predicate MergeLe(x: Merge, y: Merge) {
    x.loser < y.loser || (x.loser == y.loser && x.survivor <= y.survivor)
  }

  // ── Rollups ──

  function FirstTime(cs: seq<Cluster>, ms: seq<nat>): Time
    requires ms != [] && forall i | i in ms :: i < |cs|
  {
    assert ms[0] in ms && forall i | i in ms[1..] :: i in ms;
    var t := cs[ms[0]].firstEventTime;
    if |ms| == 1 then t else
      var rest := FirstTime(cs, ms[1..]);
      if t <= rest then t else rest
  }

  function LastTime(cs: seq<Cluster>, ms: seq<nat>): Time
    requires ms != [] && forall i | i in ms :: i < |cs|
  {
    assert ms[0] in ms && forall i | i in ms[1..] :: i in ms;
    var t := cs[ms[0]].lastEventTime;
    if |ms| == 1 then t else
      var rest := LastTime(cs, ms[1..]);
      if t >= rest then t else rest
  }

  function TotalEvents(cs: seq<Cluster>, ms: seq<nat>): int
    requires forall i | i in ms :: i < |cs|
  {
    if ms == [] then 0
    else
      assert ms[0] in ms && forall i | i in ms[1..] :: i in ms;
      cs[ms[0]].eventCount + TotalEvents(cs, ms[1..])
  }

  function Sources(cs: seq<Cluster>, ms: seq<nat>): set<SourceKind>
    requires forall i | i in ms :: i < |cs|
  {
    set i | i in ms :: cs[i].source
  }

  function MaxDepth(cs: seq<Cluster>, ms: seq<nat>): ContentKind
    requires ms != [] && forall i | i in ms :: i < |cs|
  {
    assert ms[0] in ms && forall i | i in ms[1..] :: i in ms;
    var d := cs[ms[0]].contentDepth;
    if |ms| == 1 then d else
      var rest := MaxDepth(cs, ms[1..]);
      if DepthLe(rest, d) then d else rest
  }

  function MaxSeverity(cs: seq<Cluster>, ms: seq<nat>): Option<int>
    requires forall i | i in ms :: i < |cs|
  {
    if ms == [] then None
    else
      assert ms[0] in ms && forall i | i in ms[1..] :: i in ms;
      var rest, own := MaxSeverity(cs, ms[1..]), cs[ms[0]].maxSeverity;
      if own.None? then rest else if rest.None? || rest.value <= own.value then own else rest
  }

  /** Distinct sources counted: more than one exactly when two members differ in source. */
  lemma SourcesCounted(cs: seq<Cluster>, ms: seq<nat>)
    requires ms != [] && forall i | i in ms :: i < |cs|
    ensures |Sources(cs, ms)| >= 1
    ensures |Sources(cs, ms)| > 1 <==> exists i, j | i in ms && j in ms :: cs[i].source != cs[j].source
  {
    var all, first := Sources(cs, ms), cs[ms[0]].source;
    assert ms[0] in ms && first in all;
    if all == {first} {
      assert forall i | i in ms :: cs[i].source in all;
    } else {
      var x :| x in all && x != first;
      var i :| i in ms && cs[i].source == x;
      TwoMembers(all, first, x);
    }
  }

  lemma TwoMembers<T>(s: set<T>, x: T, y: T)
    requires x in s && y in s && x != y
    ensures |s| >= 2
  {
    assert s == {x, y} + (s - {x, y});
  }

  /** The span is the tightest one around the members, and depth and severity are attained maxima. */
  lemma {:induction false} RollupMeaning(cs: seq<Cluster>, ms: seq<nat>)
    requires ms != [] && forall i | i in ms :: i < |cs|
    ensures (exists i | i in ms :: cs[i].firstEventTime == FirstTime(cs, ms)) && (exists i | i in ms :: cs[i].lastEventTime == LastTime(cs, ms))
    ensures exists i | i in ms :: cs[i].contentDepth == MaxDepth(cs, ms)
    ensures MaxSeverity(cs, ms).Some? ==> exists i | i in ms :: cs[i].maxSeverity == MaxSeverity(cs, ms)
    ensures forall i | i in ms ::
      && FirstTime(cs, ms) <= cs[i].firstEventTime && cs[i].lastEventTime <= LastTime(cs, ms)
      && DepthLe(cs[i].contentDepth, MaxDepth(cs, ms))
      && (cs[i].maxSeverity.Some? ==> MaxSeverity(cs, ms).Some? && cs[i].maxSeverity.value <= MaxSeverity(cs, ms).value)
  {
    assert ms == [ms[0]] + ms[1..] && ms[0] in ms && forall i | i in ms[1..] :: i in ms;
    if |ms| > 1 {
      RollupMeaning(cs, ms[1..]);
    }
  }

  predicate RefLe(x: ClusterRef, y: ClusterRef) {
    x.clusterId <= y.clusterId
  }

  function Refs(cs: seq<Cluster>, reasons: seq<Option<string>>, ms: seq<nat>): (rs: seq<ClusterRef>)
    requires |reasons| == |cs| && forall i | i in ms :: i < |cs|
    ensures |rs| == |ms|
  {
    seq(|ms|, k requires 0 <= k < |ms| => assert ms[k] in ms; ClusterRef(cs[ms[k]].id, reasons[ms[k]]))
  }

  function StoryOf(cs: seq<Cluster>, reasons: seq<Option<string>>, id: Uuid, ms: seq<nat>): LinkedStory
    requires |reasons| == |cs| && ms != [] && forall i | i in ms :: i < |cs|
  {
    LinkedStory(id, Sort(RefLe, Refs(cs, reasons, ms)), FirstTime(cs, ms), LastTime(cs, ms), TotalEvents(cs, ms),
                |Sources(cs, ms)|, MaxDepth(cs, ms), MaxSeverity(cs, ms), exists i | i in ms :: cs[i].ownPrivate)
  }

  predicate NewestFirst(x: LinkedStory, y: LinkedStory) {
    x.lastEventTime > y.lastEventTime || (x.lastEventTime == y.lastEventTime && x.id <= y.id)
  }

  /** Component member lists that can be read off `cs`. */
  predicate Readable(cs: seq<Cluster>, ks: seq<Keyed>) {
    forall k | k in ks :: k.members != [] && forall i | i in k.members :: i < |cs|
  }

  function AllPriorIds(cs: seq<Cluster>, prior: map<Uuid, Uuid>, ks: seq<Keyed>): (r: seq<seq<Uuid>>)
    requires Readable(cs, ks)
    ensures |r| == |ks| && forall k | 0 <= k < |ks| :: ks[k] in ks && r[k] == PriorIds(cs, prior, ks[k].members)
  {
    seq(|ks|, k requires 0 <= k < |ks| => assert ks[k] in ks; PriorIds(cs, prior, ks[k].members))
  }

  function AllStories(cs: seq<Cluster>, reasons: seq<Option<string>>, ks: seq<Keyed>, ids: seq<Uuid>): (r: seq<LinkedStory>)
    requires |reasons| == |cs| && Readable(cs, ks) && |ids| == |ks|
    ensures |r| == |ks| && forall k | 0 <= k < |ks| :: ks[k] in ks && r[k] == StoryOf(cs, reasons, ids[k], ks[k].members)
  {
    seq(|ks|, k requires 0 <= k < |ks| => assert ks[k] in ks; StoryOf(cs, reasons, ids[k], ks[k].members))
  }

  function SetOf<T(!new)>(s: seq<T>): set<T> {
    set x | x in s
  }

  /** The assignment for the ordered components, given the prior story of each cluster. */
  function Forward(cs: seq<Cluster>, ks: seq<Keyed>, reasons: seq<Option<string>>, prior: map<Uuid, Uuid>, mint: nat -> Uuid): Assignment
    requires |reasons| == |cs| && Readable(cs, ks)
  {
    var carried := AllPriorIds(cs, prior, ks);
    var ids := Survivors(carried, {}, mint, 0);
    Assignment(Sort(NewestFirst, AllStories(cs, reasons, ks, ids)), Sort(MergeLe, Merges(carried, ids, SetOf(ids))))
  }

  method ClaimIds(carried: seq<seq<Uuid>>, mint: nat -> Uuid) returns (ids: seq<Uuid>, claimed: set<Uuid>)
    ensures ids == Survivors(carried, {}, mint, 0) && claimed == SetOf(ids)
  {
    ids, claimed := [], {};
    var minted := 0;
    for k := 0 to |carried|
      invariant |ids| == k && claimed == SetOf(ids)
      invariant ids + Survivors(carried[k..], claimed, mint, minted) == Survivors(carried, {}, mint, 0)
    {
      assert carried[k..][1..] == carried[k + 1..];
      ghost var rest := Survivors(carried[k..], claimed, mint, minted);
      var survivor;
      match FirstUnclaimed(carried[k], claimed) {
        case Some(id) => survivor := id;
        case None => survivor, minted := mint(minted), minted + 1;
      }
      assert rest == [survivor] + Survivors(carried[k + 1..], claimed + {survivor}, mint, minted);
      ClaimNext(ids, survivor, rest, Survivors(carried[k + 1..], claimed + {survivor}, mint, minted));
      ids, claimed := ids + [survivor], claimed + {survivor};
    }
  }

  lemma ClaimNext(ids: seq<Uuid>, x: Uuid, rest: seq<Uuid>, tail: seq<Uuid>)
    requires rest == [x] + tail
    ensures ids + rest == ids + [x] + tail
    ensures SetOf(ids + [x]) == SetOf(ids) + {x}
  {
  }

  method RecordMerges(carried: seq<seq<Uuid>>, survivors: seq<Uuid>, claimed: set<Uuid>) returns (merges: seq<Merge>)
    requires |carried| == |survivors|
    ensures merges == Merges(carried, survivors, claimed)
  {
    merges := [];
    for k := 0 to |carried|
      invariant merges + Merges(carried[k..], survivors[k..], claimed) == Merges(carried, survivors, claimed)
    {
      assert carried[k..][1..] == carried[k + 1..] && survivors[k..][1..] == survivors[k + 1..];
      ghost var before, later := merges, Merges(carried[k + 1..], survivors[k + 1..], claimed);
      var absorbed := RecordAbsorbed(carried[k], survivors[k], claimed);
      merges := merges + absorbed;
      assert before + (absorbed + later) == merges + later;
    }
  }

  method RecordAbsorbed(ids: seq<Uuid>, survivor: Uuid, claimed: set<Uuid>) returns (merges: seq<Merge>)
    ensures merges == Absorbed(ids, survivor, claimed)
  {
    merges := [];
    for j := 0 to |ids|
      invariant merges + Absorbed(ids[j..], survivor, claimed) == Absorbed(ids, survivor, claimed)
    {
      assert ids[j..][1..] == ids[j + 1..];
      if ids[j] != survivor && ids[j] !in claimed {
        merges := merges + [Merge(ids[j], survivor)];
      }
    }
  }

  /** Maps components onto story ids: claim or mint, record what was absorbed, roll the stories up, and order the output. */
  method ForwardIds(cs: seq<Cluster>, comps: map<nat, seq<nat>>, reasons: seq<Option<string>>, prior: seq<PriorMember>,
                    mint: nat -> Uuid, ghost roots: seq<nat>, ghost lab: seq<nat>) returns (a: Assignment)
    requires |lab| == |cs| == |reasons| && Candidates(cs) && Connectivity.Canonical(lab)
    requires ClassRoots(roots, lab) && Groups(comps, roots, lab, |lab|)
    ensures Readable(cs, OrderedClasses(cs, lab))
    ensures a == Forward(cs, OrderedClasses(cs, lab), reasons, PriorStory(prior), mint)
  {
    var ordered := OrderComponents(cs, comps, roots, lab);
    OrderedReadable(cs, lab);
    var carried := AllPriorIds(cs, PriorStory(prior), ordered);
    var ids, claimed := ClaimIds(carried, mint);
    var merges := RecordMerges(carried, ids, claimed);
    a := Assignment(Sort(NewestFirst, AllStories(cs, reasons, ordered, ids)), Sort(MergeLe, merges));
  }

  lemma OrderedReadable(cs: seq<Cluster>, lab: seq<nat>)
    requires |lab| == |cs| && Candidates(cs)
    ensures Readable(cs, OrderedClasses(cs, lab))
  {
    ClassesMeaning(cs, lab, |lab|);
    SortMembers(KeyLe, Classes(cs, lab, |lab|));
  }
}
