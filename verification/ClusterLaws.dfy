/** The cluster cache agrees with recomputation, over every interleaving the watermark allows, and never leaks a scope. */
module ClusterLaws {
  import opened Ordering
  import opened LinkModel
  import opened ClusterRollup
  import opened ClusterBuild
  import Runs

  // ── The invariant ──

  ghost predicate UniqueIds(log: seq<Event>) {
    forall i, j | 0 <= i < j < |log| :: log[i].id != log[j].id
  }

  /** Every event of the group has been built past. */
  ghost predicate Settled(s: State, k: Key) {
    InGroup(s.log, k) != [] && forall e | e in InGroup(s.log, k) :: e.ingestTime <= Through(s, k.scope)
  }

  /** The group's row is the rollup of all its events. */
  ghost predicate FreshRow(rows: map<Key, Rollup>, log: seq<Event>, k: Key) {
    k in rows && RollupOf(GroupEvents(log, k)) == Some(rows[k])
  }

  ghost predicate Agrees(s: State, k: Key) {
    FreshRow(s.rows, s.log, k)
  }

  /** Every settled group has an up-to-date row, and no row stands for an empty group. */
  ghost predicate InSync(s: State) {
    && UniqueIds(s.log)
    && (forall k | Settled(s, k) :: Agrees(s, k))
    && (forall k | k in s.rows :: InGroup(s.log, k) != [])
  }

  // ── Steps ──

  datatype Step =
    | Ingest(event: Event)
    | Enrich(id: Uuid, more: seq<string>, salience: int)
    | FullText(event: Event, longform: bool)
    | Build(scope: Scope, upTo: Time, groups: seq<Key>)

  function WithThrough(s: State, scope: Scope, t: Time): State {
    match scope
    case Public => s.(publicThrough := t)
    case Private(owner) => s.(privateThrough := s.privateThrough[owner := t])
  }

  ghost function Take(s: State, step: Step): State {
    match step
    case Ingest(e) => s.(log := s.log + [e])
    case Enrich(id, more, salience) => s.(log := Apply(Enricher(more, salience), id, s.log))
    case FullText(e, longform) => s.(log := Apply(Reader(longform), e.id, s.log), rows := Raised(s.rows, KeyOf(e), longform))
    case Build(scope, upTo, groups) =>
      WithThrough(s.(rows := Rebuilt(s.rows, s.log, groups)), scope, Later(Through(s, scope), upTo))
  }

  /** An event still above its scope's watermark. */
  predicate Unbuilt(s: State, e: Event) {
    e.ingestTime > Through(s, e.scope)
  }

  /**
   * New events arrive above the watermark with new ids, enrichment lands only on events not built yet, and a
   * build works on exactly the groups its range has dirtied.
   */
  ghost predicate Enabled(s: State, step: Step) {
    match step
    case Ingest(e) => Unbuilt(s, e) && forall x | x in s.log :: x.id != e.id
    case Enrich(id, _, _) => forall e | e in s.log && e.id == id :: Unbuilt(s, e)
    case FullText(e, _) => e in s.log
    case Build(scope, upTo, groups) => forall k :: k in groups <==> Dirty(s.log, scope, Through(s, scope), upTo, k)
  }

  // ── Builds ──

  lemma {:induction false} GroupEmptyIff(log: seq<Event>, k: Key)
    ensures GroupEvents(log, k) == [] <==> InGroup(log, k) == []
  {
    assert |GroupEvents(log, k)| == |InGroup(log, k)|;
  }

  /** What a build leaves under a key: a fresh row if the group was rebuilt and has events, the earlier row if not. */
  ghost predicate RowAfter<V>(r: map<Key, V>, rows: map<Key, V>, k: Key, fold: Option<V>) {
    if fold.Some? then k in r && fold == Some(r[k]) else (k in r <==> k in rows) && (k in rows ==> r[k] == rows[k])
  }

  lemma {:induction false} RefoldedRow<V>(rows: map<Key, V>, fold: Key -> Option<V>, groups: seq<Key>, k: Key)
    ensures RowAfter(Refolded(rows, fold, groups), rows, k, if k in groups then fold(k) else None)
  {
    if groups != [] {
      var front, last := groups[..|groups| - 1], groups[|groups| - 1];
      assert groups == front + [last];
      RefoldedRow(rows, fold, front, k);
    }
  }

  lemma {:induction false} RefoldSome(log: seq<Event>, k: Key)
    ensures Refold(log)(k).Some? <==> InGroup(log, k) != []
  {
    GroupEmptyIff(log, k);
  }

  lemma RebuiltRow(rows: map<Key, Rollup>, log: seq<Event>, groups: seq<Key>, k: Key)
    ensures RowAfter(Rebuilt(rows, log, groups), rows, k, if k in groups then Refold(log)(k) else None)
  {
    RefoldedRow(rows, Refold(log), groups, k);
  }

  /** A build leaves a fresh row under every group it rebuilt and wherever the row was fresh before. */
  lemma {:induction false} RebuiltFresh(rows: map<Key, Rollup>, log: seq<Event>, groups: seq<Key>, k: Key)
    requires InGroup(log, k) != [] && (k in groups || FreshRow(rows, log, k))
    ensures FreshRow(Rebuilt(rows, log, groups), log, k)
  {
    RebuiltRow(rows, log, groups, k);
    RefoldSome(log, k);
  }

  lemma BuildAgrees(s: State, scope: Scope, upTo: Time, groups: seq<Key>, k: Key)
    requires InSync(s) && Enabled(s, Build(scope, upTo, groups)) && Settled(Take(s, Build(scope, upTo, groups)), k)
    ensures Agrees(Take(s, Build(scope, upTo, groups)), k)
  {
    if k !in groups {
      StaysSettled(s, Take(s, Build(scope, upTo, groups)), scope, upTo, k);
      assert Agrees(s, k);
    }
    RebuiltFresh(s.rows, s.log, groups, k);
  }

  lemma BuildKeepsSync(s: State, scope: Scope, upTo: Time, groups: seq<Key>)
    requires InSync(s) && Enabled(s, Build(scope, upTo, groups))
    ensures InSync(Take(s, Build(scope, upTo, groups)))
  {
    var t := Take(s, Build(scope, upTo, groups));
    forall k | Settled(t, k) ensures Agrees(t, k) {
      BuildAgrees(s, scope, upTo, groups, k);
    }
    forall k | k in t.rows ensures InGroup(t.log, k) != [] {
      RebuiltRow(s.rows, s.log, groups, k);
      RefoldSome(s.log, k);
    }
  }

  /** A build moves its own scope's watermark and no other. */
  lemma ThroughAfter(s: State, t: State, scope: Scope, upTo: Time, other: Scope)
    requires t == WithThrough(s.(rows := t.rows), scope, Later(Through(s, scope), upTo))
    ensures Through(t, other) == if other == scope then Later(Through(s, scope), upTo) else Through(s, other)
  {
  }

  /** A group settled after a build that did not dirty it was settled before. */
  lemma StaysSettled(s: State, t: State, scope: Scope, upTo: Time, k: Key)
    requires !Dirty(s.log, scope, Through(s, scope), upTo, k) && t.log == s.log && Settled(t, k)
    requires t == WithThrough(s.(rows := t.rows), scope, Later(Through(s, scope), upTo))
    ensures Settled(s, k)
  {
    ThroughAfter(s, t, scope, upTo, k.scope);
    forall e | e in InGroup(s.log, k) ensures e.ingestTime <= Through(s, k.scope) {
      assert e in s.log && KeyOf(e) == k;
    }
  }

  // ── New events ──

  lemma {:induction false} OtherGroupUnchanged(log: seq<Event>, e: Event, k: Key)
    requires KeyOf(e) != k
    ensures InGroup(log + [e], k) == InGroup(log, k)
  {
    assert (log + [e])[..|log|] == log;
  }

  lemma IngestKeepsSync(s: State, e: Event)
    requires InSync(s) && Enabled(s, Ingest(e))
    ensures InSync(Take(s, Ingest(e)))
  {
    var t := Take(s, Ingest(e));
    assert e in t.log;
    forall k | Settled(t, k) ensures Agrees(t, k) {
      assert KeyOf(e) != k by {
        assert KeyOf(e) == k ==> e in InGroup(t.log, k);
      }
      OtherGroupUnchanged(s.log, e, k);
      assert Settled(s, k);
    }
    forall k | k in t.rows ensures InGroup(t.log, k) != [] {
      var x := InGroup(s.log, k)[0];
      assert x in InGroup(s.log, k) && x in t.log;
      assert x in InGroup(t.log, k);
    }
  }

  // ── Changing one event in place ──

  function Mapped(f: Event -> Event, es: seq<Event>): (r: seq<Event>)
    ensures |r| == |es| && forall i | 0 <= i < |es| :: r[i] == f(es[i])
  {
    seq(|es|, i requires 0 <= i < |es| => f(es[i]))
  }

  /** Changes an event's content but neither its identity, its group, its times nor its place in order. */
  ghost predicate InPlace(f: Event -> Event) {
    forall e :: KeptBy(f, e)
  }

  ghost predicate KeptBy(f: Event -> Event, e: Event) {
    f(e).id == e.id && KeyOf(f(e)) == KeyOf(e) && f(e).eventTime == e.eventTime && f(e).ingestTime == e.ingestTime
  }

  lemma AtInPlace(f: Event -> Event, id: Uuid)
    requires InPlace(f)
    ensures InPlace(At(f, id))
  {
    forall e ensures KeptBy(At(f, id), e) {
      assert KeptBy(f, e);
    }
  }

  function At(f: Event -> Event, id: Uuid): Event -> Event {
    (e: Event) => if e.id == id then f(e) else e
  }

  lemma ApplyIsMapped(f: Event -> Event, id: Uuid, log: seq<Event>)
    ensures Apply(f, id, log) == Mapped(At(f, id), log)
  {
  }

  lemma {:induction false} InGroupSnoc(log: seq<Event>, e: Event, k: Key)
    ensures InGroup(log + [e], k) == if KeyOf(e) == k then InGroup(log, k) + [e] else InGroup(log, k)
  {
    assert (log + [e])[..|log|] == log;
    assert InGroup(log, k) + [] == InGroup(log, k);
  }

  lemma MappedSnoc(f: Event -> Event, es: seq<Event>, e: Event)
    ensures Mapped(f, es + [e]) == Mapped(f, es) + [f(e)]
  {
  }

  lemma {:induction false} InGroupMapped(f: Event -> Event, log: seq<Event>, k: Key)
    requires InPlace(f)
    ensures InGroup(Mapped(f, log), k) == Mapped(f, InGroup(log, k))
  {
    if log != [] {
      var front, e := log[..|log| - 1], log[|log| - 1];
      assert log == front + [e];
      InGroupMapped(f, front, k);
      MappedSnoc(f, front, e);
      InGroupSnoc(Mapped(f, front), f(e), k);
      InGroupSnoc(front, e, k);
      assert KeptBy(f, e);
      MappedSnoc(f, InGroup(front, k), e);
    }
  }

  lemma MappedCons(f: Event -> Event, x: Event, es: seq<Event>)
    ensures Mapped(f, [x] + es) == [f(x)] + Mapped(f, es)
  {
  }

  lemma {:induction false} InsertMapped(f: Event -> Event, x: Event, es: seq<Event>)
    requires InPlace(f)
    ensures Insert(TimeIdLe, f(x), Mapped(f, es)) == Mapped(f, Insert(TimeIdLe, x, es))
  {
    if es == [] {
      MappedCons(f, x, es);
    } else {
      assert KeptBy(f, x) && KeptBy(f, es[0]);
      assert Mapped(f, es)[0] == f(es[0]);
      if TimeIdLe(x, es[0]) {
        MappedCons(f, x, es);
      } else {
        assert Mapped(f, es)[1..] == Mapped(f, es[1..]);
        InsertMapped(f, x, es[1..]);
        MappedCons(f, es[0], Insert(TimeIdLe, x, es[1..]));
      }
    }
  }

  lemma {:induction false} SortMapped(f: Event -> Event, es: seq<Event>)
    requires InPlace(f)
    ensures Sort(TimeIdLe, Mapped(f, es)) == Mapped(f, Sort(TimeIdLe, es))
  {
    if es != [] {
      assert Mapped(f, es)[0] == f(es[0]) && Mapped(f, es)[1..] == Mapped(f, es[1..]);
      SortMapped(f, es[1..]);
      InsertMapped(f, es[0], Sort(TimeIdLe, es[1..]));
    }
  }

  /** Changing an event in place changes its group's events in place, in the same order. */
  lemma {:induction false} GroupMapped(f: Event -> Event, id: Uuid, log: seq<Event>, k: Key)
    requires InPlace(f)
    ensures GroupEvents(Apply(f, id, log), k) == Mapped(At(f, id), GroupEvents(log, k))
    ensures InGroup(Apply(f, id, log), k) == Mapped(At(f, id), InGroup(log, k))
  {
    ApplyIsMapped(f, id, log);
    AtInPlace(f, id);
    InGroupMapped(At(f, id), log, k);
    SortMapped(At(f, id), InGroup(log, k));
  }

  lemma MappedElsewhere(f: Event -> Event, id: Uuid, es: seq<Event>)
    requires forall e | e in es :: e.id != id
    ensures Mapped(At(f, id), es) == es
  {
    forall i | 0 <= i < |es| ensures Mapped(At(f, id), es)[i] == es[i] {
      assert es[i] in es;
    }
  }

  lemma GroupMembers(log: seq<Event>, k: Key)
    ensures forall e :: e in GroupEvents(log, k) <==> e in log && KeyOf(e) == k
  {
    SortMembers(TimeIdLe, InGroup(log, k));
  }

  lemma MappedKeepsIds(f: Event -> Event, id: Uuid, log: seq<Event>)
    requires InPlace(f) && UniqueIds(log)
    ensures UniqueIds(Apply(f, id, log))
  {
    forall i | 0 <= i < |log| ensures Apply(f, id, log)[i].id == log[i].id {
      assert KeptBy(f, log[i]);
    }
  }

  lemma EnricherInPlace(more: seq<string>, salience: int)
    ensures InPlace(Enricher(more, salience))
  {
  }

  lemma ReaderInPlace(longform: bool)
    ensures InPlace(Reader(longform))
  {
  }

  ghost predicate AllBy(es: seq<Event>, t: Time) {
    forall i | 0 <= i < |es| :: es[i].ingestTime <= t
  }

  lemma AllByMapped(f: Event -> Event, es: seq<Event>, t: Time)
    requires InPlace(f)
    ensures AllBy(Mapped(f, es), t) <==> AllBy(es, t)
  {
    forall i | 0 <= i < |es| ensures Mapped(f, es)[i].ingestTime == es[i].ingestTime {
      assert KeptBy(f, es[i]);
    }
  }

  lemma {:induction false} SettledIff(s: State, k: Key)
    ensures Settled(s, k) <==> InGroup(s.log, k) != [] && AllBy(InGroup(s.log, k), Through(s, k.scope))
  {
    var es := InGroup(s.log, k);
    if AllBy(es, Through(s, k.scope)) {
      forall e | e in es ensures e.ingestTime <= Through(s, k.scope) {
        var i :| 0 <= i < |es| && es[i] == e;
      }
    }
  }

  lemma SettledMapped(s: State, t: State, f: Event -> Event, id: Uuid, k: Key)
    requires InPlace(f) && t.log == Apply(f, id, s.log) && Through(t, k.scope) == Through(s, k.scope)
    ensures Settled(t, k) <==> Settled(s, k)
  {
    assert InGroup(t.log, k) == Mapped(At(f, id), InGroup(s.log, k)) by {
      GroupMapped(f, id, s.log, k);
    }
    AtInPlace(f, id);
    AllByMapped(At(f, id), InGroup(s.log, k), Through(s, k.scope));
    SettledIff(s, k);
    SettledIff(t, k);
  }

  lemma EnrichKeepsSync(s: State, id: Uuid, more: seq<string>, salience: int)
    requires InSync(s) && Enabled(s, Enrich(id, more, salience))
    ensures InSync(Take(s, Enrich(id, more, salience)))
  {
    var t, f := Take(s, Enrich(id, more, salience)), Enricher(more, salience);
    EnricherInPlace(more, salience);
    MappedKeepsIds(f, id, s.log);
    forall k ensures Settled(t, k) <==> Settled(s, k) {
      SettledMapped(s, t, f, id, k);
    }
    forall k | Settled(t, k) ensures Agrees(t, k) {
      GroupMapped(f, id, s.log, k);
      GroupMembers(s.log, k);
      forall e | e in GroupEvents(s.log, k) ensures e.id != id {
        assert e in InGroup(s.log, k);
      }
      MappedElsewhere(f, id, GroupEvents(s.log, k));
      assert Agrees(s, k);
    }
    forall k | k in t.rows ensures InGroup(t.log, k) != [] {
      GroupMapped(f, id, s.log, k);
    }
  }

  // ── Full text ──

  lemma {:induction false} LatestMapped(f: Event -> Event, es: seq<Event>)
    requires InPlace(f) && es != []
    ensures Latest(Mapped(f, es)) == f(Latest(es)) && FirstTime(Mapped(f, es)) == FirstTime(es)
  {
    var n := |es| - 1;
    assert KeptBy(f, es[n]);
    if n > 0 {
      assert KeptBy(f, Latest(es[..n]));
      assert Mapped(f, es)[..n] == Mapped(f, es[..n]);
      LatestMapped(f, es[..n]);
    }
  }

  /** The fields the fetched text can change besides depth: none. */
  ghost predicate OnlyDepth(f: Event -> Event) {
    InPlace(f) && forall e :: f(e).(contentKind := e.contentKind) == e
  }

  lemma {:induction false} OnlyDepthParts(f: Event -> Event, es: seq<Event>)
    requires OnlyDepth(f)
    ensures AllEntities(Mapped(f, es)) == AllEntities(es) && Severity(Mapped(f, es)) == Severity(es)
  {
    if es != [] {
      var n := |es| - 1;
      assert Mapped(f, es)[..n] == Mapped(f, es[..n]);
      assert f(es[n]).(contentKind := es[n].contentKind) == es[n];
      OnlyDepthParts(f, es[..n]);
    }
  }

  lemma OnlyDepthRollup(f: Event -> Event, es: seq<Event>)
    requires OnlyDepth(f) && es != []
    ensures RollupOf(Mapped(f, es)) == Some(RollupOf(es).value.(contentDepth := Depth(Mapped(f, es))))
  {
    OnlyDepthParts(f, es);
    LatestMapped(f, es);
    assert f(Latest(es)).(contentKind := Latest(es).contentKind) == Latest(es);
  }

  ghost predicate HasEvent(es: seq<Event>, id: Uuid) {
    exists x | x in es :: x.id == id
  }

  lemma {:induction false} DepthRaised(es: seq<Event>, id: Uuid, longform: bool)
    ensures Depth(Mapped(At(Reader(longform), id), es)) == if longform && HasEvent(es, id) then Longform else Depth(es)
  {
    if es != [] {
      var n, f := |es| - 1, At(Reader(longform), id);
      assert Mapped(f, es)[..n] == Mapped(f, es[..n]);
      assert es == es[..n] + [es[n]];
      DepthRaised(es[..n], id, longform);
    }
  }

  lemma RaisedRollup(es: seq<Event>, id: Uuid, longform: bool)
    requires es != []
    ensures var r := RollupOf(es).value;
      RollupOf(Mapped(At(Reader(longform), id), es)) == Some(if longform && HasEvent(es, id) then r.(contentDepth := Longform) else r)
  {
    OnlyDepthRollup(At(Reader(longform), id), es);
    DepthRaised(es, id, longform);
  }

  /** Raising the row by hand is what refolding the group would give. */
  lemma {:induction false} RaisedAgrees(s: State, e: Event, longform: bool, k: Key)
    requires UniqueIds(s.log) && e in s.log && Agrees(s, k) && InGroup(s.log, k) != []
    ensures Agrees(Take(s, FullText(e, longform)), k)
  {
    assert ReadGroup(Apply(Reader(longform), e.id, s.log), GroupEvents(s.log, k), e.id, longform, k) by {
      ReaderInPlace(longform);
      GroupMapped(Reader(longform), e.id, s.log, k);
    }
    assert GroupEvents(s.log, k) != [] by { GroupEmptyIff(s.log, k); }
    OneEventPerId(s.log, e, k);
    RaisedAgreesWith(s, GroupEvents(s.log, k), e, longform, k);
  }

  ghost predicate ReadGroup(log: seq<Event>, es: seq<Event>, id: Uuid, longform: bool, k: Key) {
    GroupEvents(log, k) == Mapped(At(Reader(longform), id), es)
  }

  lemma RaisedAgreesWith(s: State, es: seq<Event>, e: Event, longform: bool, k: Key)
    requires k in s.rows && es != [] && RollupOf(es) == Some(s.rows[k]) && (HasEvent(es, e.id) <==> KeyOf(e) == k)
    requires ReadGroup(Apply(Reader(longform), e.id, s.log), es, e.id, longform, k)
    ensures Agrees(Take(s, FullText(e, longform)), k)
  {
    RaisedRow(s.rows, es, e, longform, k);
  }

  lemma RaisedRow(rows: map<Key, Rollup>, es: seq<Event>, e: Event, longform: bool, k: Key)
    requires k in rows && es != [] && RollupOf(es) == Some(rows[k]) && (HasEvent(es, e.id) <==> KeyOf(e) == k)
    ensures k in Raised(rows, KeyOf(e), longform)
    ensures RollupOf(Mapped(At(Reader(longform), e.id), es)) == Some(Raised(rows, KeyOf(e), longform)[k])
  {
    RaisedRollup(es, e.id, longform);
  }

  lemma OneEventPerId(log: seq<Event>, e: Event, k: Key)
    requires UniqueIds(log) && e in log
    ensures HasEvent(GroupEvents(log, k), e.id) <==> KeyOf(e) == k
  {
    GroupMembers(log, k);
    if x :| x in GroupEvents(log, k) && x.id == e.id {
      SameEvent(log, x, e);
    }
  }

  lemma FullTextKeepsSync(s: State, e: Event, longform: bool)
    requires InSync(s) && Enabled(s, FullText(e, longform))
    ensures InSync(Take(s, FullText(e, longform)))
  {
    var t, f := Take(s, FullText(e, longform)), Reader(longform);
    ReaderInPlace(longform);
    MappedKeepsIds(f, e.id, s.log);
    forall k | Settled(t, k) ensures Agrees(t, k) {
      SettledMapped(s, t, f, e.id, k);
      RaisedAgrees(s, e, longform, k);
    }
    forall k | k in t.rows ensures InGroup(t.log, k) != [] {
      GroupMapped(f, e.id, s.log, k);
    }
  }

  // ── Runs ──

  ghost predicate Next(s: State, t: State) {
    exists step :: Enabled(s, step) && t == Take(s, step)
  }

  ghost function Steps(): (State, State) -> bool {
    (s, t) => Next(s, t)
  }

  ghost predicate Run(states: seq<State>) {
    Runs.Run(Steps(), states)
  }

  lemma NextKeepsSync(s: State, t: State)
    requires InSync(s) && Next(s, t)
    ensures InSync(t)
  {
    var step :| Enabled(s, step) && t == Take(s, step);
    match step {
      case Ingest(e) => IngestKeepsSync(s, e);
      case Enrich(id, more, salience) => EnrichKeepsSync(s, id, more, salience);
      case FullText(e, longform) => FullTextKeepsSync(s, e, longform);
      case Build(scope, upTo, groups) => BuildKeepsSync(s, scope, upTo, groups);
    }
  }

  ghost function Synced(): State -> bool {
    s => InSync(s)
  }

  lemma StepsKeepSync()
    ensures Runs.Preserves(Steps(), Synced())
  {
    forall s, t | Synced()(s) && Steps()(s, t) ensures Synced()(t) {
      NextKeepsSync(s, t);
    }
  }

  /**
   * In every reachable state, any group built past in full has a row equal to the rollup of all its events:
   * the incremental cache is never behind recomputation.
   */
  lemma RunKeepsSync(states: seq<State>)
    requires Run(states) && InSync(states[0])
    ensures InSync(states[|states| - 1])
  {
    StepsKeepSync();
    Runs.RunKeeps(Steps(), Synced(), states);
  }

  // ── Enrichment that lands too late ──

  lemma {:induction false} EnrichedEntities(es: seq<Event>, id: Uuid, more: seq<string>, salience: int, x: string)
    ensures x in AllEntities(Mapped(At(Enricher(more, salience), id), es))
       <==> x in AllEntities(es) || (x in more && HasEvent(es, id))
  {
    if es != [] {
      var front, e, f := es[..|es| - 1], es[|es| - 1], At(Enricher(more, salience), id);
      assert es == front + [e];
      MappedSnoc(f, front, e);
      assert Mapped(f, es)[..|front|] == Mapped(f, front);
      EnrichedEntities(front, id, more, salience, x);
      assert x in f(e).entities <==> x in e.entities || (x in more && e.id == id);
    }
  }

  lemma {:induction false} SeveritySnoc(es: seq<Event>, e: Event)
    ensures Severity(es + [e]) == Graver(Severity(es), e.severityHint)
  {
    assert (es + [e])[..|es|] == es;
  }

  lemma GraverRearranges(a: Option<int>, hint: Option<int>, raised: Option<int>)
    requires Graver(hint, raised) == raised
    ensures Graver(Graver(a, raised), hint) == Graver(Graver(a, hint), raised) == Graver(a, raised)
    ensures Graver(Graver(a, raised), raised) == Graver(a, raised)
  {
  }

  lemma GraverSwaps(a: Option<int>, b: Option<int>, c: Option<int>)
    ensures Graver(Graver(a, b), c) == Graver(Graver(a, c), b)
  {
  }

  lemma {:induction false} EnrichedSeverity(es: seq<Event>, e: Event, more: seq<string>, salience: int)
    requires forall x | x in es && x.id == e.id :: x == e
    ensures Severity(Mapped(At(Enricher(more, salience), e.id), es))
         == if e in es then Graver(Severity(es), Enriched(e, more, salience).severityHint) else Severity(es)
  {
    if es != [] {
      var front, last, f := es[..|es| - 1], es[|es| - 1], At(Enricher(more, salience), e.id);
      var raised := Enriched(e, more, salience).severityHint;
      assert es == front + [last];
      EnrichedSeverity(front, e, more, salience);
      MappedSnoc(f, front, last);
      SeveritySnoc(Mapped(f, front), f(last));
      SeveritySnoc(front, last);
      assert last in es;
      if last == e {
        GraverRearranges(Severity(front), e.severityHint, raised);
      } else {
        GraverSwaps(Severity(front), raised, last.severityHint);
      }
    }
  }

  lemma {:induction false} EnrichedDepth(es: seq<Event>, id: Uuid, more: seq<string>, salience: int)
    ensures Depth(Mapped(At(Enricher(more, salience), id), es)) == Depth(es)
  {
    if es != [] {
      var f := At(Enricher(more, salience), id);
      assert Mapped(f, es)[..|es| - 1] == Mapped(f, es[..|es| - 1]);
      EnrichedDepth(es[..|es| - 1], id, more, salience);
    }
  }

  /** What enriching one of its events does to a group's row: entities join it, and its severity can only rise. */
  lemma EnrichedRow(es: seq<Event>, e: Event, more: seq<string>, salience: int)
    requires e in es && forall x | x in es && x.id == e.id :: x == e
    ensures var was, now := RollupOf(es).value, RollupOf(Mapped(At(Enricher(more, salience), e.id), es)).value;
      && now == was.(entities := now.entities, maxSeverity := Graver(was.maxSeverity, Enriched(e, more, salience).severityHint))
      && (now.entities == was.entities <==> forall x | x in more :: x in was.entities)
  {
    var f := At(Enricher(more, salience), e.id);
    LatestMapped(f, es);
    EnrichedDepth(es, e.id, more, salience);
    EnrichedSeverity(es, e, more, salience);
    forall x ensures x in AllEntities(Mapped(f, es)) <==> x in AllEntities(es) || x in more {
      EnrichedEntities(es, e.id, more, salience, x);
    }
    SameKeysIff(AllEntities(Mapped(f, es)), AllEntities(es), more);
  }

  lemma {:induction false} SameKeysIff(now: seq<string>, was: seq<string>, more: seq<string>)
    requires forall x :: x in now <==> x in was || x in more
    ensures Keys(StringLe, now) == Keys(StringLe, was) <==> forall x | x in more :: x in Keys(StringLe, was)
  {
    if forall x | x in more :: x in Keys(StringLe, was) {
      StringOrder();
      KeysAscending(StringLe, now);
      KeysAscending(StringLe, was);
      AscendingUnique(StringLe, Keys(StringLe, now), Keys(StringLe, was));
    }
    if Keys(StringLe, now) == Keys(StringLe, was) {
      forall x | x in more ensures x in Keys(StringLe, was) {
        assert x in now;
        assert x in Keys(StringLe, now);
      }
    }
  }

  /** The row already shows everything an enrichment of `e` brings. */
  ghost predicate Covers(row: Rollup, e: Event, more: seq<string>, salience: int) {
    (forall x | x in more :: x in row.entities) && Graver(row.maxSeverity, Enriched(e, more, salience).severityHint) == row.maxSeverity
  }

  /**
   * The enrichment write has no watermark guard. Landing on an event already built, it leaves the row in
   * agreement exactly when it brings no entity the row lacks and no severity above the row's; otherwise the
   * group stays settled, stale, and out of reach of every later build until something new arrives in it.
   */
  lemma LateEnrichmentAgreesIff(s: State, e: Event, more: seq<string>, salience: int)
    requires InSync(s) && e in s.log && Settled(s, KeyOf(e))
    ensures var t, k := Take(s, Enrich(e.id, more, salience)), KeyOf(e);
      && Settled(t, k) && k in s.rows
      && (Agrees(t, k) <==> Covers(s.rows[k], e, more, salience))
      && forall upTo :: !Dirty(t.log, e.scope, Through(t, e.scope), upTo, k)
  {
    var t, k := Take(s, Enrich(e.id, more, salience)), KeyOf(e);
    EnricherInPlace(more, salience);
    SettledMapped(s, t, Enricher(more, salience), e.id, k);
    forall upTo ensures !Dirty(t.log, e.scope, Through(t, e.scope), upTo, k) {
      SettledNotDirty(t, k, upTo);
    }
    LateRow(s, e, more, salience);
  }

  const EMPTY := State([], map[], 0, map[])
  const BARE := Event(1, Public, Rss, "feed/item", 0, 10, "release", [], [], Message, None, None)

  /** Nothing has been ingested, so every row is up to date. */
  lemma EmptyInSync()
    ensures InSync(EMPTY)
  {
    forall k ensures InGroup(EMPTY.log, k) == [] {}
  }

  lemma RunOn(states: seq<State>, step: Step)
    requires Run(states) && Enabled(states[|states| - 1], step)
    ensures Run(states + [Take(states[|states| - 1], step)])
  {
    assert Steps()(states[|states| - 1], Take(states[|states| - 1], step));
    Runs.RunOn(Steps(), states, Take(states[|states| - 1], step));
  }

  lemma BareDirty(k: Key)
    ensures k in [KeyOf(BARE)] <==> Dirty([BARE], Public, 0, 20, k)
  {
    assert BARE in [BARE];
  }

  lemma BareBuilt() returns (states: seq<State>)
    ensures Run(states) && states[0] == EMPTY && states[|states| - 1].log == [BARE] && states[|states| - 1].publicThrough == 20
  {
    states := [EMPTY];
    RunOn(states, Ingest(BARE));
    var s := Take(EMPTY, Ingest(BARE));
    states := states + [s];
    assert s.log == [BARE];
    forall k ensures k in [KeyOf(BARE)] <==> Dirty(s.log, Public, 0, 20, k) {
      BareDirty(k);
    }
    RunOn(states, Build(Public, 20, [KeyOf(BARE)]));
    states := states + [Take(s, Build(Public, 20, [KeyOf(BARE)]))];
  }

  /** From the empty store: an event is ingested, built, and only then enriched; its row stays stale. */
  lemma LateEnrichmentGoesStale() returns (states: seq<State>)
    ensures Run(states) && states[0] == EMPTY && BARE in states[|states| - 1].log
    ensures var t := Take(states[|states| - 1], Enrich(BARE.id, ["org:acme"], 0));
      Settled(t, KeyOf(BARE)) && !Agrees(t, KeyOf(BARE)) && forall upTo :: !Dirty(t.log, Public, Through(t, Public), upTo, KeyOf(BARE))
  {
    states := BareBuilt();
    EmptyInSync();
    RunKeepsSync(states);
    assert BARE in states[|states| - 1].log;
    BareGoesStale(states[|states| - 1]);
  }

  lemma BareGoesStale(s: State)
    requires InSync(s) && s.log == [BARE] && s.publicThrough == 20
    ensures var t := Take(s, Enrich(BARE.id, ["org:acme"], 0));
      Settled(t, KeyOf(BARE)) && !Agrees(t, KeyOf(BARE)) && forall upTo :: !Dirty(t.log, Public, Through(t, Public), upTo, KeyOf(BARE))
  {
    BareSettled(s);
    BareRow(s);
    LateEnrichmentAgreesIff(s, BARE, ["org:acme"], 0);
  }

  lemma BareSettled(s: State)
    requires s.log == [BARE] && s.publicThrough == 20
    ensures Settled(s, KeyOf(BARE))
  {
    assert BARE in s.log;
    assert BARE in InGroup(s.log, KeyOf(BARE));
  }

  lemma BareRow(s: State)
    requires s.log == [BARE] && Agrees(s, KeyOf(BARE))
    ensures !Covers(s.rows[KeyOf(BARE)], BARE, ["org:acme"], 0)
  {
    assert "org:acme" in ["org:acme"];
    var k := KeyOf(BARE);
    GroupMembers(s.log, k);
    assert BARE in GroupEvents(s.log, k);
    var _ := RollupMeaning(GroupEvents(s.log, k));
  }

  lemma LateRow(s: State, e: Event, more: seq<string>, salience: int)
    requires UniqueIds(s.log) && e in s.log && Agrees(s, KeyOf(e))
    ensures Agrees(Take(s, Enrich(e.id, more, salience)), KeyOf(e)) <==> Covers(s.rows[KeyOf(e)], e, more, salience)
  {
    var k := KeyOf(e);
    EnricherInPlace(more, salience);
    GroupMapped(Enricher(more, salience), e.id, s.log, k);
    GroupMembers(s.log, k);
    forall x | x in GroupEvents(s.log, k) && x.id == e.id ensures x == e {
      SameEvent(s.log, x, e);
    }
    EnrichedRow(GroupEvents(s.log, k), e, more, salience);
  }

  lemma SameEvent(log: seq<Event>, x: Event, e: Event)
    requires UniqueIds(log) && x in log && e in log && x.id == e.id
    ensures x == e
  {
    var i :| 0 <= i < |log| && log[i] == x;
    var j :| 0 <= j < |log| && log[j] == e;
    assert i == j;
  }

  lemma SettledNotDirty(t: State, k: Key, upTo: Time)
    requires Settled(t, k)
    ensures !Dirty(t.log, k.scope, Through(t, k.scope), upTo, k)
  {
    forall e | e in t.log && KeyOf(e) == k ensures e.ingestTime <= Through(t, k.scope) {
      assert e in InGroup(t.log, k);
    }
  }

  // ── Isolation ──

  /** Every entity a row shows comes from an event of the row's own scope, source and group. */
  ghost predicate NoLeak(s: State) {
    forall k, x | k in s.rows && x in s.rows[k].entities :: FromGroup(s.log, k, x)
  }

  ghost predicate FromGroup(log: seq<Event>, k: Key, x: string) {
    exists e | e in log :: KeyOf(e) == k && x in e.entities
  }

  lemma {:induction false} RollupFromGroup(log: seq<Event>, k: Key, x: string)
    requires InGroup(log, k) != [] && x in RollupOf(GroupEvents(log, k)).value.entities
    ensures FromGroup(log, k, x)
  {
    GroupMembers(log, k);
    GroupEmptyIff(log, k);
    var _ := RollupMeaning(GroupEvents(log, k));
    var e :| e in GroupEvents(log, k) && x in e.entities;
    assert e in log;
  }

  lemma EntitiesOnlyGrow(f: Event -> Event, id: Uuid, log: seq<Event>, k: Key, x: string)
    requires InPlace(f) && (forall e: Event, y | y in e.entities :: y in f(e).entities) && FromGroup(log, k, x)
    ensures FromGroup(Apply(f, id, log), k, x)
  {
    var e :| e in log && KeyOf(e) == k && x in e.entities;
    var i :| 0 <= i < |log| && log[i] == e;
    var now := Apply(f, id, log)[i];
    assert now in Apply(f, id, log) && KeptBy(f, e);
    assert KeyOf(now) == k && x in now.entities;
  }

  lemma ChangeKeepsScopes(s: State, f: Event -> Event, id: Uuid, k: Key, x: string)
    requires NoLeak(s) && InPlace(f) && (forall e: Event, y | y in e.entities :: y in f(e).entities)
    requires k in s.rows && x in s.rows[k].entities
    ensures FromGroup(Apply(f, id, s.log), k, x)
  {
    EntitiesOnlyGrow(f, id, s.log, k, x);
  }

  lemma IngestKeepsScopes(s: State, e: Event, k: Key, x: string)
    requires NoLeak(s) && k in s.rows && x in s.rows[k].entities
    ensures FromGroup(s.log + [e], k, x)
  {
    var y :| y in s.log && KeyOf(y) == k && x in y.entities;
    assert y in s.log + [e];
  }

  lemma BuildKeepsScopes(s: State, groups: seq<Key>, k: Key, x: string)
    requires NoLeak(s)
    requires var rows := Rebuilt(s.rows, s.log, groups); k in rows && x in rows[k].entities
    ensures FromGroup(s.log, k, x)
  {
    RebuiltRow(s.rows, s.log, groups, k);
    RefoldSome(s.log, k);
    if k in groups && InGroup(s.log, k) != [] {
      RollupFromGroup(s.log, k, x);
    }
  }

  lemma EnricherGrows(more: seq<string>, salience: int)
    ensures forall e: Event, y | y in e.entities :: y in Enricher(more, salience)(e).entities
  {
  }

  lemma ReaderGrows(longform: bool)
    ensures forall e: Event, y | y in e.entities :: y in Reader(longform)(e).entities
  {
  }

  lemma StepKeepsScopes(s: State, step: Step)
    requires NoLeak(s)
    ensures NoLeak(Take(s, step))
  {
    var t := Take(s, step);
    forall k, x | k in t.rows && x in t.rows[k].entities ensures FromGroup(t.log, k, x) {
      match step {
        case Ingest(e) => IngestKeepsScopes(s, e, k, x);
        case Enrich(id, more, salience) =>
          EnricherInPlace(more, salience);
          EnricherGrows(more, salience);
          ChangeKeepsScopes(s, Enricher(more, salience), id, k, x);
        case FullText(e, longform) =>
          ReaderInPlace(longform);
          ReaderGrows(longform);
          ChangeKeepsScopes(s, Reader(longform), e.id, k, x);
        case Build(scope, upTo, groups) => BuildKeepsScopes(s, groups, k, x);
      }
    }
  }

  /** Any step at all, in whatever order and however late. */
  ghost predicate Moves(s: State, t: State) {
    exists step :: t == Take(s, step)
  }

  ghost function AnyStep(): (State, State) -> bool {
    (s, t) => Moves(s, t)
  }

  ghost function Leakless(): State -> bool {
    s => NoLeak(s)
  }

  lemma StepsKeepScopes()
    ensures Runs.Preserves(AnyStep(), Leakless())
  {
    forall s, t | Leakless()(s) && AnyStep()(s, t) ensures Leakless()(t) {
      assert Moves(s, t);
      var step :| t == Take(s, step);
      StepKeepsScopes(s, step);
    }
  }

  /** From the empty store, no run of steps in any order, late enrichment included, lets an entity cross into another group's row. */
  lemma {:induction false} RunKeepsScopes(states: seq<State>)
    requires Runs.Run(AnyStep(), states) && states[0] == EMPTY
    ensures NoLeak(states[|states| - 1])
  {
    StepsKeepScopes();
    Runs.RunKeeps(AnyStep(), Leakless(), states);
  }

  /** A subscriber's view, over every such run: what a visible row shows was ingested as public or as the subscriber's own. */
  lemma {:induction false} VisibleRowsAreOwn(states: seq<State>, k: Key, x: string, subscriber: Uuid)
    requires Runs.Run(AnyStep(), states) && states[0] == EMPTY
    requires var s := states[|states| - 1]; k in s.rows && x in s.rows[k].entities && VisibleTo(k.scope, subscriber)
    ensures exists e | e in states[|states| - 1].log :: x in e.entities && VisibleTo(e.scope, subscriber)
  {
    RunKeepsScopes(states);
    var e :| e in states[|states| - 1].log && KeyOf(e) == k && x in e.entities;
  }
}
