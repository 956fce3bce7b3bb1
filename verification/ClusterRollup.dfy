/** Folding a within-source group of events into a cluster row. */
module ClusterRollup {
  import opened Ordering
  import opened LinkModel

  datatype Scope = Public | Private(owner: Uuid)

  /** A logged event, as far as clustering reads it. */
  datatype Event = Event(
    id: Uuid, scope: Scope, source: SourceKind, groupKey: string, eventTime: Time, ingestTime: Time, title: string,
    links: seq<string>, entities: seq<string>, contentKind: ContentKind, severityHint: Option<int>, connectionId: Option<Uuid>)

  /** A cluster's identity; the scope is part of it. */
  datatype Key = Key(scope: Scope, source: SourceKind, groupKey: string)

  datatype Rollup = Rollup(
    title: string, link: Option<string>, firstEventTime: Time, lastEventTime: Time, entities: seq<string>, eventCount: nat,
    contentDepth: ContentKind, maxSeverity: Option<int>, connectionId: Option<Uuid>)

  function KeyOf(e: Event): Key {
    Key(e.scope, e.source, e.groupKey)
  }

  /** Public content is shared, private content is its owner's alone. */
  predicate VisibleTo(scope: Scope, subscriber: Uuid) {
    scope == Public || scope == Private(subscriber)
  }

  function Deeper(a: ContentKind, b: ContentKind): ContentKind {
    if DepthLe(a, b) then b else a
  }

  /** No hint ranks below any hint. */
  function Graver(a: Option<int>, b: Option<int>): Option<int> {
    if a.None? then b else if b.None? || b.value <= a.value then a else b
  }

  function Earlier(a: Time, b: Time): Time {
    if b < a then b else a
  }

  // ── The parts of a rollup ──

  function FirstTime(es: seq<Event>): Time
    requires es != []
  {
    if |es| == 1 then es[0].eventTime else Earlier(FirstTime(es[..|es| - 1]), es[|es| - 1].eventTime)
  }

  /** The latest event, the last of several at the same time. */
  function Latest(es: seq<Event>): Event
    requires es != []
  {
    var last := es[|es| - 1];
    if |es| == 1 then last
    else
      var earlier := Latest(es[..|es| - 1]);
      if last.eventTime >= earlier.eventTime then last else earlier
  }

  function AllEntities(es: seq<Event>): seq<string> {
    if es == [] then [] else AllEntities(es[..|es| - 1]) + es[|es| - 1].entities
  }

  function Depth(es: seq<Event>): ContentKind {
    if es == [] then Message else Deeper(Depth(es[..|es| - 1]), es[|es| - 1].contentKind)
  }

  function Severity(es: seq<Event>): Option<int> {
    if es == [] then None else Graver(Severity(es[..|es| - 1]), es[|es| - 1].severityHint)
  }

  function Primary(links: seq<string>): Option<string> {
    if links == [] then None else Some(links[0])
  }

  /** `None` for an empty group. */
  function RollupOf(es: seq<Event>): Option<Rollup> {
    if es == [] then None
    else
      var rep := Latest(es);
      Some(Rollup(rep.title, Primary(rep.links), FirstTime(es), rep.eventTime, Keys(StringLe, AllEntities(es)), |es|,
                  Depth(es), Severity(es), rep.connectionId))
  }

  /** The fold as it runs: one pass over mutable locals, entities sorted and de-duplicated at the end. */
  method Fold(es: seq<Event>) returns (r: Option<Rollup>)
    ensures r == RollupOf(es)
  {
    if es == [] {
      return None;
    }
    var rep, first := es[0], es[0].eventTime;
    var entities: seq<string> := [];
    var depth, severity: Option<int> := Message, None;
    for k := 0 to |es|
      invariant k == 0 ==> rep == es[0] && first == es[0].eventTime
      invariant k > 0 ==> rep == Latest(es[..k]) && first == FirstTime(es[..k])
      invariant entities == AllEntities(es[..k]) && depth == Depth(es[..k]) && severity == Severity(es[..k])
    {
      assert es[..k + 1][..k] == es[..k];
      var e := es[k];
      if e.eventTime >= rep.eventTime {
        rep := e;
      }
      first := Earlier(first, e.eventTime);
      entities := entities + e.entities;
      depth := Deeper(depth, e.contentKind);
      severity := Graver(severity, e.severityHint);
    }
    assert es[..|es|] == es;
    r := Some(Rollup(rep.title, Primary(rep.links), first, rep.eventTime, Keys(StringLe, entities), |es|, depth, severity,
                     rep.connectionId));
  }

  // ── What a rollup says of its events ──

  /** `k` is the last of the latest events. */
  ghost predicate LastLatest(es: seq<Event>, k: nat) {
    k < |es| && forall j | 0 <= j < |es| :: es[j].eventTime <= es[k].eventTime && (j > k ==> es[j].eventTime < es[k].eventTime)
  }

  lemma {:induction false} LatestMeaning(es: seq<Event>) returns (k: nat)
    requires es != []
    ensures LastLatest(es, k) && Latest(es) == es[k]
  {
    var n := |es| - 1;
    if n == 0 {
      k := 0;
    } else {
      k := LatestMeaning(es[..n]);
      if es[n].eventTime >= es[k].eventTime {
        k := n;
      }
    }
  }

  lemma {:induction false} FirstTimeMeaning(es: seq<Event>)
    requires es != []
    ensures (forall e | e in es :: FirstTime(es) <= e.eventTime) && exists e | e in es :: e.eventTime == FirstTime(es)
  {
    var n := |es| - 1;
    assert es == es[..n] + [es[n]] && es[n] in es;
    if n > 0 {
      FirstTimeMeaning(es[..n]);
      var e :| e in es[..n] && e.eventTime == FirstTime(es[..n]);
      assert e in es;
    }
  }

  lemma {:induction false} AllEntitiesMeaning(es: seq<Event>, x: string)
    ensures x in AllEntities(es) <==> exists e | e in es :: x in e.entities
  {
    if es != [] {
      var n := |es| - 1;
      assert es == es[..n] + [es[n]];
      AllEntitiesMeaning(es[..n], x);
    }
  }

  lemma {:induction false} DepthMeaning(es: seq<Event>)
    ensures (forall e | e in es :: DepthLe(e.contentKind, Depth(es)))
    ensures Depth(es) == Message || exists e | e in es :: e.contentKind == Depth(es)
  {
    if es != [] {
      var n := |es| - 1;
      assert es == es[..n] + [es[n]];
      DepthMeaning(es[..n]);
    }
  }

  /** `top` is the highest hint any of the events carries, or `None` when none carries any. */
  ghost predicate MostSevere(es: seq<Event>, top: Option<int>) {
    && (top.None? <==> forall e | e in es :: e.severityHint.None?)
    && (top.Some? ==> && (exists e | e in es :: e.severityHint == top)
                      && forall e | e in es && e.severityHint.Some? :: e.severityHint.value <= top.value)
  }

  lemma {:induction false} SeverityMeaning(es: seq<Event>)
    ensures MostSevere(es, Severity(es))
  {
    if es != [] {
      var n := |es| - 1;
      assert es == es[..n] + [es[n]];
      SeverityMeaning(es[..n]);
    }
  }

  /** The row of a nonempty group: its last latest event represents it, its span, entities, depth and severity cover all. */
  lemma RollupMeaning(es: seq<Event>) returns (k: nat)
    requires es != []
    ensures var r := RollupOf(es).value;
      && LastLatest(es, k) && r.title == es[k].title && r.link == Primary(es[k].links) && r.connectionId == es[k].connectionId
      && r.lastEventTime == es[k].eventTime && r.eventCount == |es|
      && (forall e | e in es :: r.firstEventTime <= e.eventTime && DepthLe(e.contentKind, r.contentDepth))
      && Ascending(StringLe, r.entities) && MostSevere(es, r.maxSeverity)
    ensures forall x :: x in RollupOf(es).value.entities <==> exists e | e in es :: x in e.entities
  {
    k := LatestMeaning(es);
    FirstTimeMeaning(es);
    DepthMeaning(es);
    SeverityMeaning(es);
    StringOrder();
    KeysAscending(StringLe, AllEntities(es));
    forall x ensures x in AllEntities(es) <==> exists e | e in es :: x in e.entities {
      AllEntitiesMeaning(es, x);
    }
  }
}
