/** What a settled row says of the log, and what enrichment and full text do to an event, field by field. */
module ClusterMeaning {
  import opened Ordering
  import opened LinkModel
  import opened ClusterRollup
  import opened ClusterBuild
  import opened ClusterLaws
  import Runs

  /** Same scope, same source, same group. */
  predicate Belongs(e: Event, k: Key) {
    e.scope == k.scope && e.source == k.source && e.groupKey == k.groupKey
  }

  function Of(k: Key): Event -> bool {
    (e: Event) => Belongs(e, k)
  }

  /** The log's events of a group. */
  function EventsOf(log: seq<Event>, k: Key): (es: seq<Event>)
    ensures forall e :: e in es <==> e in log && Belongs(e, k)
  {
    Filter(Of(k), log)
  }

  lemma {:induction false} GroupIsFilter(log: seq<Event>, k: Key)
    ensures InGroup(log, k) == EventsOf(log, k)
  {
    if log != [] {
      var front, last := log[..|log| - 1], log[|log| - 1];
      assert log == front + [last];
      GroupIsFilter(front, k);
      FilterAppend(Of(k), front, [last]);
      FilterCons(Of(k), last, []);
      assert Filter(Of(k), []) == [];
    }
  }

  /** The latest event, on equal times the one with the greatest id. */
  ghost predicate Newest(es: seq<Event>, e: Event) {
    e in es && forall x | x in es :: x.eventTime < e.eventTime || (x.eventTime == e.eventTime && x.id <= e.id)
  }

  ghost predicate Deepest(es: seq<Event>, depth: ContentKind) {
    && (depth == Longform <==> exists e | e in es :: e.contentKind == Longform)
    && (depth == Message <==> forall e | e in es :: e.contentKind == Message)
  }

  /** The row sums the group's events up. */
  ghost predicate SumsUp(row: Rollup, es: seq<Event>) {
    && row.eventCount == |es| && Deepest(es, row.contentDepth) && MostSevere(es, row.maxSeverity)
    && (exists e :: Newest(es, e) && Represents(row, e))
    && (forall e | e in es :: row.firstEventTime <= e.eventTime) && (exists e | e in es :: e.eventTime == row.firstEventTime)
    && Ascending(StringLe, row.entities) && forall x :: x in row.entities <==> exists e | e in es :: x in e.entities
  }

  /** Title, first link, connection and last time are the event's. */
  predicate Represents(row: Rollup, e: Event) {
    && row.title == e.title && row.connectionId == e.connectionId && row.lastEventTime == e.eventTime
    && row.link == if e.links == [] then None else Some(e.links[0])
  }

  lemma TimeIdTotal()
    ensures Total(TimeIdLe)
  {
  }

  lemma {:induction false} DepthIs(es: seq<Event>)
    ensures Deepest(es, Depth(es))
  {
    if es != [] {
      var n := |es| - 1;
      assert es == es[..n] + [es[n]];
      DepthIs(es[..n]);
    }
  }

  lemma LastLatestNewest(es: seq<Event>, k: nat)
    requires Sorted(TimeIdLe, es) && LastLatest(es, k)
    ensures Newest(es, es[k])
  {
    forall x | x in es ensures x.eventTime < es[k].eventTime || (x.eventTime == es[k].eventTime && x.id <= es[k].id) {
      var j :| 0 <= j < |es| && es[j] == x;
      if j < k {
        assert TimeIdLe(es[j], es[k]);
      }
    }
  }

  /** In the order of time and id, the fold sums up. */
  lemma RollupSumsUp(es: seq<Event>)
    requires es != [] && Sorted(TimeIdLe, es)
    ensures SumsUp(RollupOf(es).value, es)
  {
    var k := RollupMeaning(es);
    LastLatestNewest(es, k);
    DepthIs(es);
    FirstTimeMeaning(es);
    assert Represents(RollupOf(es).value, es[k]);
  }

  /** Summing up does not look at the order of the events. */
  lemma SumsUpPermuted(row: Rollup, es: seq<Event>, fs: seq<Event>)
    requires SumsUp(row, es) && |es| == |fs| && forall e :: e in es <==> e in fs
    ensures SumsUp(row, fs)
  {
    var e :| Newest(es, e) && Represents(row, e);
    assert Newest(fs, e);
  }

  lemma FreshSumsUp(rows: map<Key, Rollup>, log: seq<Event>, k: Key)
    requires FreshRow(rows, log, k) && EventsOf(log, k) != []
    ensures SumsUp(rows[k], EventsOf(log, k))
  {
    TimeIdTotal();
    SortSorted(TimeIdLe, InGroup(log, k));
    SortMembers(TimeIdLe, InGroup(log, k));
    GroupIsFilter(log, k);
    RollupSumsUp(GroupEvents(log, k));
    SumsUpPermuted(rows[k], GroupEvents(log, k), EventsOf(log, k));
  }

  /** In every reachable state, the row of a group built past in full sums up exactly the group's events. */
  lemma SettledRowSumsUp(states: seq<State>, k: Key)
    requires Run(states) && states[0] == EMPTY
    requires var s := states[|states| - 1];
      EventsOf(s.log, k) != [] && forall e | e in EventsOf(s.log, k) :: e.ingestTime <= Through(s, k.scope)
    ensures var s := states[|states| - 1]; k in s.rows && SumsUp(s.rows[k], EventsOf(s.log, k))
  {
    var s := states[|states| - 1];
    EmptyInSync();
    RunKeepsSync(states);
    GroupIsFilter(s.log, k);
    assert Settled(s, k) && Agrees(s, k);
    FreshSumsUp(s.rows, s.log, k);
  }

  /** A subscriber's first private build sums up every private group of theirs with an event logged since the epoch. */
  lemma FirstBuildCovers(s: State, owner: Uuid, upTo: Time, groups: seq<Key>, k: Key, e: Event)
    requires owner !in s.privateThrough && Enabled(s, Build(Private(owner), upTo, groups))
    requires k.scope == Private(owner) && e in s.log && Belongs(e, k) && 0 < e.ingestTime <= upTo
    ensures var t := Take(s, Build(Private(owner), upTo, groups)); t.log == s.log && k in t.rows && SumsUp(t.rows[k], EventsOf(s.log, k))
  {
    assert KeyOf(e) == k && e in InGroup(s.log, k) && e in EventsOf(s.log, k);
    assert Dirty(s.log, k.scope, Through(s, k.scope), upTo, k);
    RebuiltFresh(s.rows, s.log, groups, k);
    FreshSumsUp(Rebuilt(s.rows, s.log, groups), s.log, k);
  }

  /** Only a build of its own scope moves a watermark, and only forward: to the end of the range, or not at all where it is past that. */
  lemma WatermarkForward(s: State, step: Step, scope: Scope)
    ensures var before, after := Through(s, scope), Through(Take(s, step), scope);
      && before <= after && (step.Build? && step.scope == scope ==> step.upTo <= after && (after == step.upTo || after == before))
      && (!step.Build? || step.scope != scope ==> after == before)
  {
  }

  // ── Writes to one event ──

  /** Everything but entities and severity is as it was. */
  predicate SameButEnrichment(e: Event, was: Event) {
    e.(entities := was.entities, severityHint := was.severityHint) == was
  }

  /** The entities gain the new ones, sorted and once each; a positive salience raises the hint to at least itself. */
  ghost predicate EnrichedWith(e: Event, was: Event, more: seq<string>, salience: int) {
    && SameButEnrichment(e, was) && Ascending(StringLe, e.entities)
    && (forall x :: x in e.entities <==> x in was.entities || x in more)
    && (salience <= 0 ==> e.severityHint == was.severityHint)
    && (salience > 0 ==> RaisedTo(e.severityHint, was.severityHint, salience))
  }

  /** The higher of the earlier hint and the salience. */
  predicate RaisedTo(hint: Option<int>, was: Option<int>, salience: int) {
    && hint.Some? && hint.value >= salience && (was.Some? ==> hint.value >= was.value)
    && (hint.value == salience || hint == was)
  }

  /** Enrichment changes the one event, and nothing else in the log. */
  lemma EnrichmentMeaning(log: seq<Event>, id: Uuid, more: seq<string>, salience: int, i: nat)
    requires i < |log|
    ensures var after := Apply(Enricher(more, salience), id, log);
      |after| == |log| && if log[i].id == id then EnrichedWith(after[i], log[i], more, salience) else after[i] == log[i]
  {
    StringOrder();
    KeysAscending(StringLe, log[i].entities + more);
  }

  /** A long article makes its event longform and, if its group has a row, that row; a short one changes neither. */
  lemma FullTextMeaning(s: State, e: Event, longform: bool, i: nat, k: Key)
    requires i < |s.log|
    ensures var t := Take(s, FullText(e, longform));
      && |t.log| == |s.log|
      && t.log[i] == (if longform && s.log[i].id == e.id then s.log[i].(contentKind := Longform) else s.log[i])
      && (k in t.rows <==> k in s.rows)
      && (k in s.rows ==> t.rows[k] == if longform && Belongs(e, k) then s.rows[k].(contentDepth := Longform) else s.rows[k])
  {
  }

  /** An entity a row shows comes from an event of the row's group, and the row is visible exactly to those the event was meant for. */
  lemma {:induction false} SeenIffAllowed(states: seq<State>, k: Key, x: string, subscriber: Uuid)
    requires Runs.Run(AnyStep(), states) && states[0] == EMPTY
    requires var s := states[|states| - 1]; k in s.rows && x in s.rows[k].entities
    ensures exists e | e in states[|states| - 1].log && Belongs(e, k) && x in e.entities ::
      VisibleTo(k.scope, subscriber) <==> e.scope == Public || e.scope == Private(subscriber)
  {
    RunKeepsScopes(states);
    var e :| e in states[|states| - 1].log && KeyOf(e) == k && x in e.entities;
    assert Belongs(e, k);
  }
}
