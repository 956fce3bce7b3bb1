/** The cluster table as a cache of rollups, advanced by watermark builds while ingest, enrichment and full text interleave. */
module ClusterBuild {
  import opened Ordering
  import opened LinkModel
  import opened ClusterRollup

  /** The watermark before a first private build. */
  const EPOCH: Time := 0

  /** The event log, the cluster rows, and how far each scope's events have been built. */
  datatype State = State(log: seq<Event>, rows: map<Key, Rollup>, publicThrough: Time, privateThrough: map<Uuid, Time>)

  function Through(s: State, scope: Scope): Time {
    match scope
    case Public => s.publicThrough
    case Private(owner) => if owner in s.privateThrough then s.privateThrough[owner] else EPOCH
  }

  // ── Reads ──

  predicate TimeIdLe(x: Event, y: Event) {
    x.eventTime < y.eventTime || (x.eventTime == y.eventTime && x.id <= y.id)
  }

  function InGroup(log: seq<Event>, k: Key): (es: seq<Event>)
    ensures forall e :: e in es <==> e in log && KeyOf(e) == k
  {
    if log == [] then []
    else
      assert log == log[..|log| - 1] + [log[|log| - 1]];
      InGroup(log[..|log| - 1], k) + if KeyOf(log[|log| - 1]) == k then [log[|log| - 1]] else []
  }

  /** A group's events, in the order the rollup expects. */
  function GroupEvents(log: seq<Event>, k: Key): seq<Event> {
    Sort(TimeIdLe, InGroup(log, k))
  }

  /** A group some event ingested in `(lo, hi]` has touched. */
  predicate Dirty(log: seq<Event>, scope: Scope, lo: Time, hi: Time, k: Key) {
    k.scope == scope && exists e | e in log :: KeyOf(e) == k && lo < e.ingestTime <= hi
  }

  // ── Writes ──

  /** A group's row, folded afresh; an empty group has none. */
  function Refold(log: seq<Event>): Key -> Option<Rollup> {
    k => RollupOf(GroupEvents(log, k))
  }

  function WithRow<V>(rows: map<Key, V>, k: Key, r: Option<V>): map<Key, V> {
    if r.Some? then rows[k := r.value] else rows
  }

  function Refolded<V>(rows: map<Key, V>, fold: Key -> Option<V>, groups: seq<Key>): map<Key, V> {
    if groups == [] then rows
    else WithRow(Refolded(rows, fold, groups[..|groups| - 1]), groups[|groups| - 1], fold(groups[|groups| - 1]))
  }

  /** The rows after rebuilding the groups in turn. */
  function Rebuilt(rows: map<Key, Rollup>, log: seq<Event>, groups: seq<Key>): map<Key, Rollup> {
    Refolded(rows, Refold(log), groups)
  }

  function Later(a: Time, b: Time): Time {
    if b > a then b else a
  }

  /** Unions the grounded entities in, kept sorted and de-duplicated; a positive salience can only raise the hint. */
  function Enriched(e: Event, more: seq<string>, salience: int): Event {
    var hint := if e.severityHint.Some? then e.severityHint.value else 0;
    e.(entities := Keys(StringLe, e.entities + more),
       severityHint := if salience > 0 then Some(if salience > hint then salience else hint) else e.severityHint)
  }

  /** An article long enough raises the event to longform. */
  function Read(e: Event, longform: bool): Event {
    if longform then e.(contentKind := Longform) else e
  }

  function Apply(f: Event -> Event, id: Uuid, log: seq<Event>): (r: seq<Event>)
    ensures |r| == |log| && forall i | 0 <= i < |log| :: r[i] == if log[i].id == id then f(log[i]) else log[i]
  {
    seq(|log|, i requires 0 <= i < |log| => if log[i].id == id then f(log[i]) else log[i])
  }

  function Enricher(more: seq<string>, salience: int): Event -> Event {
    (e: Event) => Enriched(e, more, salience)
  }

  function Reader(longform: bool): Event -> Event {
    (e: Event) => Read(e, longform)
  }

  function Raised(rows: map<Key, Rollup>, k: Key, longform: bool): map<Key, Rollup> {
    if k in rows && longform then rows[k := rows[k].(contentDepth := Longform)] else rows
  }

  lemma {:induction false} RefoldedNext<V>(rows: map<Key, V>, fold: Key -> Option<V>, groups: seq<Key>, i: nat)
    requires i < |groups|
    ensures Refolded(rows, fold, groups[..i + 1]) == WithRow(Refolded(rows, fold, groups[..i]), groups[i], fold(groups[i]))
  {
    assert groups[..i + 1][..i] == groups[..i];
  }

  /** The log and the cache, and the steps that change them. */
  class ClusterStore {
    var log: seq<Event>
    var rows: map<Key, Rollup>
    var publicThrough: Time
    var privateThrough: map<Uuid, Time>

    function Value(): State
      reads this
    {
      State(log, rows, publicThrough, privateThrough)
    }

    constructor (start: Time)
      ensures Value() == State([], map[], start, map[])
    {
      log, rows, publicThrough, privateThrough := [], map[], start, map[];
    }

    method Ingest(e: Event)
      modifies this
      ensures Value() == old(Value()).(log := old(log) + [e])
    {
      log := log + [e];
    }

    /** Nothing here asks whether the event has already been built into a cluster. */
    method ApplyEnrichment(id: Uuid, more: seq<string>, salience: int)
      modifies this
      ensures Value() == old(Value()).(log := Apply(Enricher(more, salience), id, old(log)))
    {
      log := Apply(Enricher(more, salience), id, log);
    }

    method StoreFullText(e: Event, longform: bool)
      modifies this
      ensures Value() == old(Value()).(log := Apply(Reader(longform), e.id, old(log)), rows := Raised(old(rows), KeyOf(e), longform))
    {
      log := Apply(Reader(longform), e.id, log);
      rows := Raised(rows, KeyOf(e), longform);
    }

    method DirtyGroups(scope: Scope, lo: Time, hi: Time) returns (groups: seq<Key>)
      ensures Distinct(groups) && forall k :: k in groups <==> Dirty(log, scope, lo, hi, k)
    {
      groups := [];
      for i := 0 to |log|
        invariant Distinct(groups) && forall k :: k in groups <==> Dirty(log[..i], scope, lo, hi, k)
      {
        DirtyNext(log, i, scope, lo, hi);
        var e := log[i];
        if e.scope == scope && lo < e.ingestTime <= hi && KeyOf(e) !in groups {
          groups := groups + [KeyOf(e)];
        }
      }
      assert log[..|log|] == log;
    }

    method BuildGroups(groups: seq<Key>)
      modifies this`rows
      ensures rows == Rebuilt(old(rows), log, groups)
    {
      for i := 0 to |groups|
        invariant rows == Rebuilt(old(rows), log, groups[..i])
      {
        RefoldedNext(old(rows), Refold(log), groups, i);
        var r := Fold(GroupEvents(log, groups[i]));
        rows := WithRow(rows, groups[i], r);
      }
      assert groups[..|groups|] == groups;
    }

    /** Rebuilds the public groups ingested up to `hwm`, the present less the enrichment grace, and advances the watermark. */
    method Build(hwm: Time) returns (ghost groups: seq<Key>)
      modifies this
      ensures forall k :: k in groups <==> Dirty(old(log), Public, old(publicThrough), hwm, k)
      ensures Value() == old(Value()).(rows := Rebuilt(old(rows), old(log), groups), publicThrough := Later(old(publicThrough), hwm))
    {
      var dirty := DirtyGroups(Public, publicThrough, hwm);
      groups := dirty;
      BuildGroups(dirty);
      publicThrough := Later(publicThrough, hwm);
    }

    /** The same for one subscriber's private groups, up to the present. */
    method BuildPrivate(owner: Uuid, now: Time) returns (ghost groups: seq<Key>)
      modifies this
      ensures var lo := Through(old(Value()), Private(owner));
        && (forall k :: k in groups <==> Dirty(old(log), Private(owner), lo, now, k))
        && Value() == old(Value()).(rows := Rebuilt(old(rows), old(log), groups), privateThrough := old(privateThrough)[owner := Later(lo, now)])
    {
      var lo := if owner in privateThrough then privateThrough[owner] else EPOCH;
      var dirty := DirtyGroups(Private(owner), lo, now);
      groups := dirty;
      BuildGroups(dirty);
      privateThrough := privateThrough[owner := Later(lo, now)];
    }
  }

  lemma DirtyNext(log: seq<Event>, i: nat, scope: Scope, lo: Time, hi: Time)
    requires i < |log|
    ensures forall k :: Dirty(log[..i + 1], scope, lo, hi, k) <==> (Dirty(log[..i], scope, lo, hi, k) || (k == KeyOf(log[i]) && k.scope == scope && lo < log[i].ingestTime <= hi))
  {
    assert log[..i + 1] == log[..i] + [log[i]];
  }
}
