/** Appending to the event log: deduplicated on identity, written scope by scope, with the cursor moved last. */
module Ingest {
  import opened Ordering
  import opened LinkModel
  import opened ClusterRollup

  /** What a connector yields, before the scope is decided. */
  datatype Builder = Builder(fingerprint: nat, isPrivate: bool, content: nat)

  datatype NewEvent = NewEvent(fingerprint: nat, scope: Scope, connection: Uuid, content: nat)

  /** What the unique constraint ranges over. */
  datatype Identity = Identity(fingerprint: nat, scope: Scope)

  function IdentityOf(e: NewEvent): Identity {
    Identity(e.fingerprint, e.scope)
  }

  /** The scope comes from the connection's owner, never from the payload. */
  function Finalize(b: Builder, connection: Uuid, owner: Uuid): NewEvent {
    NewEvent(b.fingerprint, if b.isPrivate then Private(owner) else Public, connection, b.content)
  }

  function FinalizeAll(bs: seq<Builder>, connection: Uuid, owner: Uuid): (es: seq<NewEvent>)
    ensures |es| == |bs| && forall k | 0 <= k < |bs| :: es[k] == Finalize(bs[k], connection, owner)
  {
    seq(|bs|, k requires 0 <= k < |bs| => Finalize(bs[k], connection, owner))
  }

  predicate Known(log: seq<NewEvent>, id: Identity) {
    exists e | e in log :: IdentityOf(e) == id
  }

  function InsertOnce(log: seq<NewEvent>, e: NewEvent): seq<NewEvent> {
    if Known(log, IdentityOf(e)) then log else log + [e]
  }

  /** Appending one event at a time: the reference. */
  function AppendAll(log: seq<NewEvent>, es: seq<NewEvent>): seq<NewEvent> {
    if es == [] then log else InsertOnce(AppendAll(log, es[..|es| - 1]), es[|es| - 1])
  }

  function InScope(es: seq<NewEvent>, scope: Scope): (r: seq<NewEvent>)
    ensures forall e :: e in r <==> e in es && e.scope == scope
  {
    if es == [] then []
    else
      assert es == es[..|es| - 1] + [es[|es| - 1]];
      InScope(es[..|es| - 1], scope) + if es[|es| - 1].scope == scope then [es[|es| - 1]] else []
  }

  /** The log holds each identity at most once. */
  ghost predicate OncePerIdentity(log: seq<NewEvent>) {
    forall i, j | 0 <= i < j < |log| :: IdentityOf(log[i]) != IdentityOf(log[j])
  }

  /** The first of the events with an identity. */
  function First(es: seq<NewEvent>, id: Identity): Option<NewEvent> {
    if es == [] then None
    else
      var earlier := First(es[..|es| - 1], id);
      if earlier.Some? then earlier else if IdentityOf(es[|es| - 1]) == id then Some(es[|es| - 1]) else None
  }

  lemma {:induction false} FirstMeaning(es: seq<NewEvent>, id: Identity)
    ensures First(es, id).None? <==> forall e | e in es :: IdentityOf(e) != id
    ensures First(es, id).Some? ==> First(es, id).value in es && IdentityOf(First(es, id).value) == id
  {
    if es != [] {
      assert es == es[..|es| - 1] + [es[|es| - 1]];
      FirstMeaning(es[..|es| - 1], id);
    }
  }

  /** What appending leaves in the log: what was there, and the first event of every identity that was not. */
  lemma {:induction false} AppendedEvents(log: seq<NewEvent>, es: seq<NewEvent>, e: NewEvent)
    ensures e in AppendAll(log, es) <==> e in log || (!Known(log, IdentityOf(e)) && First(es, IdentityOf(e)) == Some(e))
  {
    if es != [] {
      var front, last := es[..|es| - 1], es[|es| - 1];
      AppendedEvents(log, front, e);
      KnownAfter(log, front, IdentityOf(last));
      FirstMeaning(front, IdentityOf(last));
    }
  }

  lemma {:induction false} KnownAfter(log: seq<NewEvent>, es: seq<NewEvent>, id: Identity)
    ensures Known(AppendAll(log, es), id) <==> Known(log, id) || First(es, id).Some?
  {
    if es != [] {
      var front, last := es[..|es| - 1], es[|es| - 1];
      var earlier := AppendAll(log, front);
      KnownAfter(log, front, id);
      KnownAfter(log, front, IdentityOf(last));
      assert Known(earlier + [last], id) <==> Known(earlier, id) || IdentityOf(last) == id by {
        if e :| e in earlier && IdentityOf(e) == id { assert e in earlier + [last]; }
        assert last in earlier + [last];
      }
    }
  }

  lemma {:induction false} AppendKeepsOnce(log: seq<NewEvent>, es: seq<NewEvent>)
    requires OncePerIdentity(log)
    ensures OncePerIdentity(AppendAll(log, es)) && |AppendAll(log, es)| >= |log|
  {
    if es != [] {
      AppendKeepsOnce(log, es[..|es| - 1]);
    }
  }

  lemma {:induction false} FirstInScope(es: seq<NewEvent>, id: Identity)
    ensures First(InScope(es, id.scope), id) == First(es, id)
  {
    if es != [] {
      var front, last := es[..|es| - 1], es[|es| - 1];
      FirstInScope(front, id);
      var mine := InScope(front, id.scope);
      if last.scope == id.scope {
        assert (mine + [last])[..|mine|] == mine;
      } else {
        assert mine + [] == mine;
      }
    }
  }

  /** The log after the events of some scopes have been written. */
  ghost predicate WrittenFor(log: seq<NewEvent>, before: seq<NewEvent>, es: seq<NewEvent>, done: set<Scope>) {
    && OncePerIdentity(log) && |log| >= |before|
    && forall e :: e in log <==> (e in before || (e.scope in done && !Known(before, IdentityOf(e)) && First(es, IdentityOf(e)) == Some(e)))
  }

  lemma KnownInScope(log: seq<NewEvent>, before: seq<NewEvent>, es: seq<NewEvent>, done: set<Scope>, id: Identity)
    requires WrittenFor(log, before, es, done) && id.scope !in done
    ensures Known(log, id) <==> Known(before, id)
  {
    if e :| e in before && IdentityOf(e) == id { assert e in log; }
    if e :| e in log && IdentityOf(e) == id { assert e in before; }
  }

  /** Writing one more scope's events, in their order. */
  lemma {:induction false} WriteScope(log: seq<NewEvent>, before: seq<NewEvent>, es: seq<NewEvent>, done: set<Scope>, scope: Scope)
    requires WrittenFor(log, before, es, done) && scope !in done
    ensures WrittenFor(AppendAll(log, InScope(es, scope)), before, es, done + {scope})
  {
    var next := AppendAll(log, InScope(es, scope));
    AppendKeepsOnce(log, InScope(es, scope));
    forall e ensures e in next <==> (e in before || (e.scope in done + {scope} && !Known(before, IdentityOf(e)) && First(es, IdentityOf(e)) == Some(e))) {
      var id := IdentityOf(e);
      AppendedEvents(log, InScope(es, scope), e);
      if e.scope == scope {
        FirstInScope(es, id);
        KnownInScope(log, before, es, done, id);
      } else {
        FirstMeaning(InScope(es, scope), id);
      }
    }
  }

  /** Once every scope is written, the log is the reference's up to order, with as many events. */
  lemma {:induction false} AllScopesWritten(log: seq<NewEvent>, before: seq<NewEvent>, es: seq<NewEvent>, done: set<Scope>)
    requires WrittenFor(log, before, es, done) && OncePerIdentity(before) && forall e | e in es :: e.scope in done
    ensures multiset(log) == multiset(AppendAll(before, es)) && |log| == |AppendAll(before, es)|
  {
    var reference := AppendAll(before, es);
    AppendKeepsOnce(before, es);
    forall e ensures e in log <==> e in reference {
      AppendedEvents(before, es, e);
      FirstMeaning(es, IdentityOf(e));
    }
    assert Distinct(log) && Distinct(reference);
    DistinctPermuted(log, reference);
    assert |multiset(log)| == |multiset(reference)|;
  }

  class EventLog {
    var log: seq<NewEvent>

    constructor ()
      ensures log == []
    {
      log := [];
    }

    /** Inserts unless the identity is there already. */
    method InsertEvent(e: NewEvent) returns (inserted: bool)
      modifies this
      ensures log == InsertOnce(old(log), e) && (inserted <==> !Known(old(log), IdentityOf(e)))
    {
      inserted := !Known(log, IdentityOf(e));
      if inserted {
        log := log + [e];
      }
    }

    /** One scope's events, in one transaction. */
    method InsertGroup(es: seq<NewEvent>) returns (inserted: nat)
      modifies this
      ensures log == AppendAll(old(log), es) && inserted == |log| - |old(log)|
    {
      inserted := 0;
      for k := 0 to |es|
        invariant log == AppendAll(old(log), es[..k]) && inserted == |log| - |old(log)|
      {
        assert es[..k + 1][..k] == es[..k];
        var isNew := InsertEvent(es[k]);
        if isNew {
          inserted := inserted + 1;
        }
      }
      assert es[..|es|] == es;
    }

    /**
     * Groups the events by scope and writes the groups in any order: the same log, up to order, and the same
     * counts as appending one event at a time.
     */
    method AppendScoped(es: seq<NewEvent>) returns (inserted: nat, deduplicated: int)
      requires OncePerIdentity(log)
      modifies this
      ensures OncePerIdentity(log) && multiset(log) == multiset(AppendAll(old(log), es))
      ensures inserted == |AppendAll(old(log), es)| - |old(log)| && inserted + deduplicated == |es|
    {
      var groups := GroupByScope(es);
      inserted := 0;
      var rest, done: set<Scope> := groups.Keys, {};
      while rest != {}
        invariant done + rest == groups.Keys && done !! rest
        invariant WrittenFor(log, old(log), es, done) && inserted == |log| - |old(log)|
        decreases rest
      {
        var scope :| scope in rest;
        WriteScope(log, old(log), es, done, scope);
        var n := InsertGroup(groups[scope]);
        inserted := inserted + n;
        rest, done := rest - {scope}, done + {scope};
      }
      AllScopesWritten(log, old(log), es, done);
      deduplicated := |es| - inserted;
    }
  }

  /** Each scope that occurs, with its events in order. */
  ghost predicate ByScope(groups: map<Scope, seq<NewEvent>>, es: seq<NewEvent>) {
    && (forall scope | scope in groups :: groups[scope] != [] && groups[scope] == InScope(es, scope))
    && (forall e | e in es :: e.scope in groups)
  }

  lemma {:induction false} InScopeSnoc(es: seq<NewEvent>, e: NewEvent, scope: Scope)
    ensures InScope(es + [e], scope) == if e.scope == scope then InScope(es, scope) + [e] else InScope(es, scope)
  {
    assert (es + [e])[..|es|] == es;
    assert InScope(es, scope) + [] == InScope(es, scope);
  }

  lemma {:induction false} NoneInScope(es: seq<NewEvent>, scope: Scope)
    requires forall e | e in es :: e.scope != scope
    ensures InScope(es, scope) == []
  {
    if es != [] {
      assert es[|es| - 1] in es;
      NoneInScope(es[..|es| - 1], scope);
    }
  }

  lemma ByScopeNext(groups: map<Scope, seq<NewEvent>>, es: seq<NewEvent>, e: NewEvent)
    requires ByScope(groups, es)
    ensures ByScope(groups[e.scope := (if e.scope in groups then groups[e.scope] else []) + [e]], es + [e])
  {
    var next := groups[e.scope := (if e.scope in groups then groups[e.scope] else []) + [e]];
    if e.scope !in groups {
      NoneInScope(es, e.scope);
    }
    forall scope | scope in next ensures next[scope] != [] && next[scope] == InScope(es + [e], scope) {
      InScopeSnoc(es, e, scope);
    }
  }

  method GroupByScope(es: seq<NewEvent>) returns (groups: map<Scope, seq<NewEvent>>)
    ensures ByScope(groups, es)
  {
    groups := map[];
    for k := 0 to |es|
      invariant ByScope(groups, es[..k])
    {
      assert es[..k + 1] == es[..k] + [es[k]];
      ByScopeNext(groups, es[..k], es[k]);
      groups := groups[es[k].scope := (if es[k].scope in groups then groups[es[k].scope] else []) + [es[k]]];
    }
    assert es[..|es|] == es;
  }
}
