/** Where each logged event came from, whose it is, and what makes two events the same, in the terms of the sources. */
module IngestMeaning {
  import opened LinkModel
  import opened ClusterRollup
  import opened Ingest
  import opened IngestLaws
  import Runs

  /** A run together with the steps it took. */
  ghost predicate Trace(world: World, states: seq<State>, steps: seq<Step>) {
    && |states| == |steps| + 1
    && forall k | 0 <= k < |steps| :: Enabled(states[k], steps[k]) && states[k + 1] == Take(world, states[k], steps[k])
  }

  lemma TraceFront(world: World, states: seq<State>, steps: seq<Step>, n: nat)
    requires Trace(world, states, steps) && n <= |steps|
    ensures Trace(world, states[..n + 1], steps[..n])
  {
  }

  lemma {:induction false} TraceIsRun(world: World, states: seq<State>, steps: seq<Step>)
    requires Trace(world, states, steps)
    ensures Run(world, states)
  {
    if steps != [] {
      var n := |steps| - 1;
      TraceFront(world, states, steps, n);
      TraceIsRun(world, states[..n + 1], steps[..n]);
      assert Next(world, states[n], states[n + 1]);
      Runs.RunOn(Steps(world), states[..n + 1], states[n + 1]);
      assert states[..n + 1] + [states[n + 1]] == states;
    }
  }

  // ── Provenance ──

  /** The connection yielded the item, in its feed or in a webhook call. */
  ghost predicate Came(world: World, steps: seq<Step>, connection: Uuid, b: Builder) {
    (exists k: nat :: world.feed(connection, k) == b) || exists n: nat :: CameByHook(steps, n, connection, b)
  }

  ghost predicate CameByHook(steps: seq<Step>, n: nat, connection: Uuid, b: Builder) {
    n < |steps| && steps[n].Webhook? && steps[n].connection == connection && b in steps[n].builders
  }

  /** The event is the item: a private one belongs to the owner of its connection alone, any other to everyone. */
  ghost predicate Records(world: World, e: NewEvent, b: Builder) {
    && e.fingerprint == b.fingerprint && e.content == b.content
    && (b.isPrivate ==> e.scope == Private(world.owner(e.connection))) && (!b.isPrivate ==> e.scope == Public)
  }

  ghost predicate Traced(world: World, steps: seq<Step>, e: NewEvent) {
    exists b :: Came(world, steps, e.connection, b) && Records(world, e, b)
  }

  ghost predicate AllTraced(world: World, steps: seq<Step>, s: State) {
    && (forall e | e in s.log :: Traced(world, steps, e))
    && (forall p, e | p in s.polls && e in s.polls[p].pending :: Traced(world, steps, e))
  }

  lemma TracedLater(world: World, steps: seq<Step>, step: Step, e: NewEvent)
    requires Traced(world, steps, e)
    ensures Traced(world, steps + [step], e)
  {
    var b :| Came(world, steps, e.connection, b) && Records(world, e, b);
    if n: nat :| CameByHook(steps, n, e.connection, b) {
      assert CameByHook(steps + [step], n, e.connection, b);
    }
    assert Came(world, steps + [step], e.connection, b);
  }

  lemma FetchedTraced(world: World, steps: seq<Step>, connection: Uuid, from: nat, upTo: nat, e: NewEvent)
    requires from <= upTo && e in Batch(world, connection, from, upTo)
    ensures Traced(world, steps, e)
  {
    var batch := Batch(world, connection, from, upTo);
    var k :| 0 <= k < |batch| && batch[k] == e;
    assert e == FeedEvent(world, connection, from + k);
    var b := world.feed(connection, from + k);
    assert Came(world, steps, connection, b) && Records(world, e, b);
  }

  lemma HookedTraced(world: World, steps: seq<Step>, connection: Uuid, bs: seq<Builder>, scope: Scope, e: NewEvent)
    requires e in FinalizeAll(bs, connection, world.owner(connection))
    ensures Traced(world, steps + [Webhook(connection, bs, scope)], e)
  {
    var es, all := FinalizeAll(bs, connection, world.owner(connection)), steps + [Webhook(connection, bs, scope)];
    var k :| 0 <= k < |es| && es[k] == e;
    assert bs[k] in bs && CameByHook(all, |steps|, connection, bs[k]);
    assert Came(world, all, e.connection, bs[k]) && Records(world, e, bs[k]);
  }

  lemma LogTraced(world: World, steps: seq<Step>, s: State, step: Step, e: NewEvent)
    requires AllTraced(world, steps, s) && Enabled(s, step) && e in Take(world, s, step).log
    ensures Traced(world, steps + [step], e)
  {
    if e in s.log {
      TracedLater(world, steps, step, e);
    } else {
      match step {
        case WriteScope(p, scope) =>
          AppendedFrom(s.log, InScope(s.polls[p].pending, scope), e);
          TracedLater(world, steps, step, e);
        case Webhook(c, bs, scope) =>
          AppendedFrom(s.log, InScope(FinalizeAll(bs, c, world.owner(c)), scope), e);
          HookedTraced(world, steps, c, bs, scope, e);
      }
    }
  }

  lemma PendingTraced(world: World, steps: seq<Step>, s: State, step: Step, p: nat, e: NewEvent)
    requires AllTraced(world, steps, s) && Enabled(s, step)
    requires var t := Take(world, s, step); p in t.polls && e in t.polls[p].pending
    ensures Traced(world, steps + [step], e)
  {
    if p in s.polls && e in s.polls[p].pending {
      TracedLater(world, steps, step, e);
    } else {
      match step {
        case Fetch(q, c, upTo) => FetchedTraced(world, steps + [step], c, CursorOf(s, c), upTo, e);
      }
    }
  }

  lemma StepTraced(world: World, steps: seq<Step>, s: State, step: Step)
    requires AllTraced(world, steps, s) && Enabled(s, step)
    ensures AllTraced(world, steps + [step], Take(world, s, step))
  {
    var t := Take(world, s, step);
    forall e | e in t.log ensures Traced(world, steps + [step], e) {
      LogTraced(world, steps, s, step, e);
    }
    forall p, e | p in t.polls && e in t.polls[p].pending ensures Traced(world, steps + [step], e) {
      PendingTraced(world, steps, s, step, p, e);
    }
  }

  lemma {:induction false} TraceTraced(world: World, states: seq<State>, steps: seq<Step>)
    requires Trace(world, states, steps) && states[0] == NOTHING
    ensures AllTraced(world, steps, states[|steps|])
  {
    if steps != [] {
      var n := |steps| - 1;
      TraceFront(world, states, steps, n);
      TraceTraced(world, states[..n + 1], steps[..n]);
      StepTraced(world, steps[..n], states[n], steps[n]);
      assert steps[..n] + [steps[n]] == steps;
    }
  }

  /**
   * Over every run from nothing, whatever crashes and overlaps: each logged event records an item its connection
   * yielded, and is private to the owner of that connection exactly when the item was marked private.
   */
  lemma EveryEventTraced(world: World, states: seq<State>, steps: seq<Step>, e: NewEvent)
    requires Trace(world, states, steps) && states[0] == NOTHING && e in states[|steps|].log
    ensures exists b :: Came(world, steps, e.connection, b) && Records(world, e, b)
  {
    TraceTraced(world, states, steps);
  }

  // ── Once, and not too little ──

  ghost predicate Logs(log: seq<NewEvent>, fingerprint: nat, scope: Scope) {
    exists e | e in log :: e.fingerprint == fingerprint && e.scope == scope
  }

  /** No two logged events share both content identity and scope; the same activity of two owners is two events. */
  lemma LoggedOnce(world: World, states: seq<State>, steps: seq<Step>, i: nat, j: nat)
    requires Trace(world, states, steps) && states[0] == NOTHING && i < j < |states[|steps|].log|
    ensures var log := states[|steps|].log; log[i].fingerprint != log[j].fingerprint || log[i].scope != log[j].scope
  {
    TraceIsRun(world, states, steps);
    RunIsExactlyOnce(world, states);
    assert IdentityOf(states[|steps|].log[i]) != IdentityOf(states[|steps|].log[j]);
  }

  /** Every item a saved cursor has passed is logged, in its own scope. */
  lemma PassedIsLogged(world: World, states: seq<State>, steps: seq<Step>, connection: Uuid, k: nat)
    requires Trace(world, states, steps) && states[0] == NOTHING
    requires connection in states[|steps|].cursor && k < states[|steps|].cursor[connection]
    ensures var b := world.feed(connection, k);
      Logs(states[|steps|].log, b.fingerprint, if b.isPrivate then Private(world.owner(connection)) else Public)
  {
    var s := states[|steps|];
    TraceIsRun(world, states, steps);
    RunIsExactlyOnce(world, states);
    assert Covered(world, s.log, connection, s.cursor[connection], []);
    var id := IdentityOf(FeedEvent(world, connection, k));
    var e :| e in s.log && IdentityOf(e) == id;
  }

  /** An item not seen before in its scope is logged by the webhook that brings it. */
  lemma HookIsLogged(world: World, s: State, connection: Uuid, bs: seq<Builder>, scope: Scope, b: Builder)
    requires b in bs && scope == if b.isPrivate then Private(world.owner(connection)) else Public
    ensures Logs(Take(world, s, Webhook(connection, bs, scope)).log, b.fingerprint, scope)
  {
    var es := FinalizeAll(bs, connection, world.owner(connection));
    var k :| 0 <= k < |bs| && bs[k] == b;
    AppendLogs(s.log, InScope(es, scope), es[k]);
  }

  lemma {:induction false} AppendLogs(log: seq<NewEvent>, es: seq<NewEvent>, e: NewEvent)
    requires e in es
    ensures Logs(AppendAll(log, es), e.fingerprint, e.scope)
  {
    KnownAfter(log, es, IdentityOf(e));
    FirstMeaning(es, IdentityOf(e));
    var x :| x in AppendAll(log, es) && IdentityOf(x) == IdentityOf(e);
  }
}
