/** Ingest over every run of polls, webhooks, crashes and re-polls: exactly once, and nothing before a cursor is missing. */
module IngestLaws {
  import opened LinkModel
  import opened ClusterRollup
  import opened Ingest
  import Runs

  /** The fixed surroundings: each connection's owner, and what its source yields position by position. */
  datatype World = World(owner: Uuid -> Uuid, feed: (Uuid, nat) -> Builder)

  function FeedEvent(world: World, connection: Uuid, k: nat): NewEvent {
    Finalize(world.feed(connection, k), connection, world.owner(connection))
  }

  /** A poll under way: what it fetched from the cursor on, and what it has yet to write. */
  datatype Poll = Poll(connection: Uuid, from: nat, upTo: nat, pending: seq<NewEvent>)

  datatype State = State(log: seq<NewEvent>, cursor: map<Uuid, nat>, polls: map<nat, Poll>)

  function CursorOf(s: State, connection: Uuid): nat {
    if connection in s.cursor then s.cursor[connection] else 0
  }

  function Batch(world: World, connection: Uuid, from: nat, upTo: nat): (es: seq<NewEvent>)
    requires from <= upTo
    ensures |es| == upTo - from && forall k | 0 <= k < |es| :: es[k] == FeedEvent(world, connection, from + k)
  {
    seq(upTo - from, k requires 0 <= k < upTo - from => FeedEvent(world, connection, from + k))
  }

  function Outside(es: seq<NewEvent>, scope: Scope): (r: seq<NewEvent>)
    ensures forall e :: e in r <==> e in es && e.scope != scope
  {
    if es == [] then []
    else
      assert es == es[..|es| - 1] + [es[|es| - 1]];
      Outside(es[..|es| - 1], scope) + if es[|es| - 1].scope != scope then [es[|es| - 1]] else []
  }

  datatype Step =
    | Fetch(poll: nat, connection: Uuid, upTo: nat)
    | WriteScope(poll: nat, scope: Scope)
    | Advance(poll: nat)
    | Drop(poll: nat)
    | Webhook(connection: Uuid, builders: seq<Builder>, scope: Scope)

  /** A poll fetches from the saved cursor, writes scope by scope, and moves the cursor only once nothing is pending. */
  predicate Enabled(s: State, step: Step) {
    match step
    case Fetch(p, c, upTo) => p !in s.polls && CursorOf(s, c) <= upTo
    case WriteScope(p, _) => p in s.polls
    case Advance(p) => p in s.polls && s.polls[p].pending == []
    case Drop(p) => p in s.polls
    case Webhook(_, _, _) => true
  }

  function Take(world: World, s: State, step: Step): State
    requires Enabled(s, step)
  {
    match step
    case Fetch(p, c, upTo) =>
      s.(polls := s.polls[p := Poll(c, CursorOf(s, c), upTo, Batch(world, c, CursorOf(s, c), upTo))])
    case WriteScope(p, scope) =>
      s.(log := AppendAll(s.log, InScope(s.polls[p].pending, scope)),
         polls := s.polls[p := s.polls[p].(pending := Outside(s.polls[p].pending, scope))])
    case Advance(p) => s.(cursor := s.cursor[s.polls[p].connection := s.polls[p].upTo], polls := s.polls - {p})
    case Drop(p) => s.(polls := s.polls - {p})
    case Webhook(c, bs, scope) => s.(log := AppendAll(s.log, InScope(FinalizeAll(bs, c, world.owner(c)), scope)))
  }

  // ── The invariant ──

  /** Everything of the connection's feed before position `n` is in the log, or still pending. */
  ghost predicate Covered(world: World, log: seq<NewEvent>, connection: Uuid, n: nat, pending: seq<NewEvent>) {
    forall k: nat | k < n :: Known(log, IdentityOf(FeedEvent(world, connection, k))) || FeedEvent(world, connection, k) in pending
  }

  ghost predicate Sound(world: World, s: State) {
    && OncePerIdentity(s.log)
    && (forall c | c in s.cursor :: Covered(world, s.log, c, s.cursor[c], []))
    && (forall p | p in s.polls :: Covered(world, s.log, s.polls[p].connection, s.polls[p].upTo, s.polls[p].pending))
  }

  lemma {:induction false} AppendCovers(world: World, log: seq<NewEvent>, es: seq<NewEvent>, connection: Uuid, n: nat, pending: seq<NewEvent>, rest: seq<NewEvent>)
    requires Covered(world, log, connection, n, pending) && forall e | e in pending :: e in es || e in rest
    ensures Covered(world, AppendAll(log, es), connection, n, rest)
  {
    forall k: nat | k < n
      ensures Known(AppendAll(log, es), IdentityOf(FeedEvent(world, connection, k))) || FeedEvent(world, connection, k) in rest
    {
      var e := FeedEvent(world, connection, k);
      KnownAfter(log, es, IdentityOf(e));
      FirstMeaning(es, IdentityOf(e));
    }
  }

  lemma FetchCovers(world: World, s: State, c: Uuid, upTo: nat)
    requires Sound(world, s) && CursorOf(s, c) <= upTo
    ensures Covered(world, s.log, c, upTo, Batch(world, c, CursorOf(s, c), upTo))
  {
    var from := CursorOf(s, c);
    var batch := Batch(world, c, from, upTo);
    forall k: nat | k < upTo ensures Known(s.log, IdentityOf(FeedEvent(world, c, k))) || FeedEvent(world, c, k) in batch {
      if k >= from {
        assert batch[k - from] == FeedEvent(world, c, k);
      } else {
        assert Covered(world, s.log, c, s.cursor[c], []);
      }
    }
  }

  /** Appending keeps every cursor and every poll covered, given how the appending poll's pending events shrink. */
  lemma {:induction false} AppendKeepsSound(world: World, s: State, es: seq<NewEvent>, polls: map<nat, Poll>)
    requires Sound(world, s) && polls.Keys <= s.polls.Keys
    requires forall p | p in polls ::
      && polls[p].connection == s.polls[p].connection && polls[p].upTo == s.polls[p].upTo
      && forall e | e in s.polls[p].pending :: e in es || e in polls[p].pending
    ensures Sound(world, State(AppendAll(s.log, es), s.cursor, polls))
  {
    AppendKeepsOnce(s.log, es);
    forall c | c in s.cursor ensures Covered(world, AppendAll(s.log, es), c, s.cursor[c], []) {
      AppendCovers(world, s.log, es, c, s.cursor[c], [], []);
    }
    forall p | p in polls ensures Covered(world, AppendAll(s.log, es), polls[p].connection, polls[p].upTo, polls[p].pending) {
      AppendCovers(world, s.log, es, polls[p].connection, polls[p].upTo, s.polls[p].pending, polls[p].pending);
    }
  }

  lemma StepKeepsSound(world: World, s: State, step: Step)
    requires Sound(world, s) && Enabled(s, step)
    ensures Sound(world, Take(world, s, step))
  {
    match step {
      case Fetch(p, c, upTo) => FetchCovers(world, s, c, upTo);
      case WriteScope(p, scope) =>
        AppendKeepsSound(world, s, InScope(s.polls[p].pending, scope), Take(world, s, step).polls);
      case Advance(p) =>
        assert Covered(world, s.log, s.polls[p].connection, s.polls[p].upTo, s.polls[p].pending);
      case Drop(p) =>
      case Webhook(c, bs, scope) =>
        AppendKeepsSound(world, s, InScope(FinalizeAll(bs, c, world.owner(c)), scope), s.polls);
    }
  }

  // ── Runs ──

  ghost predicate Next(world: World, s: State, t: State) {
    exists step :: Enabled(s, step) && t == Take(world, s, step)
  }

  ghost function Steps(world: World): (State, State) -> bool {
    (s, t) => Next(world, s, t)
  }

  /** Nothing ingested, no poll under way. */
  const NOTHING := State([], map[], map[])

  ghost predicate Run(world: World, states: seq<State>) {
    Runs.Run(Steps(world), states)
  }

  ghost function SoundIn(world: World): State -> bool {
    s => Sound(world, s)
  }

  lemma NextKeepsSound(world: World, s: State, t: State)
    requires Sound(world, s) && Next(world, s, t)
    ensures Sound(world, t)
  {
    var step :| Enabled(s, step) && t == Take(world, s, step);
    StepKeepsSound(world, s, step);
  }

  lemma StepsKeepSound(world: World)
    ensures Runs.Preserves(Steps(world), SoundIn(world))
  {
    forall s, t | SoundIn(world)(s) && Steps(world)(s, t) ensures SoundIn(world)(t) {
      NextKeepsSound(world, s, t);
    }
  }

  /**
   * Over every run with crashes between any two writes, overlapping polls, re-polls and webhooks: the log holds
   * each identity at most once, and everything before a saved cursor is in it.
   */
  lemma RunIsExactlyOnce(world: World, states: seq<State>)
    requires Run(world, states) && Sound(world, states[0])
    ensures Sound(world, states[|states| - 1])
  {
    StepsKeepSound(world);
    Runs.RunKeeps(Steps(world), SoundIn(world), states);
  }

  /** Written events stay as they were: the log only grows. */
  lemma {:induction false} AppendExtends(log: seq<NewEvent>, es: seq<NewEvent>)
    ensures log <= AppendAll(log, es)
  {
    if es != [] {
      AppendExtends(log, es[..|es| - 1]);
    }
  }

  lemma StepExtends(world: World, s: State, step: Step)
    requires Enabled(s, step)
    ensures s.log <= Take(world, s, step).log
  {
    match step {
      case WriteScope(p, scope) => AppendExtends(s.log, InScope(s.polls[p].pending, scope));
      case Webhook(c, bs, scope) => AppendExtends(s.log, InScope(FinalizeAll(bs, c, world.owner(c)), scope));
      case _ =>
    }
  }

  ghost function Extending(log: seq<NewEvent>): State -> bool {
    (s: State) => log <= s.log
  }

  lemma StepsExtend(world: World, log: seq<NewEvent>)
    ensures Runs.Preserves(Steps(world), Extending(log))
  {
    forall s, t | Extending(log)(s) && Steps(world)(s, t) ensures Extending(log)(t) {
      assert Next(world, s, t);
      var step :| Enabled(s, step) && t == Take(world, s, step);
      StepExtends(world, s, step);
    }
  }

  /** Over every run, what has been written stays where it is. */
  lemma LogOnlyGrows(world: World, states: seq<State>)
    requires Run(world, states)
    ensures states[0].log <= states[|states| - 1].log
  {
    StepsExtend(world, states[0].log);
    Runs.RunKeeps(Steps(world), Extending(states[0].log), states);
  }

  lemma {:induction false} AppendKnown(log: seq<NewEvent>, es: seq<NewEvent>)
    requires forall e | e in es :: Known(log, IdentityOf(e))
    ensures AppendAll(log, es) == log
  {
    if es != [] {
      assert es[|es| - 1] in es;
      AppendKnown(log, es[..|es| - 1]);
    }
  }

  /** At any point of a run, fetching again any stretch of a feed before the saved cursor writes nothing. */
  lemma RepollIsQuiet(world: World, states: seq<State>, connection: Uuid, from: nat, upTo: nat)
    requires Run(world, states) && states[0] == NOTHING && from <= upTo <= CursorOf(states[|states| - 1], connection)
    ensures var s := states[|states| - 1]; AppendAll(s.log, Batch(world, connection, from, upTo)) == s.log
  {
    var s, batch := states[|states| - 1], Batch(world, connection, from, upTo);
    RunIsExactlyOnce(world, states);
    if connection in s.cursor {
      assert Covered(world, s.log, connection, s.cursor[connection], []);
    }
    forall e | e in batch ensures Known(s.log, IdentityOf(e)) {
      var k :| 0 <= k < |batch| && batch[k] == e;
      assert e == FeedEvent(world, connection, from + k);
    }
    AppendKnown(s.log, batch);
  }

  // ── Ownership ──

  /** A logged event is public, or private to the owner of the connection it came through. */
  ghost predicate OwnScoped(world: World, e: NewEvent) {
    e.scope == Public || e.scope == Private(world.owner(e.connection))
  }

  ghost predicate AllOwnScoped(world: World, s: State) {
    && (forall e | e in s.log :: OwnScoped(world, e))
    && (forall p, e | p in s.polls && e in s.polls[p].pending :: OwnScoped(world, e))
  }

  lemma {:induction false} AppendedFrom(log: seq<NewEvent>, es: seq<NewEvent>, e: NewEvent)
    requires e in AppendAll(log, es)
    ensures e in log || e in es
  {
    if es != [] && e in AppendAll(log, es[..|es| - 1]) {
      AppendedFrom(log, es[..|es| - 1], e);
    }
  }

  lemma StepKeepsOwnScopes(world: World, s: State, step: Step)
    requires AllOwnScoped(world, s) && Enabled(s, step)
    ensures AllOwnScoped(world, Take(world, s, step))
  {
    var t := Take(world, s, step);
    forall e | e in t.log ensures OwnScoped(world, e) {
      match step {
        case WriteScope(p, scope) => AppendedFrom(s.log, InScope(s.polls[p].pending, scope), e);
        case Webhook(c, bs, scope) => AppendedFrom(s.log, InScope(FinalizeAll(bs, c, world.owner(c)), scope), e);
        case _ =>
      }
    }
    forall p, e | p in t.polls && e in t.polls[p].pending ensures OwnScoped(world, e) {
      if p in s.polls && e in s.polls[p].pending {
        assert OwnScoped(world, e);
      }
    }
  }

  ghost function OwnScopedIn(world: World): State -> bool {
    s => AllOwnScoped(world, s)
  }

  lemma StepsKeepOwnScopes(world: World)
    ensures Runs.Preserves(Steps(world), OwnScopedIn(world))
  {
    forall s, t | OwnScopedIn(world)(s) && Steps(world)(s, t) ensures OwnScopedIn(world)(t) {
      assert Next(world, s, t);
      var step :| Enabled(s, step) && t == Take(world, s, step);
      StepKeepsOwnScopes(world, s, step);
    }
  }

  /** Whatever the payloads claim, no run from nothing logs an event under a scope its connection's owner does not hold. */
  lemma RunKeepsOwnScopes(world: World, states: seq<State>)
    requires Run(world, states) && states[0] == NOTHING
    ensures AllOwnScoped(world, states[|states| - 1])
  {
    StepsKeepOwnScopes(world);
    Runs.RunKeeps(Steps(world), OwnScopedIn(world), states);
  }
}
