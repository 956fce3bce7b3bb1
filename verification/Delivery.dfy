/** One subscriber's digests as a protocol: concurrent runs that load, freeze, send and mark, and may crash or defer anywhere. */
module Delivery {
  import opened Ordering
  import opened LinkModel
  import opened Select

  datatype FrozenItem = FrozenItem(storyId: Uuid, lastEventTime: Time, format: Format)

  /** The selected stories, each with the natural format a later fire compares against. */
  function FrozenItems(ds: seq<Decision>): seq<FrozenItem> {
    if ds == [] then []
    else
      (if ds[0].verdict.Selected? then [FrozenItem(ds[0].id, ds[0].lastEventTime, ds[0].naturalFormat)] else [])
      + FrozenItems(ds[1..])
  }

  /** A digest row, identified by the window it closes. */
  datatype Digest = Digest(items: seq<FrozenItem>, deliveredAt: Option<Time>)

  /** How far one job has got: snapshot taken, schedule read, found due, selection frozen, message handed over. */
  datatype Job =
    | Snapped(snapshotAt: Time)
    | Loaded(snapshotAt: Time, windowEnd: Time)
    | Due(snapshotAt: Time, windowEnd: Time)
    | Frozen(snapshotAt: Time, windowEnd: Time)
    | Sent(snapshotAt: Time, windowEnd: Time)

  /** Timezone, local time, frequency and weekday, as far as the next boundary depends on them. */
  type Preference = nat

  /** One subscriber's rows, the delivery stamp of each story, the windows of the messages handed over, in order, and the jobs. */
  datatype State = State(
    now: Time, nextRunAt: Time, lastRunAt: Option<Time>, preference: Preference, digests: map<Time, Digest>,
    stamps: map<Uuid, Time>, sent: seq<Time>, jobs: map<nat, Job>)

  /** `next(t, p)` stands for the database's recurrence function: the first boundary after `t`. */
  ghost predicate Recurs(next: (Time, Preference) -> Time) {
    forall t, p :: next(t, p) > t
  }

  datatype Step =
    | Tick(now: Time)
    | Snap(job: nat)
    | Load(job: nat)
    | Check(job: nat)
    | Freeze(job: nat, items: seq<FrozenItem>)
    | Send(job: nat)
    | Mark(job: nat)
    | Abandon(job: nat)
    | Prefer(preference: Preference)

  /** Time moves on, and each job takes its steps in order. */
  predicate Enabled(s: State, step: Step) {
    match step
    case Tick(now) => now >= s.now
    case Snap(j) => j !in s.jobs
    case Load(j) => j in s.jobs && s.jobs[j].Snapped?
    case Check(j) => j in s.jobs && s.jobs[j].Loaded?
    case Freeze(j, _) => j in s.jobs && s.jobs[j].Due?
    case Send(j) => j in s.jobs && s.jobs[j].Frozen?
    case Mark(j) => j in s.jobs && s.jobs[j].Sent?
    case Abandon(j) => j in s.jobs
    case Prefer(_) => true
  }

  /** Gets or creates the window's row; an existing row's items are left alone. */
  function WithItems(digests: map<Time, Digest>, w: Time, items: seq<FrozenItem>): map<Time, Digest> {
    if w in digests then digests else digests[w := Digest(items, None)]
  }

  /** Stamps the row unless it is stamped already. */
  function Stamped(digests: map<Time, Digest>, w: Time, now: Time): map<Time, Digest> {
    if w in digests && digests[w].deliveredAt.None? then digests[w := digests[w].(deliveredAt := Some(now))] else digests
  }

  function Carried(digests: map<Time, Digest>, w: Time): set<Uuid> {
    if w in digests then set item | item in digests[w].items :: item.storyId else {}
  }

  /** Stamps every story the window carries, whether or not it bears a stamp already. */
  function Restamped(stamps: map<Uuid, Time>, ids: set<Uuid>, now: Time): map<Uuid, Time> {
    stamps + map id | id in ids :: now
  }

  function LaterOf(a: Time, b: Option<Time>): Time {
    if b.Some? && b.value > a then b.value else a
  }

  function FrozenAt(s: State, j: nat, w: Time, items: seq<FrozenItem>): State
    requires j in s.jobs
  {
    var digests := WithItems(s.digests, w, items);
    // A window already delivered ends the job.
    s.(digests := digests,
       jobs := if digests[w].deliveredAt.Some? then s.jobs - {j} else s.jobs[j := Job.Frozen(s.jobs[j].snapshotAt, w)])
  }

  /** The delivery transaction: the window's stamp, its stories' stamps, and the schedule. */
  function Marked(s: State, w: Time, snapshotAt: Time, next: (Time, Preference) -> Time): State {
    s.(digests := Stamped(s.digests, w, s.now), stamps := Restamped(s.stamps, Carried(s.digests, w), s.now),
       lastRunAt := Some(snapshotAt), nextRunAt := next(s.now, s.preference))
  }

  function Take(s: State, step: Step, next: (Time, Preference) -> Time): State
    requires Enabled(s, step)
  {
    match step
    case Tick(now) => s.(now := now)
    case Snap(j) => s.(jobs := s.jobs[j := Snapped(s.now)])
    case Load(j) => s.(jobs := s.jobs[j := Loaded(s.jobs[j].snapshotAt, s.nextRunAt)])
    case Check(j) =>
      // A boundary in the future is not due: the job ends before touching anything.
      s.(jobs := if s.jobs[j].windowEnd > s.now then s.jobs - {j} else s.jobs[j := Job.Due(s.jobs[j].snapshotAt, s.jobs[j].windowEnd)])
    case Freeze(j, items) => FrozenAt(s, j, s.jobs[j].windowEnd, items)
    case Send(j) =>
      s.(sent := s.sent + [s.jobs[j].windowEnd], jobs := s.jobs[j := Job.Sent(s.jobs[j].snapshotAt, s.jobs[j].windowEnd)])
    case Mark(j) => Marked(s, s.jobs[j].windowEnd, s.jobs[j].snapshotAt, next).(jobs := s.jobs - {j})
    case Abandon(j) => s.(jobs := s.jobs - {j})
    case Prefer(p) => s.(preference := p, nextRunAt := next(LaterOf(s.now, s.lastRunAt), p))
  }

  datatype Outcome = NotYetDue | AlreadyDelivered | LeadDeferred | Empty | Delivered(items: nat)

  /** How a run ends: by the schedule first, then by the window's row, then by the lead. */
  function OutcomeOf(s: State, frozen: map<Time, Digest>, leadComposed: bool): Outcome
    requires s.nextRunAt in frozen
  {
    var row := frozen[s.nextRunAt];
    if s.nextRunAt > s.now then NotYetDue
    else if row.deliveredAt.Some? then AlreadyDelivered
    else if row.items == [] then Empty
    else if leadComposed then Delivered(|row.items|)
    else LeadDeferred
  }

  /** What a run that ends so leaves behind: only a sent window moves the schedule, the stamps and the outbox. */
  function Ended(s: State, frozen: map<Time, Digest>, outcome: Outcome, next: (Time, Preference) -> Time): State
    requires s.nextRunAt in frozen
  {
    match outcome
    case NotYetDue => s
    case AlreadyDelivered => s
    case LeadDeferred => s.(digests := frozen)
    case _ =>
      var w := s.nextRunAt;
      s.(digests := frozen[w := frozen[w].(deliveredAt := Some(s.now))], stamps := Restamped(s.stamps, Carried(frozen, w), s.now),
         sent := s.sent + [w], lastRunAt := Some(s.now), nextRunAt := next(s.now, s.preference))
  }

  lemma FreshJob(s: State, j: nat, job: Job)
    requires j !in s.jobs
    ensures s.jobs[j := job] - {j} == s.jobs
  {
  }

  /** What an uninterrupted run has done up to the check. */
  lemma UpToCheck(s: State, j: nat, next: (Time, Preference) -> Time)
    requires j !in s.jobs
    ensures var loaded := Take(Take(s, Snap(j), next), Load(j), next);
      Take(loaded, Check(j), next) == if s.nextRunAt > s.now then s else s.(jobs := s.jobs[j := Job.Due(s.now, s.nextRunAt)])
  {
    FreshJob(s, j, Loaded(s.now, s.nextRunAt));
  }

  /** What its freeze does, once it has found the window due. */
  lemma UpToFreeze(s: State, t: State, j: nat, items: seq<FrozenItem>, next: (Time, Preference) -> Time)
    requires j !in s.jobs && t == s.(jobs := s.jobs[j := Job.Due(s.now, s.nextRunAt)])
    ensures var w := s.nextRunAt;
      Take(t, Freeze(j, items), next)
      == if w in s.digests && s.digests[w].deliveredAt.Some? then s
         else s.(digests := WithItems(s.digests, w, items), jobs := s.jobs[j := Job.Frozen(s.now, w)])
  {
    FreshJob(s, j, Job.Due(s.now, s.nextRunAt));
  }

  /** What it does from there to its end, if it sends. */
  lemma FromFreeze(s: State, t: State, j: nat, frozen: map<Time, Digest>, outcome: Outcome, next: (Time, Preference) -> Time)
    requires j !in s.jobs && s.nextRunAt in frozen && frozen[s.nextRunAt].deliveredAt.None? && (outcome.Empty? || outcome.Delivered?)
    requires t == s.(digests := frozen, jobs := s.jobs[j := Job.Frozen(s.now, s.nextRunAt)])
    ensures Take(Take(t, Send(j), next), Mark(j), next) == Ended(s, frozen, outcome, next)
  {
    FreshJob(s, j, Job.Sent(s.now, s.nextRunAt));
  }

  /** The subscriber's rows. */
  class Desk {
    var state: State
    const next: (Time, Preference) -> Time

    constructor (start: State, next: (Time, Preference) -> Time)
      ensures state == start && this.next == next
    {
      state, this.next := start, next;
    }

    /**
     * One uninterrupted run. Nothing is sent before the selection is frozen, nothing is marked before it is
     * sent, and a run without a lead leaves the schedule where it was and the selection frozen.
     */
    method Generate(j: nat, decisions: seq<Decision>, leadComposed: bool) returns (outcome: Outcome)
      requires j !in state.jobs
      modifies this
      ensures var frozen := WithItems(old(state.digests), old(state.nextRunAt), FrozenItems(decisions));
        outcome == OutcomeOf(old(state), frozen, leadComposed) && state == Ended(old(state), frozen, outcome, next)
    {
      ghost var s := state;
      UpToCheck(s, j, next);
      state := Take(state, Snap(j), next);
      state := Take(state, Load(j), next);
      var w := state.jobs[j].windowEnd;
      state := Take(state, Check(j), next);
      if j !in state.jobs {
        return NotYetDue;
      }
      UpToFreeze(s, state, j, FrozenItems(decisions), next);
      state := Take(state, Freeze(j, FrozenItems(decisions)), next);
      if j !in state.jobs {
        return AlreadyDelivered;
      }
      var items := state.digests[w].items;
      if items != [] && !leadComposed {
        FreshJob(s, j, state.jobs[j]);
        state := Take(state, Abandon(j), next);
        return LeadDeferred;
      }
      outcome := if items == [] then Empty else Delivered(|items|);
      FromFreeze(s, state, j, state.digests, outcome, next);
      state := Take(state, Send(j), next);
      state := Take(state, Mark(j), next);
    }
  }
}
