/** Delivery over every interleaving of runs, crashes, deferrals and preference changes. */
module DeliveryLaws {
  import opened Ordering
  import opened LinkModel
  import opened Select
  import opened Delivery

  ghost predicate HasBeen(s: State, w: Time) {
    w in s.digests && s.digests[w].deliveredAt.Some?
  }

  /** A frozen job's window has come due and has a row; its message precedes its mark. */
  ghost predicate JobSafe(s: State, job: Job) {
    && job.snapshotAt <= s.now
    && (job.Due? ==> job.windowEnd <= s.now)
    && (job.Frozen? || job.Sent? ==> job.windowEnd <= s.now && job.windowEnd in s.digests)
    && (job.Sent? ==> job.windowEnd in s.sent)
  }

  ghost predicate Safe(s: State) {
    && (forall j | j in s.jobs :: JobSafe(s, s.jobs[j]))
    && (forall w | w in s.digests :: w <= s.now)
    && (forall w | w in s.sent :: w in s.digests)
    && (forall w | HasBeen(s, w) :: w in s.sent && w < s.nextRunAt)
    && (s.lastRunAt.Some? ==> s.lastRunAt.value <= s.now)
    && (forall id | id in s.stamps :: s.stamps[id] <= s.now)
  }

  lemma StepKeepsJobsSafe(s: State, step: Step, next: (Time, Preference) -> Time)
    requires Safe(s) && Enabled(s, step)
    ensures var t := Take(s, step, next); forall j | j in t.jobs :: JobSafe(t, t.jobs[j])
  {
    var t := Take(s, step, next);
    forall j | j in t.jobs ensures JobSafe(t, t.jobs[j]) {
      if j in s.jobs {
        assert JobSafe(s, s.jobs[j]);
      }
    }
  }

  lemma StepKeepsBoundary(s: State, step: Step, w: Time, next: (Time, Preference) -> Time)
    requires Recurs(next) && Safe(s) && Enabled(s, step) && HasBeen(Take(s, step, next), w)
    ensures var t := Take(s, step, next); w in t.sent && w < t.nextRunAt
  {
    if step.Mark? {
      assert JobSafe(s, s.jobs[step.job]);
    } else {
      assert HasBeen(s, w);
    }
  }

  lemma StepKeepsSafe(s: State, step: Step, next: (Time, Preference) -> Time)
    requires Recurs(next) && Safe(s) && Enabled(s, step)
    ensures Safe(Take(s, step, next))
  {
    StepKeepsJobsSafe(s, step, next);
    forall w | HasBeen(Take(s, step, next), w) ensures w in Take(s, step, next).sent && w < Take(s, step, next).nextRunAt {
      StepKeepsBoundary(s, step, w, next);
    }
    assert step.Send? || step.Freeze? ==> JobSafe(s, s.jobs[step.job]);
  }

  /** What no step can undo: frozen items, a delivery stamp, a story's stamp, a sent message. */
  ghost predicate Keeps(s: State, t: State) {
    && (forall w | w in s.digests :: w in t.digests && t.digests[w].items == s.digests[w].items)
    && (forall w | HasBeen(s, w) :: HasBeen(t, w) && t.digests[w].deliveredAt == s.digests[w].deliveredAt)
    && (forall id | id in s.stamps :: id in t.stamps)
    && s.sent <= t.sent && s.now <= t.now
  }

  lemma StepKeeps(s: State, step: Step, next: (Time, Preference) -> Time)
    requires Enabled(s, step)
    ensures Keeps(s, Take(s, step, next))
  {
  }

  // ── Runs of the system ──

  /** The states a sequence of steps passes through. */
  ghost predicate Trace(states: seq<State>, steps: seq<Step>, next: (Time, Preference) -> Time) {
    && |states| == |steps| + 1
    && forall k | 0 <= k < |steps| :: Enabled(states[k], steps[k]) && states[k + 1] == Take(states[k], steps[k], next)
  }

  lemma TraceFront(states: seq<State>, steps: seq<Step>, n: nat, next: (Time, Preference) -> Time)
    requires Trace(states, steps, next) && n <= |steps|
    ensures Trace(states[..n + 1], steps[..n], next)
  {
  }

  lemma TraceSnoc(states: seq<State>, steps: seq<Step>, step: Step, next: (Time, Preference) -> Time)
    requires Trace(states, steps, next) && Enabled(states[|steps|], step)
    ensures Trace(states + [Take(states[|steps|], step, next)], steps + [step], next)
  {
  }

  lemma KeepsThrough(s: State, t: State, u: State)
    requires Keeps(s, t) && Keeps(t, u)
    ensures Keeps(s, u)
  {
    forall w | HasBeen(s, w) ensures HasBeen(u, w) && u.digests[w].deliveredAt == s.digests[w].deliveredAt {
      assert HasBeen(t, w);
    }
  }

  /**
   * Over every interleaving: a delivered window had its message sent and lies strictly before the next
   * boundary, every message follows the freeze of its window, and frozen items, stamps and sends never change.
   */
  lemma {:induction false} RunIsSafe(states: seq<State>, steps: seq<Step>, next: (Time, Preference) -> Time)
    requires Recurs(next) && Trace(states, steps, next) && Safe(states[0])
    ensures Safe(states[|steps|]) && Keeps(states[0], states[|steps|])
  {
    if steps != [] {
      var n := |steps| - 1;
      TraceFront(states, steps, n, next);
      RunIsSafe(states[..n + 1], steps[..n], next);
      StepKeepsSafe(states[n], steps[n], next);
      StepKeeps(states[n], steps[n], next);
      KeepsThrough(states[0], states[n], states[n + 1]);
    }
  }

  // ── Messages after a delivery ──

  /** The jobs that may still send a window's message: those past the freeze. */
  ghost function Pending(s: State, w: Time): set<nat> {
    set j | j in s.jobs && s.jobs[j].Frozen? && s.jobs[j].windowEnd == w
  }

  ghost function Sends(s: State, w: Time): nat {
    multiset(s.sent)[w]
  }

  /** Once a window is delivered no further job gets past its freeze, and each of those that have sends at most once. */
  lemma DeliveredAdmitsNone(s: State, step: Step, w: Time, next: (Time, Preference) -> Time)
    requires Enabled(s, step) && HasBeen(s, w)
    ensures var t := Take(s, step, next);
      Pending(t, w) <= Pending(s, w) && Sends(t, w) + |Pending(t, w)| <= Sends(s, w) + |Pending(s, w)|
  {
    var t := Take(s, step, next);
    assert Pending(t, w) <= Pending(s, w);
    Fewer(Pending(t, w), Pending(s, w));
    if step.Send? {
      assert multiset(s.sent + [s.jobs[step.job].windowEnd]) == multiset(s.sent) + multiset{s.jobs[step.job].windowEnd};
      if s.jobs[step.job].windowEnd == w {
        Fewer(Pending(t, w), Pending(s, w) - {step.job});
      }
    }
  }

  lemma Fewer(a: set<nat>, b: set<nat>)
    requires a <= b
    ensures |a| <= |b|
  {
    assert b == a + (b - a);
  }

  /**
   * After a window's delivery only the jobs that were past its freeze at that moment can send it again, each at
   * most once; with none, it is never sent again.
   */
  lemma {:induction false} SendsAfterDelivery(states: seq<State>, steps: seq<Step>, w: Time, next: (Time, Preference) -> Time)
    requires Trace(states, steps, next) && HasBeen(states[0], w)
    ensures var s, t := states[0], states[|steps|];
      && HasBeen(t, w) && Pending(t, w) <= Pending(s, w)
      && Sends(t, w) + |Pending(t, w)| <= Sends(s, w) + |Pending(s, w)|
  {
    if steps != [] {
      var n := |steps| - 1;
      TraceFront(states, steps, n, next);
      SendsAfterDelivery(states[..n + 1], steps[..n], w, next);
      StepKeeps(states[n], steps[n], next);
      DeliveredAdmitsNone(states[n], steps[n], w, next);
    }
  }

  /** The boundary has moved past a window that had come due. */
  ghost predicate PassedBy(s: State, w: Time) {
    w <= s.now && w < s.nextRunAt
  }

  lemma {:induction false} StaysPassed(states: seq<State>, steps: seq<Step>, w: Time, next: (Time, Preference) -> Time)
    requires Recurs(next) && Trace(states, steps, next) && PassedBy(states[0], w)
    ensures PassedBy(states[|steps|], w)
  {
    if steps != [] {
      var n := |steps| - 1;
      TraceFront(states, steps, n, next);
      StaysPassed(states[..n + 1], steps[..n], w, next);
      assert states[n + 1] == Take(states[n], steps[n], next);
    }
  }

  /** Delivered or not, a window the boundary has passed is read by no later job, whatever marks and preference changes follow. */
  lemma PassedWindowNeverLoaded(states: seq<State>, steps: seq<Step>, w: Time, j: nat, next: (Time, Preference) -> Time)
    requires Recurs(next) && Trace(states, steps, next) && PassedBy(states[0], w)
    requires steps != [] && steps[|steps| - 1] == Load(j)
    ensures states[|steps|].jobs[j].windowEnd > w
  {
    var n := |steps| - 1;
    TraceFront(states, steps, n, next);
    StaysPassed(states[..n + 1], steps[..n], w, next);
    assert states[n + 1] == Take(states[n], Load(j), next);
  }

  /** A job that reads the schedule after a delivery works on a later window, at any later point of a run. */
  lemma DeliveredWindowNotReloaded(states: seq<State>, steps: seq<Step>, w: Time, j: nat, next: (Time, Preference) -> Time)
    requires Recurs(next) && Trace(states, steps, next) && Safe(states[0]) && HasBeen(states[0], w)
    requires steps != [] && steps[|steps| - 1] == Load(j)
    ensures states[|steps|].jobs[j].windowEnd > w
  {
    assert w in states[0].digests && PassedBy(states[0], w);
    PassedWindowNeverLoaded(states, steps, w, j, next);
  }

  // ── Crashes and deferrals ──

  function JobOf(step: Step): Option<nat> {
    match step
    case Snap(j) => Some(j)
    case Load(j) => Some(j)
    case Check(j) => Some(j)
    case Freeze(j, _) => Some(j)
    case Send(j) => Some(j)
    case Mark(j) => Some(j)
    case Abandon(j) => Some(j)
    case _ => None
  }

  /** The steps of everything but job `j`. */
  function Without(steps: seq<Step>, j: nat): seq<Step> {
    if steps == [] then []
    else Without(steps[..|steps| - 1], j) + if JobOf(steps[|steps| - 1]) == Some(j) then [] else [steps[|steps| - 1]]
  }

  function StampOf(digests: map<Time, Digest>, w: Time): Option<Time> {
    if w in digests then digests[w].deliveredAt else None
  }

  /** `e` holds some of the rows of `d`, and every window's stamp is the same in both. */
  ghost predicate SameStamps(d: map<Time, Digest>, e: map<Time, Digest>) {
    forall w :: (w in e ==> w in d) && StampOf(e, w) == StampOf(d, w)
  }

  /** Every job past its freeze has its row. */
  ghost predicate Rowed(s: State) {
    forall i | i in s.jobs && (s.jobs[i].Frozen? || s.jobs[i].Sent?) :: s.jobs[i].windowEnd in s.digests
  }

  /** `t` is `s` as it would be without job `j`, up to the rows that job froze and the messages it sent. */
  ghost predicate Unseen(s: State, t: State, j: nat) {
    && t.now == s.now && t.nextRunAt == s.nextRunAt && t.lastRunAt == s.lastRunAt && t.preference == s.preference
    && t.jobs == s.jobs - {j} && Rowed(t) && SameStamps(s.digests, t.digests)
  }

  lemma FreezeSameStamps(d: map<Time, Digest>, e: map<Time, Digest>, w: Time, items: seq<FrozenItem>)
    requires SameStamps(d, e)
    ensures SameStamps(WithItems(d, w, items), WithItems(e, w, items))
    ensures WithItems(d, w, items)[w].deliveredAt == WithItems(e, w, items)[w].deliveredAt
  {
    assert StampOf(e, w) == StampOf(d, w);
    forall v ensures StampOf(WithItems(e, w, items), v) == StampOf(WithItems(d, w, items), v) {
      assert StampOf(e, v) == StampOf(d, v);
    }
    forall v | v in WithItems(e, w, items) ensures v in WithItems(d, w, items) {
      assert StampOf(e, v) == StampOf(d, v);
    }
  }

  lemma FreezeOwnStamps(d: map<Time, Digest>, e: map<Time, Digest>, w: Time, items: seq<FrozenItem>)
    requires SameStamps(d, e)
    ensures SameStamps(WithItems(d, w, items), e)
  {
    forall v ensures (v in e ==> v in WithItems(d, w, items)) && StampOf(e, v) == StampOf(WithItems(d, w, items), v) {
      assert StampOf(e, v) == StampOf(d, v);
    }
  }

  lemma MarkSameStamps(d: map<Time, Digest>, e: map<Time, Digest>, w: Time, now: Time)
    requires SameStamps(d, e) && w in e
    ensures SameStamps(Stamped(d, w, now), Stamped(e, w, now))
  {
    assert StampOf(e, w) == StampOf(d, w);
    forall v ensures (v in Stamped(e, w, now) ==> v in Stamped(d, w, now)) && StampOf(Stamped(e, w, now), v) == StampOf(Stamped(d, w, now), v) {
      assert StampOf(e, v) == StampOf(d, v);
    }
  }

  /** The step is the first freeze of a window. */
  ghost predicate Opens(s: State, step: Step) {
    step.Freeze? && step.job in s.jobs && s.jobs[step.job].Due? && s.jobs[step.job].windowEnd !in s.digests
  }

  lemma OwnStepUnseen(s: State, t: State, step: Step, j: nat, next: (Time, Preference) -> Time)
    requires Unseen(s, t, j) && Enabled(s, step) && JobOf(step) == Some(j) && !step.Mark?
    ensures Unseen(Take(s, step, next), t, j)
    ensures !Opens(s, step) ==> Take(s, step, next).digests == s.digests && Take(s, step, next).stamps == s.stamps
  {
    assert Take(s, step, next).jobs - {j} == s.jobs - {j};
    if step.Freeze? {
      FreezeOwnStamps(s.digests, t.digests, s.jobs[j].windowEnd, step.items);
    }
  }

  lemma SameJobs(s: State, t: State, j: nat)
    requires t.jobs == s.jobs - {j}
    ensures forall i :: i in t.jobs <==> i in s.jobs && i != j
    ensures forall i | i in s.jobs && i != j :: t.jobs[i] == s.jobs[i]
  {
  }

  lemma OtherFreezeUnseen(s: State, t: State, i: nat, items: seq<FrozenItem>, j: nat, next: (Time, Preference) -> Time)
    requires Unseen(s, t, j) && Enabled(s, Freeze(i, items)) && i != j
    ensures Enabled(t, Freeze(i, items)) && Unseen(Take(s, Freeze(i, items), next), Take(t, Freeze(i, items), next), j)
  {
    SameJobs(s, t, j);
    FreezeSameStamps(s.digests, t.digests, s.jobs[i].windowEnd, items);
    FrozenUnseen(s, t, i, s.jobs[i].windowEnd, items, j);
  }

  lemma FrozenUnseen(s: State, t: State, i: nat, w: Time, items: seq<FrozenItem>, j: nat)
    requires t.jobs == s.jobs - {j} && i in s.jobs && i in t.jobs && t.jobs[i] == s.jobs[i] && i != j && Rowed(t)
    requires WithItems(s.digests, w, items)[w].deliveredAt == WithItems(t.digests, w, items)[w].deliveredAt
    ensures FrozenAt(t, i, w, items).jobs == FrozenAt(s, i, w, items).jobs - {j} && Rowed(FrozenAt(t, i, w, items))
  {
  }

  lemma OtherMarkUnseen(s: State, t: State, i: nat, j: nat, next: (Time, Preference) -> Time)
    requires Unseen(s, t, j) && Enabled(s, Mark(i)) && i != j
    ensures Enabled(t, Mark(i)) && Unseen(Take(s, Mark(i), next), Take(t, Mark(i), next), j)
  {
    SameJobs(s, t, j);
    MarkSameStamps(s.digests, t.digests, s.jobs[i].windowEnd, s.now);
    assert Take(t, Mark(i), next).jobs == Take(s, Mark(i), next).jobs - {j};
  }

  lemma OtherStepUnseen(s: State, t: State, step: Step, j: nat, next: (Time, Preference) -> Time)
    requires Unseen(s, t, j) && Enabled(s, step) && JobOf(step) != Some(j)
    ensures Enabled(t, step) && Unseen(Take(s, step, next), Take(t, step, next), j)
  {
    match step {
      case Freeze(i, items) => OtherFreezeUnseen(s, t, i, items, j, next);
      case Mark(i) => OtherMarkUnseen(s, t, i, j, next);
      case Snap(i) => OtherMoveUnseen(s, t, step, i, j, next);
      case Load(i) => OtherMoveUnseen(s, t, step, i, j, next);
      case Check(i) => OtherMoveUnseen(s, t, step, i, j, next);
      case Send(i) => OtherMoveUnseen(s, t, step, i, j, next);
      case Abandon(i) => OtherMoveUnseen(s, t, step, i, j, next);
      case Tick(_) =>
      case Prefer(_) =>
    }
  }

  /** A step that touches no row. */
  lemma OtherMoveUnseen(s: State, t: State, step: Step, i: nat, j: nat, next: (Time, Preference) -> Time)
    requires Unseen(s, t, j) && Enabled(s, step) && JobOf(step) == Some(i) && i != j && !step.Freeze? && !step.Mark?
    ensures Enabled(t, step) && Unseen(Take(s, step, next), Take(t, step, next), j)
  {
    SameJobs(s, t, j);
    assert Take(t, step, next).jobs == Take(s, step, next).jobs - {j};
  }

  /** Where job `j` has left the rows alone, another job's step does the same to the rows with and without it. */
  lemma OtherStepSameRows(s: State, t: State, step: Step, j: nat, next: (Time, Preference) -> Time)
    requires Unseen(s, t, j) && Enabled(s, step) && Enabled(t, step) && JobOf(step) != Some(j)
    requires t.digests == s.digests && t.stamps == s.stamps
    ensures Take(t, step, next).digests == Take(s, step, next).digests && Take(t, step, next).stamps == Take(s, step, next).stamps
  {
    SameJobs(s, t, j);
  }

  /**
   * A job that never marks, whether it crashed or deferred and however far it got, leaves the schedule, the
   * last delivery and every window's stamp as the other jobs alone would have left them; if it froze no window
   * first, the frozen items and the stories' stamps too.
   */
  lemma {:induction false} AbandonMovesNothing(states: seq<State>, steps: seq<Step>, j: nat, next: (Time, Preference) -> Time)
    returns (others: seq<State>)
    requires Trace(states, steps, next) && Rowed(states[0]) && Mark(j) !in steps
    ensures Trace(others, Without(steps, j), next) && others[0] == states[0].(jobs := states[0].jobs - {j})
    ensures Unseen(states[|steps|], others[|others| - 1], j)
    ensures (forall k | 0 <= k < |steps| && JobOf(steps[k]) == Some(j) :: !Opens(states[k], steps[k])) ==>
      var s, t := states[|steps|], others[|others| - 1]; t.digests == s.digests && t.stamps == s.stamps
  {
    if steps == [] {
      others := [states[0].(jobs := states[0].jobs - {j})];
    } else {
      var n := |steps| - 1;
      TraceFront(states, steps, n, next);
      assert steps == steps[..n] + [steps[n]];
      others := AbandonMovesNothing(states[..n + 1], steps[..n], j, next);
      var t := others[|others| - 1];
      if JobOf(steps[n]) == Some(j) {
        OwnStepUnseen(states[n], t, steps[n], j, next);
        assert Without(steps, j) == Without(steps[..n], j);
      } else {
        OtherStepUnseen(states[n], t, steps[n], j, next);
        if t.digests == states[n].digests && t.stamps == states[n].stamps {
          OtherStepSameRows(states[n], t, steps[n], j, next);
        }
        TraceSnoc(others, Without(steps[..n], j), steps[n], next);
        others := others + [Take(t, steps[n], next)];
      }
    }
  }

  /** A window abandoned before its mark stays due until a preference change or another run's mark; only marks move the last delivery. */
  lemma {:induction false} AbandonedStaysDue(states: seq<State>, steps: seq<Step>, next: (Time, Preference) -> Time)
    requires Trace(states, steps, next) && forall step | step in steps :: !step.Mark?
    ensures states[|steps|].lastRunAt == states[0].lastRunAt
    ensures (forall step | step in steps :: !step.Prefer?) ==> states[|steps|].nextRunAt == states[0].nextRunAt
  {
    if steps != [] {
      var n := |steps| - 1;
      assert steps == steps[..n] + [steps[n]] && steps[n] in steps;
      TraceFront(states, steps, n, next);
      AbandonedStaysDue(states[..n + 1], steps[..n], next);
    }
  }

  /** At any point of a run a preference change loses nothing delivered and puts the next boundary past every window there is. */
  lemma PreferencesNeverReplay(states: seq<State>, steps: seq<Step>, p: Preference, w: Time, next: (Time, Preference) -> Time)
    requires Recurs(next) && Trace(states, steps, next) && Safe(states[0]) && w in states[|steps|].digests
    ensures var s := states[|steps|];
      var t := Take(s, Prefer(p), next);
      t.nextRunAt > w && t.nextRunAt > s.now && t.lastRunAt == s.lastRunAt && t.digests == s.digests && t.stamps == s.stamps
  {
    var s := states[|steps|];
    RunIsSafe(states, steps, next);
    assert next(LaterOf(s.now, s.lastRunAt), p) > LaterOf(s.now, s.lastRunAt);
  }

  // ── Marking again ──

  /** The story's stamp is set or moved. */
  ghost predicate Restamps(s: State, t: State, id: Uuid) {
    id in t.stamps && (id !in s.stamps || s.stamps[id] != t.stamps[id])
  }

  /** Whether a mark by job `j` would set the last delivery back. */
  predicate SetsBack(s: State, j: nat) {
    j in s.jobs && s.lastRunAt.Some? && s.jobs[j].snapshotAt < s.lastRunAt.value
  }

  /**
   * What a second mark of a delivered window does, in any reachable state: the window keeps its stamp, a story is
   * stamped anew exactly when the window carries it and its stamp, if any, is older than now, the last delivery
   * goes back exactly when the job's snapshot is older than it, and the boundary is reckoned from now again, so a
   * next window already due is passed over undelivered.
   */
  lemma SecondMark(states: seq<State>, steps: seq<Step>, j: nat, id: Uuid, next: (Time, Preference) -> Time)
    requires Recurs(next) && Trace(states, steps, next) && Safe(states[0])
    requires Enabled(states[|steps|], Mark(j)) && HasBeen(states[|steps|], states[|steps|].jobs[j].windowEnd)
    ensures var s := states[|steps|];
      var t := Take(s, Mark(j), next);
      && t.digests == s.digests
      && (Restamps(s, t, id) <==> id in Carried(s.digests, s.jobs[j].windowEnd) && (id in s.stamps ==> s.stamps[id] < s.now))
      && (s.lastRunAt.Some? && t.lastRunAt.value < s.lastRunAt.value <==> SetsBack(s, j))
      && t.nextRunAt == next(s.now, s.preference)
      && (s.nextRunAt <= s.now <==> PassedBy(t, s.nextRunAt)) && !HasBeen(t, s.nextRunAt)
  {
    RunIsSafe(states, steps, next);
    assert !HasBeen(states[|steps|], states[|steps|].nextRunAt);
  }

  lemma {:induction false} TimeGrows(states: seq<State>, steps: seq<Step>, a: nat, b: nat, next: (Time, Preference) -> Time)
    requires Trace(states, steps, next) && a <= b <= |steps|
    ensures states[a].now <= states[b].now
  {
    if a < b {
      TimeGrows(states, steps, a, b - 1, next);
      assert states[b - 1 + 1] == Take(states[b - 1], steps[b - 1], next);
    }
  }

  /** Job `j` took its snapshot at step `k` and has been in flight from then to state `n`. */
  ghost predicate InFlight(states: seq<State>, steps: seq<Step>, j: nat, k: nat, n: nat) {
    && k < n <= |steps| < |states| && steps[k] == Snap(j)
    && forall q | k < q <= n :: j in states[q].jobs && states[q].jobs[j].snapshotAt == states[k].now
  }

  lemma {:induction false} SnapOf(states: seq<State>, steps: seq<Step>, n: nat, j: nat, next: (Time, Preference) -> Time) returns (k: nat)
    requires Trace(states, steps, next) && n <= |steps| && j !in states[0].jobs && j in states[n].jobs
    ensures InFlight(states, steps, j, k, n)
  {
    var m := n - 1;
    assert states[m + 1] == Take(states[m], steps[m], next);
    if j in states[m].jobs {
      k := SnapOf(states, steps, m, j, next);
    } else {
      k := m;
    }
  }

  lemma {:induction false} LastMark(states: seq<State>, steps: seq<Step>, n: nat, next: (Time, Preference) -> Time) returns (m: nat)
    requires Trace(states, steps, next) && n <= |steps| && states[n].lastRunAt != states[0].lastRunAt
    ensures m < n && steps[m].Mark? && steps[m].job in states[m].jobs
    ensures states[n].lastRunAt == Some(states[m].jobs[steps[m].job].snapshotAt)
  {
    m := n - 1;
    assert states[m + 1] == Take(states[m], steps[m], next);
    if !steps[m].Mark? {
      m := LastMark(states, steps, m, next);
    }
  }

  /**
   * Setting the last delivery back takes an overlap: the marking job was in flight all the while another job
   * took a later snapshot and marked first.
   */
  lemma SetBackNeedsOverlap(states: seq<State>, steps: seq<Step>, j: nat, next: (Time, Preference) -> Time) returns (k: nat, l: nat, m: nat, i: nat)
    requires Trace(states, steps, next) && Safe(states[0]) && states[0].jobs == map[] && SetsBack(states[|steps|], j)
    ensures k < l < m < |steps| && i != j && steps[m] == Mark(i)
    ensures InFlight(states, steps, j, k, |steps|) && InFlight(states, steps, i, l, m) && states[k].now < states[l].now
  {
    var n := |steps|;
    k := SnapOf(states, steps, n, j, next);
    TimeGrows(states, steps, 0, k, next);
    m := LastMark(states, steps, n, next);
    i := steps[m].job;
    l := SnapOf(states, steps, m, i, next);
    if l <= k {
      TimeGrows(states, steps, l, k, next);
    }
    assert states[m + 1] == Take(states[m], steps[m], next);
  }

  /** One due window of one story, never delivered. */
  const DUE := State(12, 10, None, 0, map[], map[], [], map[])
  const ITEM := FrozenItem(7, 5, Story)

  lemma Extend(states: seq<State>, steps: seq<Step>, s: State, step: Step, t: State, next: (Time, Preference) -> Time)
    returns (more: seq<State>, longer: seq<Step>)
    requires Trace(states, steps, next) && states[|steps|] == s && Enabled(s, step) && t == Take(s, step, next)
    ensures Trace(more, longer, next) && more == states + [t] && longer == steps + [step] && more[|longer|] == t
  {
    TraceSnoc(states, steps, step, next);
    more, longer := states + [t], steps + [step];
  }

  const BOTH := DUE.(now := 15, jobs := map[1 := Snapped(12), 0 := Snapped(15)])
  const ROWS := map[10 := Digest([ITEM], None)]
  const BOTH_FROZEN := BOTH.(digests := ROWS, jobs := map[1 := Job.Frozen(12, 10), 0 := Job.Frozen(15, 10)])
  const BOTH_SENT := BOTH_FROZEN.(sent := [10, 10], jobs := map[1 := Job.Sent(12, 10), 0 := Job.Sent(15, 10)])

  lemma BothFreeze(next: (Time, Preference) -> Time) returns (states: seq<State>, steps: seq<Step>)
    ensures Trace(states, steps, next) && states[0] == DUE && |steps| == 9 && states[9] == BOTH_FROZEN
  {
    var s1 := DUE.(jobs := map[1 := Snapped(12)]);
    states, steps := Extend([DUE], [], DUE, Snap(1), s1, next);
    var s2 := s1.(now := 15);
    states, steps := Extend(states, steps, s1, Tick(15), s2, next);
    states, steps := Extend(states, steps, s2, Snap(0), BOTH, next);
    var s4 := BOTH.(jobs := map[1 := Loaded(12, 10), 0 := Snapped(15)]);
    states, steps := Extend(states, steps, BOTH, Load(1), s4, next);
    var s5 := BOTH.(jobs := map[1 := Loaded(12, 10), 0 := Loaded(15, 10)]);
    states, steps := Extend(states, steps, s4, Load(0), s5, next);
    var s6 := BOTH.(jobs := map[1 := Job.Due(12, 10), 0 := Loaded(15, 10)]);
    states, steps := Extend(states, steps, s5, Check(1), s6, next);
    var s7 := BOTH.(jobs := map[1 := Job.Due(12, 10), 0 := Job.Due(15, 10)]);
    states, steps := Extend(states, steps, s6, Check(0), s7, next);
    var s8 := BOTH.(digests := ROWS, jobs := map[1 := Job.Frozen(12, 10), 0 := Job.Due(15, 10)]);
    states, steps := Extend(states, steps, s7, Freeze(1, [ITEM]), s8, next);
    states, steps := Extend(states, steps, s8, Freeze(0, [ITEM]), BOTH_FROZEN, next);
  }

  lemma BothSend(next: (Time, Preference) -> Time) returns (states: seq<State>, steps: seq<Step>)
    ensures Trace(states, steps, next) && states[0] == DUE && |steps| == 11 && states[11] == BOTH_SENT
  {
    states, steps := BothFreeze(next);
    var s10 := BOTH_FROZEN.(sent := [10], jobs := map[1 := Job.Sent(12, 10), 0 := Job.Frozen(15, 10)]);
    states, steps := Extend(states, steps, BOTH_FROZEN, Send(1), s10, next);
    states, steps := Extend(states, steps, s10, Send(0), BOTH_SENT, next);
  }

  /** After the quicker job's mark. */
  function QuickerMarked(boundary: Time): State {
    BOTH_SENT.(digests := map[10 := Digest([ITEM], Some(15))], stamps := map[7 := 15], lastRunAt := Some(15), nextRunAt := boundary,
               jobs := map[1 := Job.Sent(12, 10)])
  }

  lemma CarriedByItem(rows: map<Time, Digest>)
    requires 10 in rows && rows[10].items == [ITEM]
    ensures Carried(rows, 10) == {7}
  {
    assert ITEM in rows[10].items;
  }

  lemma QuickerMarks(next: (Time, Preference) -> Time)
    ensures Enabled(BOTH_SENT, Mark(0)) && Take(BOTH_SENT, Mark(0), next) == QuickerMarked(next(15, 0))
  {
    CarriedByItem(BOTH_SENT.digests);
  }

  lemma SlowerMarks(s: State, next: (Time, Preference) -> Time)
    requires s == QuickerMarked(next(15, 0)).(now := 20)
    ensures Enabled(s, Mark(1))
    ensures Take(s, Mark(1), next) == s.(stamps := map[7 := 20], lastRunAt := Some(12), nextRunAt := next(20, 0), jobs := map[])
  {
    CarriedByItem(s.digests);
  }

  /**
   * Two overlapping runs of one due window: both send, the story is stamped twice, and the slower job's mark
   * sets the last delivery back to its older snapshot. Where the next window has come due by then, that mark
   * passes it by before any job has read it.
   */
  lemma SecondMarkSetsBack(next: (Time, Preference) -> Time) returns (states: seq<State>, steps: seq<Step>)
    requires Recurs(next)
    ensures Safe(DUE) && Trace(states, steps, next) && states[0] == DUE && |steps| == 14
    ensures states[12].lastRunAt == Some(15) && states[12].stamps == map[7 := 15] && HasBeen(states[12], 10)
    ensures states[14].lastRunAt == Some(12) && states[14].stamps == map[7 := 20] && states[14].sent == [10, 10]
    ensures next(15, 0) <= 20 ==> PassedBy(states[14], next(15, 0)) && states[14].jobs == map[] && states[14].digests.Keys == {10} && next(15, 0) != 10
  {
    states, steps := BothSend(next);
    var s12 := QuickerMarked(next(15, 0));
    QuickerMarks(next);
    states, steps := Extend(states, steps, BOTH_SENT, Mark(0), s12, next);
    var s13 := s12.(now := 20);
    states, steps := Extend(states, steps, s12, Tick(20), s13, next);
    SlowerMarks(s13, next);
    states, steps := Extend(states, steps, s13, Mark(1), Take(s13, Mark(1), next), next);
  }
}
