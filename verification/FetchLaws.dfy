/** The retry budget holds, a sweep accounts for every due event, stays polite, and the queue drains. */
module FetchLaws {
  import opened Ordering
  import opened Sums
  import opened LinkModel
  import opened FetchQueue

  // ── Budget ──

  /** No event has spent more than its budget. */
  ghost predicate WithinBudget(rows: seq<Row>) {
    forall i | 0 <= i < |rows| :: rows[i].attempts <= MAX_FETCH_ATTEMPTS
  }

  /** What a due event may still cost. */
  function Left(r: Row): nat {
    if Due(r) then MAX_FETCH_ATTEMPTS - r.attempts else 0
  }

  function LeftOf(): Row -> int {
    (r: Row) => Left(r)
  }

  /** The sum of the remaining budgets. */
  function Remaining(rows: seq<Row>): int {
    Sum(LeftOf(), rows)
  }

  // ── What a sweep does to a row ──

  lemma {:induction false} DueRowsUnique(rows: seq<Row>)
    requires UniqueIds(rows)
    ensures UniqueIds(DueRows(rows))
  {
    if rows != [] {
      var n := |rows| - 1;
      DueRowsUnique(rows[..n]);
      forall i | 0 <= i < |DueRows(rows[..n])| ensures DueRows(rows[..n])[i].id != rows[n].id {
        assert DueRows(rows[..n])[i] in rows[..n];
      }
    }
  }

  lemma UniqueByMembers(a: seq<Row>, b: seq<Row>)
    requires UniqueIds(a) && multiset(a) == multiset(b)
    ensures UniqueIds(b)
  {
    assert Distinct(a);
    DistinctFromMultiset(a, b);
    PermutedMembers(a, b);
    forall i, j | 0 <= i < j < |b| ensures b[i].id != b[j].id {
      assert b[i] in a && b[j] in a;
      var k :| 0 <= k < |a| && a[k] == b[i];
      var l :| 0 <= l < |a| && a[l] == b[j];
      assert k != l;
    }
  }

  lemma NewestFirstTotal()
    ensures Total(NewestFirst)
  {
  }

  /** The work queue: due rows of the table, each once, newest first, at most `limit`; none left out while there is room or newer than one kept. */
  lemma WorkQueueMeaning(rows: seq<Row>, limit: nat)
    requires UniqueIds(rows)
    ensures var due := WorkQueue(rows, limit);
      && UniqueIds(due) && |due| <= limit && (forall r | r in due :: r in rows && Due(r))
      && (|due| < limit ==> forall r | r in rows && Due(r) :: r in due)
      && Sorted(NewestFirst, due)
      && forall kept, r | kept in due && r in rows && Due(r) && r !in due :: kept.ingestTime >= r.ingestTime
  {
    var sorted, due := Sort(NewestFirst, DueRows(rows)), WorkQueue(rows, limit);
    SortSorted(NewestFirst, DueRows(rows));
    forall kept, r | kept in due && r in rows && Due(r) && r !in due ensures kept.ingestTime >= r.ingestTime {
      KeptIsNewer(rows, limit, kept, r);
    }
    DueRowsUnique(rows);
    UniqueByMembers(DueRows(rows), Sort(NewestFirst, DueRows(rows)));
    SortMembers(NewestFirst, DueRows(rows));
  }

  lemma KeptIsNewer(rows: seq<Row>, limit: nat, kept: Row, r: Row)
    requires kept in WorkQueue(rows, limit) && r in rows && Due(r) && r !in WorkQueue(rows, limit)
    ensures kept.ingestTime >= r.ingestTime
  {
    var sorted, due := Sort(NewestFirst, DueRows(rows)), WorkQueue(rows, limit);
    NewestFirstTotal();
    SortSorted(NewestFirst, DueRows(rows));
    SortMembers(NewestFirst, DueRows(rows));
    assert r in sorted;
    var j :| 0 <= j < |sorted| && sorted[j] == r;
    var i :| 0 <= i < |due| && due[i] == kept;
    assert forall l | 0 <= l < |due| :: due[l] in due && due[l] == sorted[l];
    assert NewestFirst(sorted[i], sorted[j]);
  }

  /** `fates` says what happens to the event with an id, if it is in the queue. */
  ghost predicate Meets(due: seq<Row>, fates: seq<Fate>, id: Uuid, k: nat)
    requires |fates| == |due|
  {
    k < |due| && due[k].id == id
  }

  lemma {:induction false} SweptOther(rows: seq<Row>, due: seq<Row>, fates: seq<Fate>, attempts: Uuid -> Attempt, i: nat)
    requires |fates| == |due| && i < |rows| && forall k | 0 <= k < |due| :: due[k].id != rows[i].id
    ensures Swept(rows, due, fates, attempts)[i] == rows[i]
  {
    if due != [] {
      var n := |due| - 1;
      SweptOther(rows, due[..n], fates[..n], attempts, i);
      assert due[n].id != rows[i].id;
    }
  }

  lemma {:induction false} SweptRow(rows: seq<Row>, due: seq<Row>, fates: seq<Fate>, attempts: Uuid -> Attempt, i: nat, k: nat)
    requires |fates| == |due| && UniqueIds(due) && i < |rows| && k < |due| && due[k].id == rows[i].id
    ensures Swept(rows, due, fates, attempts)[i] == After(rows[i], fates[k], attempts(rows[i].id))
  {
    var n := |due| - 1;
    if k == n {
      SweptOther(rows, due[..n], fates[..n], attempts, i);
    } else {
      SweptRow(rows, due[..n], fates[..n], attempts, i, k);
      AfterKeepsId(rows[i], fates[k], attempts(rows[i].id));
    }
  }

  lemma AfterKeepsId(r: Row, fate: Fate, attempt: Attempt)
    ensures After(r, fate, attempt).id == r.id
  {
  }

  /** One fate: the budget is never exceeded, and a recorded attempt costs at least one. */
  lemma AfterSpends(r: Row, fate: Fate, attempt: Attempt)
    requires Due(r)
    ensures After(r, fate, attempt).attempts <= MAX_FETCH_ATTEMPTS
    ensures Left(After(r, fate, attempt)) <= Left(r)
    ensures fate != Skip && attempt.saved ==> Left(After(r, fate, attempt)) < Left(r)
  {
  }

  lemma {:induction false} SweepRow(rows: seq<Row>, limit: nat, cap: nat, attempts: Uuid -> Attempt, i: nat)
    requires UniqueIds(rows) && WithinBudget(rows) && i < |rows|
    ensures var due := WorkQueue(rows, limit);
      var r := Swept(rows, due, Plan(due, map[], cap), attempts)[i];
      r.id == rows[i].id && r.attempts <= MAX_FETCH_ATTEMPTS && Left(r) <= Left(rows[i])
  {
    var due := WorkQueue(rows, limit);
    var fates := Plan(due, map[], cap);
    WorkQueueMeaning(rows, limit);
    if k: nat :| Meets(due, fates, rows[i].id, k) {
      SweptRow(rows, due, fates, attempts, i, k);
      SameRow(rows, due[k], i);
      AfterSpends(rows[i], fates[k], attempts(rows[i].id));
      AfterKeepsId(rows[i], fates[k], attempts(rows[i].id));
    } else {
      forall k: nat | k < |due| ensures due[k].id != rows[i].id {
        assert !Meets(due, fates, rows[i].id, k);
      }
      SweptOther(rows, due, fates, attempts, i);
    }
  }

  lemma SameRow(rows: seq<Row>, r: Row, i: nat)
    requires UniqueIds(rows) && r in rows && i < |rows| && r.id == rows[i].id
    ensures r == rows[i]
  {
    var j :| 0 <= j < |rows| && rows[j] == r;
    assert j == i;
  }

  /** Sweeping keeps every event within its budget of three attempts, whatever the network and the database do. */
  lemma {:induction false} SweepKeepsBudget(rows: seq<Row>, limit: nat, cap: nat, attempts: Uuid -> Attempt)
    requires UniqueIds(rows) && WithinBudget(rows)
    ensures var due := WorkQueue(rows, limit);
      var next := Swept(rows, due, Plan(due, map[], cap), attempts);
      UniqueIds(next) && WithinBudget(next) && Remaining(next) <= Remaining(rows)
  {
    var due := WorkQueue(rows, limit);
    var next := Swept(rows, due, Plan(due, map[], cap), attempts);
    forall i: nat | i < |rows| ensures next[i].id == rows[i].id && next[i].attempts <= MAX_FETCH_ATTEMPTS && Left(next[i]) <= Left(rows[i]) {
      SweepRow(rows, limit, cap, attempts, i);
    }
    SumLe(LeftOf(), next, rows);
  }

  lemma {:induction false} SumLe(f: Row -> int, a: seq<Row>, b: seq<Row>)
    requires |a| == |b| && forall i | 0 <= i < |a| :: f(a[i]) <= f(b[i])
    ensures Sum(f, a) <= Sum(f, b)
  {
    if a != [] {
      SumLe(f, a[1..], b[1..]);
    }
  }

  lemma {:induction false} SumLess(f: Row -> int, a: seq<Row>, b: seq<Row>, i: nat)
    requires |a| == |b| && (forall i | 0 <= i < |a| :: f(a[i]) <= f(b[i])) && i < |a| && f(a[i]) < f(b[i])
    ensures Sum(f, a) < Sum(f, b)
  {
    if i == 0 {
      SumLe(f, a[1..], b[1..]);
    } else {
      SumLess(f, a[1..], b[1..], i - 1);
    }
  }

  // ── Accounting ──

  /** Each due event is counted once: fetched, failed or skipped. */
  lemma {:induction false} StatsSplitDue(due: seq<Row>, fates: seq<Fate>, attempts: Uuid -> Attempt)
    requires |fates| == |due|
    ensures var s := StatsOf(due, fates, attempts); s.fetched + s.failed + s.skipped == |due|
  {
    if due != [] {
      StatsSplitDue(due[..|due| - 1], fates[..|due| - 1], attempts);
    }
  }

  // ── Politeness ──

  function FetchesFrom(due: seq<Row>, fates: seq<Fate>, domain: string): nat
    requires |fates| == |due|
  {
    if due == [] then 0
    else FetchesFrom(due[1..], fates[1..], domain) + if fates[0] == Fetch && due[0].domain == Some(domain) then 1 else 0
  }

  lemma {:induction false} PlanPolite(due: seq<Row>, counts: map<string, nat>, cap: nat, domain: string)
    requires CountOf(counts, domain) <= cap
    ensures CountOf(counts, domain) + FetchesFrom(due, Plan(due, counts, cap), domain) <= cap
  {
    if due != [] {
      match due[0].domain {
        case None => PlanPolite(due[1..], counts, cap, domain);
        case Some(d) =>
          if CountOf(counts, d) >= cap {
            PlanPolite(due[1..], counts, cap, domain);
          } else {
            PlanPolite(due[1..], counts[d := CountOf(counts, d) + 1], cap, domain);
          }
      }
    }
  }

  /** A sweep asks no domain for more than the cap. */
  lemma {:induction false} SweepPolite(rows: seq<Row>, limit: nat, cap: nat, domain: string)
    ensures FetchesFrom(WorkQueue(rows, limit), Plan(WorkQueue(rows, limit), map[], cap), domain) <= cap
  {
    PlanPolite(WorkQueue(rows, limit), map[], cap, domain);
  }

  // ── Draining ──

  ghost predicate AllSaved(attempts: Uuid -> Attempt) {
    forall id :: attempts(id).saved
  }

  /** With some link budget per domain, the first event of the queue is never skipped. */
  lemma {:induction false} FirstNotSkipped(due: seq<Row>, cap: nat)
    requires due != [] && cap >= 1
    ensures Plan(due, map[], cap)[0] != Skip
  {
  }

  /** A sweep over a non-empty queue spends some budget when write-backs succeed. */
  lemma {:induction false} SweepSpends(rows: seq<Row>, limit: nat, cap: nat, attempts: Uuid -> Attempt)
    requires UniqueIds(rows) && WithinBudget(rows) && AllSaved(attempts) && cap >= 1 && WorkQueue(rows, limit) != []
    ensures var due := WorkQueue(rows, limit);
      Remaining(Swept(rows, due, Plan(due, map[], cap), attempts)) < Remaining(rows)
  {
    var due := WorkQueue(rows, limit);
    var fates := Plan(due, map[], cap);
    var next := Swept(rows, due, fates, attempts);
    WorkQueueMeaning(rows, limit);
    assert due[0] in due;
    var i :| 0 <= i < |rows| && rows[i] == due[0];
    forall j: nat | j < |rows| ensures Left(next[j]) <= Left(rows[j]) {
      SweepRow(rows, limit, cap, attempts, j);
    }
    SweptRow(rows, due, fates, attempts, i, 0);
    FirstNotSkipped(due, cap);
    AfterSpends(rows[i], fates[0], attempts(rows[i].id));
    SumLess(LeftOf(), next, rows, i);
  }

  /** One sweep with every write-back succeeding. */
  ghost predicate SweptTo(rows: seq<Row>, next: seq<Row>, limit: nat, cap: nat) {
    exists attempts :: AllSaved(attempts) && next == Swept(rows, WorkQueue(rows, limit), Plan(WorkQueue(rows, limit), map[], cap), attempts)
  }

  ghost predicate Sweeps(tables: seq<seq<Row>>, limit: nat, cap: nat) {
    tables != [] && (|tables| == 1
                     || (Sweeps(tables[..|tables| - 1], limit, cap) && SweptTo(tables[|tables| - 2], tables[|tables| - 1], limit, cap)))
  }

  lemma {:induction false} RemainingNonnegative(rows: seq<Row>)
    ensures Remaining(rows) >= 0
    ensures Remaining(rows) == 0 ==> forall r | r in rows :: !Due(r)
  {
    if rows != [] {
      assert rows == [rows[0]] + rows[1..];
      RemainingNonnegative(rows[1..]);
    }
  }

  lemma EmptyQueueMeansNothingDue(rows: seq<Row>, limit: nat)
    requires UniqueIds(rows) && limit >= 1 && WorkQueue(rows, limit) == []
    ensures forall r | r in rows :: !Due(r)
  {
    WorkQueueMeaning(rows, limit);
  }

  lemma {:induction false} SweepsSpend(tables: seq<seq<Row>>, limit: nat, cap: nat)
    requires Sweeps(tables, limit, cap) && UniqueIds(tables[0]) && WithinBudget(tables[0]) && cap >= 1 && limit >= 1
    ensures var last := tables[|tables| - 1];
      && UniqueIds(last) && WithinBudget(last)
      && (WorkQueue(last, limit) == [] || Remaining(last) <= Remaining(tables[0]) - (|tables| - 1))
  {
    if |tables| > 1 {
      var front, last := tables[..|tables| - 1], tables[|tables| - 1];
      var rows := front[|front| - 1];
      SweepsSpend(front, limit, cap);
      OneSweep(rows, last, limit, cap);
    }
  }

  /** A sweep empties nothing from an empty queue, and spends from any other. */
  lemma OneSweep(rows: seq<Row>, next: seq<Row>, limit: nat, cap: nat)
    requires UniqueIds(rows) && WithinBudget(rows) && SweptTo(rows, next, limit, cap) && cap >= 1
    ensures UniqueIds(next) && WithinBudget(next)
    ensures if WorkQueue(rows, limit) == [] then next == rows else Remaining(next) < Remaining(rows)
  {
    var attempts :| AllSaved(attempts) && next == Swept(rows, WorkQueue(rows, limit), Plan(WorkQueue(rows, limit), map[], cap), attempts);
    SweepKeepsBudget(rows, limit, cap, attempts);
    if WorkQueue(rows, limit) != [] {
      SweepSpends(rows, limit, cap, attempts);
    }
  }

  /**
   * With no new events and write-backs succeeding, as many sweeps as the sum of the remaining budgets empty the
   * queue, whatever the network answers.
   */
  lemma {:induction false} QueueDrains(tables: seq<seq<Row>>, limit: nat, cap: nat)
    requires Sweeps(tables, limit, cap) && UniqueIds(tables[0]) && WithinBudget(tables[0]) && cap >= 1 && limit >= 1
    requires |tables| - 1 >= Remaining(tables[0])
    ensures forall r | r in tables[|tables| - 1] :: !Due(r)
  {
    var last := tables[|tables| - 1];
    SweepsSpend(tables, limit, cap);
    RemainingNonnegative(last);
    if WorkQueue(last, limit) == [] {
      EmptyQueueMeansNothingDue(last, limit);
    }
  }

  lemma {:induction false} ZeroCapPlans(due: seq<Row>, counts: map<string, nat>)
    ensures forall k | 0 <= k < |due| :: Plan(due, counts, 0)[k] == if due[k].domain.None? then NoLink else Skip
  {
    if due != [] {
      ZeroCapPlans(due[1..], counts);
      var rest := Plan(due[1..], counts, 0);
      assert Plan(due, counts, 0) == [if due[0].domain.None? then NoLink else Skip] + rest;
      forall k | 0 < k < |due| ensures Plan(due, counts, 0)[k] == if due[k].domain.None? then NoLink else Skip {
        assert due[k] == due[1..][k - 1] && Plan(due, counts, 0)[k] == rest[k - 1];
      }
    }
  }

  /** With a zero cap an event that has a link is never attempted, so its budget stays and the queue never drains. */
  lemma {:induction false} ZeroCapNeverFetches(rows: seq<Row>, limit: nat, attempts: Uuid -> Attempt, i: nat)
    requires UniqueIds(rows) && i < |rows| && rows[i].domain.Some?
    ensures var due := WorkQueue(rows, limit); Swept(rows, due, Plan(due, map[], 0), attempts)[i] == rows[i]
  {
    var due := WorkQueue(rows, limit);
    var fates := Plan(due, map[], 0);
    WorkQueueMeaning(rows, limit);
    ZeroCapPlans(due, map[]);
    if k: nat :| Meets(due, fates, rows[i].id, k) {
      SweptRow(rows, due, fates, attempts, i, k);
      SameRow(rows, due[k], i);
    } else {
      forall k: nat | k < |due| ensures due[k].id != rows[i].id {
        assert !Meets(due, fates, rows[i].id, k);
      }
      SweptOther(rows, due, fates, attempts, i);
    }
  }
}
