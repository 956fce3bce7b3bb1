/** What a sweep does to each event and what it reports, read off the queue, the links and the answers. */
module FetchMeaning {
  import opened Ordering
  import opened Sums
  import opened LinkModel
  import opened FetchQueue
  import opened FetchLaws

  // ── Who is fetched ──

  function OnDomain(d: string): Row -> bool {
    (r: Row) => r.domain == Some(d)
  }

  /** How many events before position `k` of the queue are on the domain. */
  function Ahead(due: seq<Row>, k: nat, d: string): nat
    requires k <= |due|
  {
    |Filter(OnDomain(d), due[..k])|
  }

  lemma AheadNext(due: seq<Row>, k: nat, d: string)
    requires 0 < k <= |due|
    ensures Ahead(due, k, d) == Ahead(due[1..], k - 1, d) + if due[0].domain == Some(d) then 1 else 0
  {
    assert due[..k] == [due[0]] + due[1..][..k - 1];
    FilterCons(OnDomain(d), due[0], due[1..][..k - 1]);
  }

  /** With so many fetches of each domain spent already, the rest of the queue fares as its place in it says. */
  lemma {:induction false} PlanFrom(due: seq<Row>, counts: map<string, nat>, cap: nat, k: nat)
    requires k < |due| && forall d | d in counts :: counts[d] <= cap
    ensures Plan(due, counts, cap)[k] ==
      match due[k].domain
      case None => NoLink
      case Some(d) => if CountOf(counts, d) + Ahead(due, k, d) < cap then Fetch else Skip
  {
    if k > 0 {
      var spent := if due[0].domain.Some? && CountOf(counts, due[0].domain.value) < cap
                   then counts[due[0].domain.value := CountOf(counts, due[0].domain.value) + 1] else counts;
      assert Plan(due, counts, cap)[1..] == Plan(due[1..], spent, cap);
      PlanFrom(due[1..], spent, cap, k - 1);
      if due[k].domain.Some? {
        AheadNext(due, k, due[k].domain.value);
      }
    }
  }

  /** The first `cap` events of each domain are fetched, the later ones wait, and one without a usable link is given up. */
  lemma {:induction false} FirstOfEachDomain(due: seq<Row>, cap: nat, k: nat)
    requires k < |due|
    ensures Plan(due, map[], cap)[k] ==
      match due[k].domain
      case None => NoLink
      case Some(d) => if Ahead(due, k, d) < cap then Fetch else Skip
  {
    PlanFrom(due, map[], cap, k);
  }

  // ── What becomes of a row ──

  /** A client error other than a timeout or throttling, or trouble that lies with the link itself. */
  predicate Hopeless(e: FetchError) {
    match e
    case BadStatus(code) => code >= 400 && code < 500 && code != 408 && code != 429
    case BadScheme => true
    case BlockedAddress => true
    case DisallowedContentType => true
    case TooLarge => true
    case Empty => true
    case TooManyRedirects => true
    case DnsFailure => false
    case Transport => false
  }

  /** Nothing but the text and the attempts of a row ever changes. */
  predicate SameButFetch(r: Row, was: Row) {
    r.(hasText := was.hasText, attempts := was.attempts) == was
  }

  /** An attempt written back: text once an article came, and one attempt spent, or all three where trying again is hopeless. */
  predicate Tried(r: Row, was: Row, a: Attempt) {
    && SameButFetch(r, was)
    && (r.hasText <==> was.hasText || a.result.Article?)
    && r.attempts == if a.result.Failure? && Hopeless(a.result.error) then 3 else was.attempts + 1
  }

  /** The event at place `k` of the queue, swept. */
  ghost predicate SweptAs(due: seq<Row>, k: nat, cap: nat, a: Attempt, r: Row, was: Row)
    requires k < |due|
  {
    if !a.saved then r == was
    else
      match due[k].domain
      case None => SameButFetch(r, was) && r.hasText == was.hasText && r.attempts == 3
      case Some(d) => if Ahead(due, k, d) < cap then Tried(r, was, a) else r == was
  }

  lemma FateMeaning(due: seq<Row>, k: nat, cap: nat, a: Attempt, was: Row, fate: Fate)
    requires k < |due|
    requires fate == match due[k].domain case None => NoLink case Some(d) => if Ahead(due, k, d) < cap then Fetch else Skip
    ensures SweptAs(due, k, cap, a, After(was, fate, a), was)
  {
    if a.saved && fate == Fetch {
      AttemptMeaning(was, a);
    }
  }

  lemma AttemptMeaning(was: Row, a: Attempt)
    requires a.saved
    ensures Tried(After(was, Fetch, a), was, a)
  {
  }

  /** A sweep touches the events of its queue alone, each according to its place and its answer. */
  lemma {:induction false} SweepMeaning(rows: seq<Row>, limit: nat, cap: nat, attempts: Uuid -> Attempt, i: nat)
    requires UniqueIds(rows) && i < |rows|
    ensures var due := WorkQueue(rows, limit);
      var next := Swept(rows, due, Plan(due, map[], cap), attempts);
      if forall k | 0 <= k < |due| :: due[k].id != rows[i].id then next[i] == rows[i]
      else exists k | 0 <= k < |due| && due[k].id == rows[i].id :: SweptAs(due, k, cap, attempts(rows[i].id), next[i], rows[i])
  {
    var due := WorkQueue(rows, limit);
    var fates := Plan(due, map[], cap);
    WorkQueueMeaning(rows, limit);
    if k :| 0 <= k < |due| && due[k].id == rows[i].id {
      SweptRow(rows, due, fates, attempts, i, k);
      FirstOfEachDomain(due, cap, k);
      FateMeaning(due, k, cap, attempts(rows[i].id), rows[i], fates[k]);
    } else {
      SweptOther(rows, due, fates, attempts, i);
    }
  }

  /** The queue holds events that can be fetched, have a link and no text, and have been tried less than three times. */
  lemma QueueMeaning(rows: seq<Row>, limit: nat, r: Row)
    requires UniqueIds(rows) && r in WorkQueue(rows, limit)
    ensures r in rows && r.fetchable && r.linkCount >= 1 && !r.hasText && r.attempts <= 2
  {
    WorkQueueMeaning(rows, limit);
  }

  /** An article, once stored, or a link given up, takes the event off the queue for good: no later sweep touches it. */
  lemma {:induction false} SettledStays(rows: seq<Row>, limit: nat, cap: nat, attempts: Uuid -> Attempt, i: nat)
    requires UniqueIds(rows) && i < |rows| && (rows[i].hasText || rows[i].attempts >= 3)
    ensures var due := WorkQueue(rows, limit); Swept(rows, due, Plan(due, map[], cap), attempts)[i] == rows[i]
  {
    var due := WorkQueue(rows, limit);
    WorkQueueMeaning(rows, limit);
    forall k | 0 <= k < |due| ensures due[k].id != rows[i].id {
      assert due[k] in due;
      var j :| 0 <= j < |rows| && rows[j] == due[k];
    }
    SweptOther(rows, due, Plan(due, map[], cap), attempts, i);
  }

  // ── What is reported ──

  predicate Arrived(a: Attempt) {
    a.result.Article? && a.saved
  }

  function FetchedAt(due: seq<Row>, cap: nat, attempts: Uuid -> Attempt): nat -> int {
    (k: nat) => if k < |due| && due[k].domain.Some? && Ahead(due, k, due[k].domain.value) < cap && Arrived(attempts(due[k].id)) then 1 else 0
  }

  function FailedAt(due: seq<Row>, cap: nat, attempts: Uuid -> Attempt): nat -> int {
    (k: nat) => if k < |due| && (due[k].domain.None?
                                 || (Ahead(due, k, due[k].domain.value) < cap && !Arrived(attempts(due[k].id)))) then 1 else 0
  }

  function SkippedAt(due: seq<Row>, cap: nat): nat -> int {
    (k: nat) => if k < |due| && due[k].domain.Some? && Ahead(due, k, due[k].domain.value) >= cap then 1 else 0
  }

  ghost predicate Reports(stats: Stats, due: seq<Row>, cap: nat, attempts: Uuid -> Attempt, n: nat) {
    && stats.fetched == Sum(FetchedAt(due, cap, attempts), Indices(n))
    && stats.failed == Sum(FailedAt(due, cap, attempts), Indices(n))
    && stats.skipped == Sum(SkippedAt(due, cap), Indices(n))
  }

  lemma {:induction false} ReportsUpTo(due: seq<Row>, cap: nat, attempts: Uuid -> Attempt, n: nat)
    requires n <= |due|
    ensures Reports(StatsOf(due[..n], Plan(due, map[], cap)[..n], attempts), due, cap, attempts, n)
  {
    if n > 0 {
      var fates := Plan(due, map[], cap);
      ReportsUpTo(due, cap, attempts, n - 1);
      FirstOfEachDomain(due, cap, n - 1);
      assert due[..n][..n - 1] == due[..n - 1] && fates[..n][..n - 1] == fates[..n - 1];
      SumIndicesNext(FetchedAt(due, cap, attempts), n - 1);
      SumIndicesNext(FailedAt(due, cap, attempts), n - 1);
      SumIndicesNext(SkippedAt(due, cap), n - 1);
    }
  }

  /** Articles stored count as fetched; events given up, and attempts without a stored article, as failed; the rest as skipped. */
  lemma {:induction false} ReportMeaning(due: seq<Row>, cap: nat, attempts: Uuid -> Attempt)
    ensures Reports(StatsOf(due, Plan(due, map[], cap), attempts), due, cap, attempts, |due|)
  {
    ReportsUpTo(due, cap, attempts, |due|);
    assert due[..|due|] == due && Plan(due, map[], cap)[..|due|] == Plan(due, map[], cap);
  }
}
