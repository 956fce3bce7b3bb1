/** The article-fetch work queue: a bounded retry budget per event, polite sweeps, and why the queue drains. */
module FetchQueue {
  import opened Ordering
  import opened LinkModel

  const MAX_FETCH_ATTEMPTS: nat := 3

  /** An event row, as far as the queue reads it; `domain` is that of its first usable link. */
  datatype Row = Row(
    id: Uuid, ingestTime: Time, fetchable: bool, linkCount: nat, domain: Option<string>, hasText: bool, attempts: nat)

  datatype FetchError =
    | BadScheme | BlockedAddress | DnsFailure | BadStatus(code: nat) | DisallowedContentType | TooLarge | Empty
    | TooManyRedirects | Transport

  /** Whether retrying is pointless: client errors other than timeout and throttling, and anything about the link itself. */
  predicate IsPermanent(e: FetchError) {
    match e
    case BadStatus(code) => 400 <= code < 500 && code != 408 && code != 429
    case DnsFailure => false
    case Transport => false
    case _ => true
  }

  datatype Fetched = Article | Failure(error: FetchError)

  /** How an attempt goes: what the network returns, and whether the row could be written back. */
  datatype Attempt = Attempt(result: Fetched, saved: bool)

  predicate Due(r: Row) {
    r.fetchable && r.linkCount >= 1 && !r.hasText && r.attempts < MAX_FETCH_ATTEMPTS
  }

  predicate NewestFirst(x: Row, y: Row) {
    x.ingestTime >= y.ingestTime
  }

  ghost predicate UniqueIds(rows: seq<Row>) {
    forall i, j | 0 <= i < j < |rows| :: rows[i].id != rows[j].id
  }

  function DueRows(rows: seq<Row>): (due: seq<Row>)
    ensures forall r :: r in due <==> r in rows && Due(r)
  {
    if rows == [] then []
    else
      assert rows == rows[..|rows| - 1] + [rows[|rows| - 1]];
      DueRows(rows[..|rows| - 1]) + if Due(rows[|rows| - 1]) then [rows[|rows| - 1]] else []
  }

  /** The newest due rows, at most `limit` of them. */
  function WorkQueue(rows: seq<Row>, limit: nat): seq<Row> {
    var sorted := Sort(NewestFirst, DueRows(rows));
    if |sorted| <= limit then sorted else sorted[..limit]
  }

  /** What a sweep does with a due event. */
  datatype Fate = NoLink | Skip | Fetch

  function CountOf(counts: map<string, nat>, domain: string): nat {
    if domain in counts then counts[domain] else 0
  }

  /** The pre-pass: each event's fate, under the per-domain cap. */
  function Plan(due: seq<Row>, counts: map<string, nat>, cap: nat): (fates: seq<Fate>)
    ensures |fates| == |due|
  {
    if due == [] then []
    else
      match due[0].domain
      case None => [NoLink] + Plan(due[1..], counts, cap)
      case Some(d) =>
        if CountOf(counts, d) >= cap then [Skip] + Plan(due[1..], counts, cap)
        else [Fetch] + Plan(due[1..], counts[d := CountOf(counts, d) + 1], cap)
  }

  /** The row a sweep leaves, given the event's fate and how its attempt went. */
  function After(r: Row, fate: Fate, attempt: Attempt): Row {
    if fate == Skip || !attempt.saved then r
    else if fate == NoLink then r.(attempts := MAX_FETCH_ATTEMPTS)
    else
      match attempt.result
      case Article => r.(hasText := true, attempts := r.attempts + 1)
      case Failure(e) => r.(attempts := if IsPermanent(e) then MAX_FETCH_ATTEMPTS else r.attempts + 1)
  }

  function Written(rows: seq<Row>, id: Uuid, fate: Fate, attempt: Attempt): (r: seq<Row>)
    ensures |r| == |rows|
  {
    seq(|rows|, i requires 0 <= i < |rows| => if rows[i].id == id then After(rows[i], fate, attempt) else rows[i])
  }

  /** The table after every due event has met its fate. */
  function Swept(rows: seq<Row>, due: seq<Row>, fates: seq<Fate>, attempts: Uuid -> Attempt): (r: seq<Row>)
    requires |fates| == |due|
    ensures |r| == |rows|
  {
    if due == [] then rows
    else
      var n := |due| - 1;
      Written(Swept(rows, due[..n], fates[..n], attempts), due[n].id, fates[n], attempts(due[n].id))
  }

  datatype Stats = Stats(fetched: nat, failed: nat, skipped: nat)

  predicate Stored(a: Attempt) {
    a.result == Article && a.saved
  }

  function Counted(s: Stats, fate: Fate, attempt: Attempt): Stats {
    match fate
    case Skip => s.(skipped := s.skipped + 1)
    case NoLink => s.(failed := s.failed + 1)
    case Fetch => if Stored(attempt) then s.(fetched := s.fetched + 1) else s.(failed := s.failed + 1)
  }

  function StatsOf(due: seq<Row>, fates: seq<Fate>, attempts: Uuid -> Attempt): Stats
    requires |fates| == |due|
  {
    if due == [] then Stats(0, 0, 0)
    else
      var n := |due| - 1;
      Counted(StatsOf(due[..n], fates[..n], attempts), fates[n], attempts(due[n].id))
  }

  class Queue {
    var rows: seq<Row>

    constructor (start: seq<Row>)
      ensures rows == start
    {
      rows := start;
    }

    static lemma {:induction false} PlanNext(due: seq<Row>, k: nat, counts: map<string, nat>, cap: nat)
      requires k < |due|
      ensures Plan(due[k..], counts, cap) ==
        match due[k].domain
        case None => [NoLink] + Plan(due[k + 1..], counts, cap)
        case Some(d) =>
          if CountOf(counts, d) >= cap then [Skip] + Plan(due[k + 1..], counts, cap)
          else [Fetch] + Plan(due[k + 1..], counts[d := CountOf(counts, d) + 1], cap)
    {
      assert due[k..][0] == due[k] && due[k..][1..] == due[k + 1..];
    }

    static lemma Prefixed<T>(s: seq<T>, x: T, t: seq<T>)
      ensures s + ([x] + t) == s + [x] + t
    {
    }

    /** Picks each event's link under the per-domain cap, one pass in queue order. */
    static method PrePass(due: seq<Row>, cap: nat) returns (fates: seq<Fate>)
      ensures fates == Plan(due, map[], cap)
    {
      fates := [];
      var counts: map<string, nat> := map[];
      for k := 0 to |due|
        invariant |fates| == k && fates + Plan(due[k..], counts, cap) == Plan(due, map[], cap)
      {
        PlanNext(due, k, counts, cap);
        var fate;
        match due[k].domain {
          case None => fate := NoLink;
          case Some(d) =>
            if CountOf(counts, d) >= cap {
              fate := Skip;
            } else {
              counts := counts[d := CountOf(counts, d) + 1];
              fate := Fetch;
            }
        }
        Prefixed(fates, fate, Plan(due[k + 1..], counts, cap));
        fates := fates + [fate];
      }
    }

    method WriteBack(id: Uuid, fate: Fate, attempt: Attempt)
      modifies this
      ensures rows == Written(old(rows), id, fate, attempt)
    {
      rows := Written(rows, id, fate, attempt);
    }

    /** One sweep: load the queue, plan, then attempt and write back each event on its own row. */
    method Sweep(limit: nat, cap: nat, attempts: Uuid -> Attempt) returns (stats: Stats)
      modifies this
      ensures var due := WorkQueue(old(rows), limit);
        var fates := Plan(due, map[], cap);
        rows == Swept(old(rows), due, fates, attempts) && stats == StatsOf(due, fates, attempts)
    {
      var due := WorkQueue(rows, limit);
      var fates := PrePass(due, cap);
      stats := Stats(0, 0, 0);
      for k := 0 to |due|
        invariant rows == Swept(old(rows), due[..k], fates[..k], attempts)
        invariant stats == StatsOf(due[..k], fates[..k], attempts)
      {
        assert due[..k + 1][..k] == due[..k] && fates[..k + 1][..k] == fates[..k];
        var attempt := attempts(due[k].id);
        WriteBack(due[k].id, fates[k], attempt);
        stats := Counted(stats, fates[k], attempt);
      }
      assert due[..|due|] == due && fates[..|fates|] == fates;
    }
  }
}
