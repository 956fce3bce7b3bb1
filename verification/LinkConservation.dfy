/** Linking neither loses nor doubles anything: members, event counts, and any other per-cluster quantity. */
module LinkConservation {
  import opened Ordering
  import opened Sums
  import opened Connectivity
  import opened LinkModel
  import opened LinkComponents
  import opened LinkForwarding
  import opened Linking
  import opened LinkLaws

  /** The total over indices below `m` whose label is below `k`. */
  ghost function Below(h: nat -> int, lab: seq<nat>, k: nat, m: nat): int
    requires m <= |lab|
  {
    if m == 0 then 0 else Below(h, lab, k, m - 1) + if lab[m - 1] < k then h(m - 1) else 0
  }

  lemma {:induction false} BelowNext(h: nat -> int, lab: seq<nat>, k: nat, m: nat)
    requires m <= |lab|
    ensures Below(h, lab, k + 1, m) == Below(h, lab, k, m) + Sum(h, Members(lab, k, m))
  {
    if m > 0 {
      BelowNext(h, lab, k, m - 1);
      MembersSum(h, lab, k, m);
      BelowStep(h, lab, k, m);
      BelowStep(h, lab, k + 1, m);
    }
  }

  lemma BelowStep(h: nat -> int, lab: seq<nat>, k: nat, m: nat)
    requires 0 < m <= |lab|
    ensures Below(h, lab, k, m) == Below(h, lab, k, m - 1) + if lab[m - 1] < k then h(m - 1) else 0
  {
  }

  lemma MembersSum(h: nat -> int, lab: seq<nat>, k: nat, m: nat)
    requires 0 < m <= |lab|
    ensures Sum(h, Members(lab, k, m)) == Sum(h, Members(lab, k, m - 1)) + if lab[m - 1] == k then h(m - 1) else 0
  {
    var earlier := Members(lab, k, m - 1);
    if lab[m - 1] == k {
      var last: seq<nat> := [m - 1];
      assert Members(lab, k, m) == earlier + last;
      SumAppend<nat>(h, earlier, last);
      SumOne<nat>(h, m - 1);
    } else {
      assert Members(lab, k, m) == earlier;
    }
  }

  lemma {:induction false} NoneBelow(h: nat -> int, lab: seq<nat>, m: nat)
    requires m <= |lab|
    ensures Below(h, lab, 0, m) == 0
  {
    if m > 0 {
      NoneBelow(h, lab, m - 1);
    }
  }

  lemma {:induction false} AllBelow(h: nat -> int, lab: seq<nat>, m: nat)
    requires m <= |lab| && Canonical(lab)
    ensures Below(h, lab, |lab|, m) == Sum(h, Indices(m))
  {
    if m > 0 {
      AllBelow(h, lab, m - 1);
      SumIndicesNext(h, m - 1);
    }
  }

  function MemberSum(h: nat -> int): Keyed -> int {
    (x: Keyed) => Sum(h, x.members)
  }

  /** The totals of the classes led below `k`. */
  ghost function ClassTotals(h: nat -> int, lab: seq<nat>, k: nat): int
    requires k <= |lab|
  {
    if k == 0 then 0 else ClassTotals(h, lab, k - 1) + if lab[k - 1] == k - 1 then Sum(h, Class(lab, k - 1)) else 0
  }

  lemma {:induction false} ClassTotalsBelow(h: nat -> int, lab: seq<nat>, k: nat)
    requires Canonical(lab) && k <= |lab|
    ensures ClassTotals(h, lab, k) == Below(h, lab, k, |lab|)
  {
    if k == 0 {
      NoneBelow(h, lab, |lab|);
    } else {
      ClassTotalsBelow(h, lab, k - 1);
      BelowNext(h, lab, k - 1, |lab|);
      if lab[k - 1] != k - 1 {
        NotAClass(lab, k - 1);
      }
    }
  }

  lemma {:induction false} NotAClass(lab: seq<nat>, c: nat)
    requires Canonical(lab) && c < |lab| && lab[c] != c
    ensures Members(lab, c, |lab|) == []
  {
    forall i: nat | i < |lab| ensures lab[i] != c {
      assert lab[lab[i]] == lab[i];
    }
    NoMembers(lab, c, |lab|);
  }

  lemma {:induction false} ClassesSum(cs: seq<Cluster>, lab: seq<nat>, h: nat -> int, k: nat)
    requires |lab| == |cs| && k <= |lab|
    ensures Sum(MemberSum(h), Classes(cs, lab, k)) == ClassTotals(h, lab, k)
  {
    if k > 0 {
      ClassesSum(cs, lab, h, k - 1);
      var earlier := Classes(cs, lab, k - 1);
      if lab[k - 1] == k - 1 {
        SumAppend(MemberSum(h), earlier, [ClassKey(cs, lab, k - 1)]);
        SumOne(MemberSum(h), ClassKey(cs, lab, k - 1));
      } else {
        assert Classes(cs, lab, k) == earlier;
      }
    }
  }

  lemma ClassesConserve(cs: seq<Cluster>, lab: seq<nat>, h: nat -> int)
    requires |lab| == |cs| && Canonical(lab)
    ensures Sum(MemberSum(h), OrderedClasses(cs, lab)) == Sum(h, Indices(|cs|))
  {
    ClassesSum(cs, lab, h, |lab|);
    ClassTotalsBelow(h, lab, |lab|);
    AllBelow(h, lab, |lab|);
    SumPermuted(MemberSum(h), OrderedClasses(cs, lab), Classes(cs, lab, |lab|));
  }

  /** If `g` reads off each story the total of `h` over its members, summing `g` over the stories totals `h` over the candidates. */
  lemma StoriesConserve(cs: seq<Cluster>, es: seq<Edge>, prior: map<Uuid, Uuid>, delivered: set<Uuid>, mint: nat -> Uuid,
                        g: LinkedStory -> int, h: nat -> int, all: seq<LinkedStory>)
    requires Candidates(cs) && InRange(es, |cs|)
    requires multiset(all) == multiset(Link(cs, es, prior, delivered, mint).stories)
    requires var ks := OrderedClasses(cs, StoryLabels(cs, es, prior, delivered));
      |all| == |ks| && forall k | 0 <= k < |ks| :: g(all[k]) == MemberSum(h)(ks[k])
    ensures Sum(g, Link(cs, es, prior, delivered, mint).stories) == Sum(h, Indices(|cs|))
  {
    var lab := StoryLabels(cs, es, prior, delivered);
    SumPermuted(g, Link(cs, es, prior, delivered, mint).stories, all);
    SumMatches(g, MemberSum(h), all, OrderedClasses(cs, lab));
    ClassesConserve(cs, lab, h);
  }

  /** The stories in component order, before the output sort. */
  lemma Unsorted(cs: seq<Cluster>, es: seq<Edge>, prior: map<Uuid, Uuid>, delivered: set<Uuid>, mint: nat -> Uuid)
    returns (all: seq<LinkedStory>)
    requires Candidates(cs) && InRange(es, |cs|)
    ensures multiset(all) == multiset(Link(cs, es, prior, delivered, mint).stories)
    ensures var lab := StoryLabels(cs, es, prior, delivered);
      var ks := OrderedClasses(cs, lab);
      && Readable(cs, ks) && |all| == |ks|
      && forall k | 0 <= k < |ks| :: ks[k] in ks && all[k] == StoryOf(cs, Reasons(es, lab), StoryIds(cs, lab, prior, mint)[k], ks[k].members)
  {
    var lab := StoryLabels(cs, es, prior, delivered);
    OrderedReadable(cs, lab);
    all := AllStories(cs, Reasons(es, lab), OrderedClasses(cs, lab), StoryIds(cs, lab, prior, mint));
  }

  lemma {:induction false} TotalEventsSum(cs: seq<Cluster>, ms: seq<nat>, h: nat -> int)
    requires forall i | i in ms :: i < |cs|
    requires forall i: nat | i < |cs| :: h(i) == cs[i].eventCount
    ensures TotalEvents(cs, ms) == Sum(h, ms)
  {
    if ms != [] {
      assert ms[0] in ms && forall i | i in ms[1..] :: i in ms;
      TotalEventsSum(cs, ms[1..], h);
    }
  }

  function StoryEvents(): LinkedStory -> int {
    (s: LinkedStory) => s.eventCount
  }

  function ClusterEvents(): Cluster -> int {
    (c: Cluster) => c.eventCount
  }

  function EventsAt(cs: seq<Cluster>): nat -> int {
    (i: nat) => if i < |cs| then cs[i].eventCount else 0
  }

  /** Event counts are conserved: the stories' counts add up to the candidates'. */
  lemma {:induction false} EventsConserved(cs: seq<Cluster>, es: seq<Edge>, prior: map<Uuid, Uuid>, delivered: set<Uuid>, mint: nat -> Uuid)
    requires Candidates(cs) && InRange(es, |cs|)
    ensures Sum(StoryEvents(), Link(cs, es, prior, delivered, mint).stories) == Sum(ClusterEvents(), cs)
  {
    var all := Unsorted(cs, es, prior, delivered, mint);
    var ks := OrderedClasses(cs, StoryLabels(cs, es, prior, delivered));
    forall k | 0 <= k < |ks| ensures StoryEvents()(all[k]) == MemberSum(EventsAt(cs))(ks[k]) {
      assert ks[k] in ks;
      TotalEventsSum(cs, ks[k].members, EventsAt(cs));
    }
    StoriesConserve(cs, es, prior, delivered, mint, StoryEvents(), EventsAt(cs), all);
    SumMatches(EventsAt(cs), ClusterEvents(), Indices(|cs|), cs);
  }

  function Names(id: Uuid): ClusterRef -> int {
    (r: ClusterRef) => if r.clusterId == id then 1 else 0
  }

  /** How often a cluster id occurs among a story's members. */
  function Occurrences(id: Uuid): LinkedStory -> int {
    (s: LinkedStory) => Sum(Names(id), s.clusters)
  }

  lemma {:induction false} StoryOccurrences(cs: seq<Cluster>, reasons: seq<Option<string>>, sid: Uuid, ms: seq<nat>, id: Uuid, h: nat -> int)
    requires |reasons| == |cs| && ms != [] && forall i | i in ms :: i < |cs|
    requires forall i: nat :: h(i) == if i < |cs| && cs[i].id == id then 1 else 0
    ensures Occurrences(id)(StoryOf(cs, reasons, sid, ms)) == Sum(h, ms)
  {
    var rs := Refs(cs, reasons, ms);
    SumPermuted(Names(id), Sort(RefLe, rs), rs);
    forall k | 0 <= k < |ms| ensures Names(id)(rs[k]) == h(ms[k]) {
      assert ms[k] in ms;
    }
    SumMatches(Names(id), h, rs, ms);
  }

  lemma {:induction false} CountOnce(cs: seq<Cluster>, id: Uuid, h: nat -> int, m: nat)
    requires Candidates(cs) && m <= |cs| && forall i: nat :: h(i) == if i < |cs| && cs[i].id == id then 1 else 0
    ensures Sum(h, Indices(m)) == if exists i :: 0 <= i < m && cs[i].id == id then 1 else 0
  {
    if m > 0 {
      CountOnce(cs, id, h, m - 1);
      SumIndicesNext(h, m - 1);
      if i: nat :| i < m - 1 && cs[i].id == id && cs[m - 1].id == id {
        UniqueId(cs, i, m - 1);
      }
    }
  }

  /** Each candidate occurs exactly once across all stories, and nothing else occurs at all. */
  lemma StoriesPartition(cs: seq<Cluster>, es: seq<Edge>, prior: map<Uuid, Uuid>, delivered: set<Uuid>, mint: nat -> Uuid, id: Uuid)
    requires Candidates(cs) && InRange(es, |cs|)
    ensures Sum(Occurrences(id), Link(cs, es, prior, delivered, mint).stories)
         == if exists i :: 0 <= i < |cs| && cs[i].id == id then 1 else 0
  {
    var h := (i: nat) => if i < |cs| && cs[i].id == id then 1 else 0;
    var lab := StoryLabels(cs, es, prior, delivered);
    var all := Unsorted(cs, es, prior, delivered, mint);
    var ks := OrderedClasses(cs, lab);
    forall k | 0 <= k < |ks| ensures Occurrences(id)(all[k]) == MemberSum(h)(ks[k]) {
      assert ks[k] in ks;
      StoryOccurrences(cs, Reasons(es, lab), StoryIds(cs, lab, prior, mint)[k], ks[k].members, id, h);
    }
    StoriesConserve(cs, es, prior, delivered, mint, Occurrences(id), h, all);
    CountOnce(cs, id, h, |cs|);
  }
}
