/** The values linking works on: candidate clusters, the prior assignment, edges and stories. */
module LinkModel {
  import opened Ordering

  /** Identifiers compare as their 128-bit value, so an older time-ordered id is a smaller number. */
  type Uuid = nat

  /** Instants in microseconds, the resolution the database stores. */
  type Time = int

  datatype ContentKind = Message | Announcement | Longform

  datatype SourceKind = Rss | Github | Slack

  datatype Cluster = Cluster(
    id: Uuid, entities: seq<string>, firstEventTime: Time, lastEventTime: Time, source: SourceKind,
    eventCount: int, contentDepth: ContentKind, maxSeverity: Option<int>, ownPrivate: bool)

  datatype PriorMember = PriorMember(clusterId: Uuid, storyId: Uuid, delivered: bool)

  datatype ClusterRef = ClusterRef(clusterId: Uuid, linkReason: Option<string>)

  datatype LinkedStory = LinkedStory(
    id: Uuid, clusters: seq<ClusterRef>, firstEventTime: Time, lastEventTime: Time, eventCount: int,
    sourceDiversity: nat, contentDepth: ContentKind, maxSeverity: Option<int>, hasPrivate: bool)

  datatype Merge = Merge(loser: Uuid, survivor: Uuid)

  datatype Assignment = Assignment(stories: seq<LinkedStory>, merges: seq<Merge>)

  /** A scored link between clusters `a < b`, by index. */
  datatype Edge = Edge(a: nat, b: nat, strong: bool, score: real, reason: string)

  /** Feedback seams: per-entity multipliers, and must/cannot-link pairs. `mustLink` lists the set in iteration order. */
  datatype Tuning = Tuning(
    entityWeights: map<string, real>, mustLink: seq<(Uuid, Uuid)>, cannotLink: set<(Uuid, Uuid)>)

  predicate DepthLe(a: ContentKind, b: ContentKind) {
    a == Message || b == Longform || a == b
  }

  /** What the store guarantees of a candidate set: unique cluster ids and duplicate-free entity lists. */
  ghost predicate Candidates(cs: seq<Cluster>) {
    && Distinct(Ids(cs))
    && (forall i | 0 <= i < |cs| :: Distinct(cs[i].entities))
  }

  function Ids(cs: seq<Cluster>): (ids: seq<Uuid>)
    ensures |ids| == |cs|
  {
    seq(|cs|, i requires 0 <= i < |cs| => cs[i].id)
  }

  lemma UniqueId(cs: seq<Cluster>, i: nat, j: nat)
    requires Candidates(cs) && i < |cs| && j < |cs| && cs[i].id == cs[j].id
    ensures i == j
  {
    assert Ids(cs)[i] == Ids(cs)[j];
  }

  ghost predicate InRange(es: seq<Edge>, n: nat) {
    forall e | e in es :: e.a < e.b < n
  }
}
