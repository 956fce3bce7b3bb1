# Bulletin, modelled and proved

Bulletin turns an event log into per-subscriber digests. This project models its decision-making core in Dafny and proves
what the code and its documentation promise of it, over every input and every run.

The layers, from the log to the reader:

- **Ingest** (`Ingest`, `IngestLaws`, `IngestMeaning`): deduplicated append, scope by scope, with the cursor moved last.
- **Fetch queue** (`FetchQueue`, `FetchLaws`, `FetchMeaning`): bounded retries, polite sweeps, draining.
- **Grounding** (`Grounding`, `GroundingLaws`, `GroundingMeaning`): the gate that drops entities the text does not contain.
- **Clusters** (`ClusterRollup`, `ClusterBuild`, `ClusterLaws`, `ClusterMeaning`): the watermark-driven cache of rollups.
- **Identity** (`Identity`, `Kruskal`, `IdentityModel`, `IdentityLaws`, `Lexical`; `IdentityMeaning`, `LexicalMeaning`): components, representatives, bands.
- **Linking** (`LinkScoring`, `LinkComponents`, `LinkForwarding`, `Linking` and their laws): clusters fused into stories with stable ids;
  `EdgeMeaning`, `BestConnection` and `StoryMeaning` say what comes out;
  `StoryRows`, `StoryRowsLaws`, `StoryStore`, `RowMeaning` persist them; `DeliveredMarks`, `LostMark` and `ChainEdges` follow their delivered marks.
- **Selection and evaluation** (`Select`, `SelectLaws`, `SelectMeaning`, `Ranking`, `Eval`, `EvalLaws`, `EvalMeaning`).
- **Delivery** (`Delivery`, `DeliveryLaws`, `DeliveryMeaning`): freeze, send, mark, under concurrency and crashes.
- **Link safety** (`Tokens`, `LinkSafety`, `LinkSafetyLaws`, `LinkSafetyMeaning`): nothing clickable left in prose.

`Ordering`, `Sums`, `Connectivity`, `Forest`, `Partition` and `Runs` are shared mathematics: stable sorting, sums, paths and
canonical labellings, rank-balanced forests, forests read as partitions, and invariants over runs.

Algorithms that loop over mutable state are methods proved against specification functions; the promises are lemmas about those
functions. The `...Meaning` modules state what a whole operation puts out in plain terms, with prefixes, numbers and comparisons
written out rather than named. A partition of indices is represented by the label of each index, the least member of its class, so that equal
partitions are equal sequences. Persistent protocols are classes whose methods state their whole new state, with laws about runs
of the same steps.

## Where the code falls short of its documentation

Each of these is proved with its exact condition and an input that fails it.

- Relinking is a fixpoint not always but exactly when every edge still crossing two stories has both of them delivered
  (`LinkLaws.RelinkFixpoint`, `StoryRowsLaws.RefireQuietIff`); after full delivery it always is. `LostMark.DeliveredStoriesJoinWeakly`
  is a run, on edges scored from its own candidates, whose last fire over the same candidates changes the table.
- A story's delivered mark follows the id it keeps. An older undelivered story that absorbs a delivered one forgets the delivery
  (`DeliveredMarks.MarkLostIff`, `DeliveredMarks.MarkFollowsSurvivor`), and the same run shows the next fire joining a second
  delivered story to it over a weak edge, which the guard exists to prevent.
- The smoothed inverse document frequency does not let three outlets that share one place link: where one weak token is all that the
  candidates carry, the saturation floor refuses it unless feedback raises prior times multiplier to that floor
  (`LinkScoringLaws.UniversalTokenLinksIff`, `LinkScoringLaws.SharedPlaceDoesNotLink`).
- A growing identity component keeps its id exactly when it absorbs no component of a smaller one (`IdentityLaws.KeepsRepIff`);
  one edge to such a component renames it (`IdentityLaws.AbsorbedLosesRep`).
- `defang` panics on a text with a clickable token and a punctuation-only word (`LinkSafetyLaws.DefangPanicsIff`,
  `LinkSafetyLaws.DashAfterAddressPanics`).
- Re-surface damping multiplies the priority, so it lifts a story whose priority is negative, which the default settings allow
  (`SelectLaws.DampingSinksIff`, `SelectLaws.DampingLiftsDisliked`).
- With no thread term and equal base relevance the ranking is still not recency order: a severity hint on the older item
  (`SelectLaws.SalienceOrderIff`, `SelectLaws.GraverOlderOutranks`), a re-surfaced newer one (`SelectLaws.ResurfacedOrderIff`,
  `SelectLaws.ShownNewerSinks`) or a negative base (`SelectLaws.RankingIsRecencyIff`, `SelectLaws.NegativeBaseInverts`) upsets it.
- The enrichment write does not look at the watermark; landing late it leaves a stale cluster that no build repairs
  (`ClusterLaws.LateEnrichmentAgreesIff`, `ClusterLaws.LateEnrichmentGoesStale`).
- A second mark of a delivered window is not a no-op: only the window's own stamp is guarded. It stamps the window's stories anew,
  passes by a next window already due, and, when the job's snapshot is older than the last delivery, sets that back
  (`DeliveryLaws.SecondMark`, `DeliveryLaws.SetBackNeedsOverlap`, `DeliveryLaws.SecondMarkSetsBack`).

## Modelling conventions

Floating-point numbers are reals; `ln`, the power of one half, and `1/log2` are function parameters with only the facts a lemma
names. Identifiers are natural numbers ordered by age. Freshly minted ids are a function of how many were minted, assumed
distinct and unused. Candidate clusters have distinct ids and repeat-free entity lists, as the store guarantees. Character classes
are parameters with the few facts about `.`, `:`, `/`, `[`, `]`, `@`, `-` and space that the proofs need. Each transaction is one
step; unordered query results are read in arbitrary order. A poll that fails and a poll that crashes are the same step. Every
connection has an owner: an ownerless one only ever yields public items, whose scope no owner enters.

## Model

| member | source | states |
|---|---|---|
| `LinkScoring.BuildIndex` | crates/core/src/link/mod.rs:266-284 | The inverted index holds, for every linkable entity, exactly the ascending list of clusters carrying it. |
| `LinkScoring.Accumulate` | crates/core/src/link/mod.rs:285-315 | Scattering each entity once leaves, for every pair, the all-pairs accumulator: shared weight, first strong key, heaviest weak entity. |
| `LinkScoring.ScoreEdges` | crates/core/src/link/mod.rs:266-319 | The scatter over the inverted index returns exactly the edges of the all-pairs definition, in ascending pair order. |
| `LinkScoringLaws.EdgesExact` | crates/core/src/link/mod.rs:266-319 | An edge is in the list exactly when its own pair yields it, so no pair appears twice. |
| `LinkScoringLaws.StrongEdgesExact` | crates/core/src/link/mod.rs:326-341 | A pair gets a strong edge exactly when it shares a `cve:` or `url:` key; the edge scores 1 and is named after the lexically first such key. |
| `LinkScoringLaws.WeakEdgesMeaning` | crates/core/src/link/mod.rs:326-368 | For nonnegative weights, a weak edge joins clusters with no shared strong key, its overlap and score lie between their bars and 1, and its reason is a heaviest shared entity. |
| `LinkScoringLaws.FeedbackKeepsEdgesSound` | crates/core/src/link/mod.rs:326-400 | Under any feedback whose multipliers are not negative, and any logarithm not negative from 1 on, every weak edge the scorer finds has those properties. |
| `LinkScoringLaws.WeakEdgesExact` | crates/core/src/link/mod.rs:326-368 | A pair gets a weak edge exactly when it shares no strong key, shares a weak one, and clears the score, overlap and saturation bars; the edge blends overlap with timing and names the heaviest shared entity, the lexically first among equals. |
| `LinkScoringLaws.JaccardBounds` | crates/core/src/link/mod.rs:342-347 | Shared weight over union weight lies in 0..1 exactly when the union weighs nothing, or the shared weight is neither negative nor above the mean of the two totals, as it is for nonnegative weights. |
| `LinkScoringLaws.SoleTokenLinks` | crates/core/src/link/mod.rs:136-146 | Two clusters whose only linkable entity is one shared weak token link exactly when its weight, of whatever sign, reaches the absolute floor, however close in time. |
| `LinkScoringLaws.CommonTokenFusesIff` | crates/core/src/link/mod.rs:136-146 | For any multiplier, a lone weak token fuses exactly while the share of candidates carrying it stays below the one at which its grade meets the floor. |
| `LinkScoringLaws.PervasiveTokenNeverFuses` | crates/core/src/link/mod.rs:136-146 | A place or organisation recurring across a large share of the candidates (inverse document frequency below 1.5), not boosted by feedback, never fuses two clusters on its own. |
| `LinkScoringLaws.UniversalTokenLinksIff` | crates/core/src/link/mod.rs:397-404 | Where one weak token is all that any candidate carries, two of them link exactly when its prior times its multiplier reaches the absolute floor, however many they are. |
| `LinkScoringLaws.SharedPlaceDoesNotLink` | crates/core/src/link/mod.rs:397-401 | Three outlets that share one place, and nothing else linkable, get no edge at all. |
| `EdgeMeaning.KeyClasses` | crates/core/src/common/entity.rs:50-72 | Vulnerabilities and addresses link strongly; repositories, places, organisations, persons and users whose login is no bot's link weakly; nothing else links: by the prefixes themselves. |
| `EdgeMeaning.StrongEdges` | crates/core/src/link/mod.rs:326-341 | A scored strong edge is there exactly when both clusters name one key under `cve:` or `url:`; it scores 1 and cites the lexically first. |
| `EdgeMeaning.WeakEdges` | crates/core/src/link/mod.rs:342-368 | A scored weak edge is there exactly when they share no such key but some weak one, the score of 0.7 overlap and 0.3 closeness reaches 0.35, the overlap 0.2, and, where the overlap reaches 0.999, the shared weight 1.2. |
| `EdgeMeaning.ClosenessAgrees` | crates/core/src/link/mod.rs:450-457 | Closeness in time falls in a straight line from 1 to 0 over fourteen days between the last events. |
| `EdgeMeaning.GradeMeaning` | crates/core/src/link/mod.rs:370-404 | An entity weighs its kind (1.0, 0.9, 0.8 or 0.7), times one plus the logarithm of candidates over carriers, each plus one, times its feedback multiplier. |
| `LinkComponents.ApplyConstraints` | crates/core/src/link/mod.rs:412-442 | Feedback constraints drop every forbidden edge and force every must-link, as the specification says. |
| `LinkComponents.ConstrainedMeaning` | crates/core/src/link/mod.rs:412-442 | A must-linked pair carries exactly the forced strong edge, even over a cannot-link; any other pair keeps its scored edge unless a cannot-link names it; pairs stay unique. |
| `EdgeMeaning.CorrectedEdges` | crates/core/src/link/mod.rs:412-442 | For any two candidates, by their ids: a must-link in either order makes the forced strong edge; else a cannot-link leaves none; else the scored edge stands. |
| `LinkComponents.UnionFind.Find` | crates/core/src/link/mod.rs:479-487 | Path halving returns the root in at most log2(n) steps and changes neither roots nor partition. |
| `LinkComponents.UnionFind.Union` | crates/core/src/link/mod.rs:489-503 | Union by rank joins exactly the two classes; every root then holds exactly the delivered stories of its class (class invariant). |
| `LinkComponents.UnionFind.MergesDistinctDelivered` | crates/core/src/link/mod.rs:508-515 | The guard answers whether the two classes hold delivered stories and share none. |
| `Forest.HalvingFind` | crates/core/src/link/mod.rs:479-487 | Halving lookup over any balanced forest: same roots, rank order kept, steps within log2 of the size. |
| `Forest.LinkBalanced` | crates/core/src/link/mod.rs:489-503 | Linking by rank keeps every root at 2^rank members or more. |
| `Forest.RankBound` | crates/core/src/link/mod.rs:463-503 | No rank exceeds log2 of the number of elements. |
| `Forest.RankFitsByte` | crates/core/src/link/mod.rs:463-467 | The one-byte rank cannot overflow below 2^256 clusters. |
| `LinkComponents.Components` | crates/core/src/link/mod.rs:527-582 | The two passes compute the guarded partition and group its members ascending under their roots. |
| `BestConnection.CrossingBlockedByBetter` | crates/core/src/link/mod.rs:520-526 | An edge left crossing is weak and was blocked by better ones alone: the strong edges and the weak ones of higher score (on equal scores smaller endpoints) already put its ends into two classes with delivered stories and none in common. |
| `BestConnection.FreshJoinsBest` | crates/core/src/link/mod.rs:524-525 | A cluster new to the subscriber, without strong edges, ends in the story of the far end of its best edge. |
| `BestConnection.SharedStoryNeverCrosses` | crates/core/src/link/mod.rs:505-507 | An edge between two clusters of one delivered story never stays crossing. |
| `BestConnection.BestOfTwo` | crates/core/src/link/mod.rs:559-571 | Between two delivered stories a fresh cluster goes to the one it scores 0.9 with, not 0.4. |
| `LinkComponentsLaws.FinalFinest` | crates/core/src/link/mod.rs:518-582 | The partition is the finest one that closes every edge it does not leave crossing. |
| `LinkComponentsLaws.StoriesAreConnected` | crates/core/src/link/mod.rs:518-582 | Two clusters share a component exactly when a path of edges inside that component joins them. |
| `LinkComponentsLaws.FirstLinkIsConnectivity` | crates/core/src/link/mod.rs:518-582 | With nothing delivered, components are plain connectivity over all edges. |
| `LinkComponentsLaws.DeliveredSeparation` | crates/core/src/link/mod.rs:520-526 | Two delivered stories share a component only through a chain of strong components that each hold two stories of the chain. |
| `LinkComponentsLaws.NoStrongMergeNoMerge` | crates/core/src/link/mod.rs:520-526 | If no strong component holds two delivered stories, no final component does. |
| `LinkComponentsLaws.CrossingSeparatesDelivered` | crates/core/src/link/mod.rs:505-516 | Every edge left crossing two components separates two different delivered stories. |
| `LinkComponentsLaws.RelinkIff` | crates/core/src/link/mod.rs:527-571 | Under new delivered marks that follow the partition, it reproduces itself exactly when every crossing edge is marked at both ends. |
| `LinkForwarding.MemberReasons` | crates/core/src/link/mod.rs:589-619 | Each member gets the reason of its strongest edge inside its component. |
| `LinkForwarding.BestEdgeMeaning` | crates/core/src/link/mod.rs:589-619 | That edge touches the member, stays inside, and no other such edge beats it; there is none exactly when no inside edge touches it. |
| `StoryMeaning.StoryReasons` | crates/core/src/link/mod.rs:584-619 | In every story of an assignment a member cites an edge inside its story that touches it, strong before weak and then of the highest score, and has no reason exactly when the story has no such edge. |
| `LinkForwarding.OrderComponents` | crates/core/src/link/mod.rs:639-647 | Components are walked in order of their smallest cluster id, whatever roots union-find chose. |
| `LinkForwarding.ClaimIds` | crates/core/src/link/mod.rs:649-672 | Each component claims its oldest unclaimed prior id or mints one. |
| `LinkForwarding.ForwardIds` | crates/core/src/link/mod.rs:632-751 | Ids, merges, rollups and output order are those of the forwarding specification. |
| `LinkForwarding.RollupMeaning` | crates/core/src/link/mod.rs:687-741 | A rollup has the tightest time range around its members and attained maximum depth and severity. |
| `LinkForwarding.SourcesCounted` | crates/core/src/link/mod.rs:687-741 | Source diversity is at least one, and more than one exactly when two members differ in source. |
| `StoryMeaning.StoryRollup` | crates/core/src/link/mod.rs:687-741 | Every story of an assignment sums its members up: tightest span, event total, number of sources, greatest depth and severity, private if any member is. |
| `StoryMeaning.MembersByClusterId` | crates/core/src/link/mod.rs:687-697 | Members come by ascending cluster id. |
| `StoryMeaning.OutputOrder` | crates/core/src/link/mod.rs:743-750 | Stories come out newest first, on equal times by ascending id, and merges by loser. |
| `LinkIds.SurvivorsDistinct` | crates/core/src/link/mod.rs:626-631 | No two stories collide on an id. |
| `LinkIds.ForwardingAccounts` | crates/core/src/link/mod.rs:639-685 | Every carried prior id keeps a story or is absorbed, never both; each merge points to a strictly older id carried by the same component. |
| `StoryMeaning.SplitGoesToFirst` | crates/core/src/link/mod.rs:621-631 | Of the parts of a split story the one with the smallest cluster id has first claim to its id. |
| `Linking.LinkWith` | crates/core/src/link/mod.rs:218-229 | The pipeline computes the linking function of the candidates, the tuning and the prior assignment. |
| `LinkLaws.StoryIdsUnique` | crates/core/src/link/mod.rs:626-631 | Story ids are unique within an assignment. |
| `LinkLaws.RelinkFixpoint` | crates/core/src/link/mod.rs:218-229 | Feeding an assignment back reproduces exactly its stories with no merge and no mint if and only if every edge still crossing two stories has both delivered. |
| `LinkLaws.DeliveredRelinkFixpoint` | crates/core/src/link/mod.rs:218-229 | After everything is delivered relinking reproduces the same stories, reasons, rollups and order, for any clusters, tuning and prior. |
| `LinkLaws.UndeliveredRelinkFixpoint` | crates/core/src/link/mod.rs:218-229 | The same with any later marks when the first prior had nothing delivered. |
| `LinkLaws.PriorIdAccounted` | crates/core/src/link/mod.rs:629-630 | The prior story of a candidate names a story, or was absorbed by the very story that now holds the candidate; never both. |
| `LinkLaws.MergesPointOlder` | crates/core/src/link/mod.rs:674-685 | A merge leads from an id no story keeps to a strictly older id that one does. |
| `LinkLaws.MergesStayInStory` | crates/core/src/link/mod.rs:674-685 | Both ids of a merge were carried by clusters of one story. |
| `LinkLaws.MustLinkedTogether` | crates/core/src/link/mod.rs:421-441 | Every must-linked pair of candidates ends in one story. |
| `LinkLaws.ReasonsExplain` | crates/core/src/link/mod.rs:584-619 | A member has no reason exactly when it is alone; otherwise its reason is that of a strongest edge inside its story. |
| `LinkConservation.StoriesPartition` | crates/core/src/link/mod.rs:687-741 | Each candidate occurs exactly once across all stories, and nothing else occurs. |
| `LinkConservation.EventsConserved` | crates/core/src/link/mod.rs:687-741 | The stories' event counts add up to the candidates'. |
| `StoryRows.LoadedIsPrior` | crates/core/src/link/store.rs:161-183 | In whatever order the live rows come back, the prior assignment read from them is the table's own. |
| `StoryStore.StoryTable.LoadPriorMembers` | crates/core/src/link/store.rs:161-183 | One entry per member of every live row, with the row's delivered mark. |
| `StoryStore.StoryTable.PersistAssignment` | crates/core/src/link/store.rs:189-260 | Upserts then tombstones, in list order; the timestamp moves only where content changed. |
| `RowMeaning.StoryStored` | crates/core/src/link/store.rs:204-241 | A story's row shows the story field by field, keeps its delivered mark, and is dated anew exactly when it did not show it before. |
| `RowMeaning.LoserRetired` | crates/core/src/link/store.rs:243-256 | A story merged away keeps its row, emptied, dated now and pointing at what absorbed it, otherwise unchanged. |
| `RowMeaning.OthersUntouched` | crates/core/src/link/store.rs:189-260 | Any other row stays as it is, and no row appears that is not a story's. |
| `StoryStore.StoryTable.MarkStoriesDelivered` | crates/core/src/link/store.rs:265-277 | Exactly the named rows become delivered; soundness is kept. |
| `StoryStore.StoryTable.Fire` | crates/core/src/link/store.rs:161-260 | Load, link, persist: the new table is a function of the old one, and soundness is kept. |
| `StoryRowsLaws.LinkFits` | crates/core/src/link/store.rs:189-260 | What linking computes from a sound table takes over live rows or opens new ones, and rewrites or merges away every live row holding a candidate. |
| `StoryRowsLaws.RunKeepsSound` | crates/core/src/link/store.rs:161-277 | Over every run, live stories keep disjoint cluster sets and every tombstone is empty and points to a strictly older row. |
| `StoryRowsLaws.RunEvolves` | crates/core/src/link/store.rs:161-277 | Over every run no row is dropped, no tombstone revived or repointed, no delivered mark lost. |
| `StoryRowsLaws.Redirect` | crates/core/src/link/store.rs:185-188 | Following `merged_into` from any row ends at a live row no newer than it. |
| `StoryRowsLaws.RedirectsCompose` | crates/core/src/link/store.rs:185-188 | After any run an old link leads wherever the story it used to lead to has gone. |
| `DeliveredMarks.MarkFollowsSurvivor` | crates/core/src/link/store.rs:185-228 | After a fire the row holding a candidate is delivered exactly when the oldest prior id its component carries, of those no earlier component claimed, is a delivered row. |
| `DeliveredMarks.MarkLostIff` | crates/core/src/link/store.rs:185-228 | Where no prior story splits, a story taking in a delivered story's cluster ends undelivered exactly when one of the stories it merges is an undelivered row older than all the delivered ones. |
| `ChainEdges.ChainedEdges` | crates/core/src/link/mod.rs:266-368 | Three simultaneous candidates whose neighbours share one weak entity each, of equal prior, score exactly two weak edges of 0.65, whatever the logarithm. |
| `LostMark.DeliveredStoriesJoinWeakly` | crates/core/src/link/mod.rs:505-516 | A run from the empty table in which every fire works on the edges scored from its own candidates: a fire absorbs a delivered story into an older undelivered one, and the next fire over the same candidates, by weak edges alone, joins another delivered story to it and changes the table. |
| `StoryRowsLaws.RefireQuietIff` | crates/core/src/link/store.rs:213-228 | Firing again over the same candidates leaves the whole table unchanged, timestamps included, if and only if every edge still crossing two stories has both delivered. |
| `StoryRowsLaws.DeliveredRefireQuiet` | crates/core/src/link/store.rs:213-228 | Once all its stories are delivered, firing again is a no-op on the table. |
| `Identity.UnionFind.Touch` | crates/core/src/identity/mod.rs:371-380 | A known token keeps its index; a new one is a fresh singleton at the end. |
| `Identity.UnionFind.Find` | crates/core/src/identity/mod.rs:382-388 | Path halving within log2(n) steps, partition untouched. |
| `Identity.UnionFind.FindConst` | crates/core/src/identity/mod.rs:391-396 | The same root without mutation. |
| `Identity.UnionFind.Union` | crates/core/src/identity/mod.rs:400-417 | Joins exactly the two classes and reports whether they were apart. |
| `Identity.SpanningPass` | crates/core/src/identity/mod.rs:244-264 | The descending pass connects exactly what all eligible edges connect, and records an edge exactly when the earlier ones left its ends apart. |
| `Identity.Bottlenecks` | crates/core/src/identity/mod.rs:274-282 | Each root gets the least confidence recorded under it. |
| `Identity.RepresentativeMeaning` | crates/core/src/identity/mod.rs:286-292 | The chosen member is the least earlier representative, or the least member if there is none. |
| `Identity.Resolve` | crates/core/src/identity/mod.rs:233-304 | The result is the declarative resolution: one representative per connected component of eligible, non-vetoed edges, with the component's band. |
| `IdentityMeaning.TokensResolved` | crates/core/src/identity/mod.rs:233-243 | The resolved tokens are the nodes and the ends of the edges that link. |
| `IdentityMeaning.LinksAreEligible` | crates/core/src/identity/mod.rs:244-248 | The edges that link are those of at least the threshold whose two tokens, in either order, form no veto. |
| `IdentityMeaning.LinkJoins` | crates/core/src/identity/mod.rs:217-219 | Any edge at the threshold or above without a veto puts its ends under one representative. |
| `IdentityMeaning.SameIffLinked` | crates/core/src/identity/mod.rs:217-223 | For vetoes stored smaller token first: one representative exactly when a path of edges, each at the threshold or above and none vetoed in either order, joins the tokens. |
| `IdentityMeaning.VetoedStaysApart` | crates/core/src/identity/mod.rs:217-219 | Two tokens that nothing but vetoed or weaker edges could join keep different representatives. |
| `IdentityMeaning.RepresentativeChosen` | crates/core/src/identity/mod.rs:190-195 | The representative is a token of the same identity: the least one that was a representative before, otherwise the least of all. |
| `IdentityMeaning.BandMeaning` | crates/core/src/identity/mod.rs:46-54 | An identity is confirmed exactly when links of 0.99 alone hold it together, and at least probable exactly when links of 0.75 do. |
| `Kruskal.Bottleneck` | crates/core/src/identity/mod.rs:225-229 | A component stays in one piece on links of at least `t` exactly when every spanning-forest edge inside it reaches `t`, however ties break. |
| `IdentityLaws.SameRepIffConnected` | crates/core/src/identity/mod.rs:221-223 | Two tokens share a representative exactly when a path of eligible non-vetoed edges joins them. |
| `IdentityLaws.BandCutoffs` | crates/core/src/identity/mod.rs:46-54 | Confirmed exactly when the component holds together at 0.99, not uncertain exactly when it does at 0.75. |
| `IdentityLaws.OrderIndependent` | crates/core/src/identity/mod.rs:221-223 | Reordering or repeating nodes and edges cannot change the answer. |
| `IdentityLaws.ReresolveFixpoint` | crates/core/src/identity/mod.rs:190-195 | Resolving again with its own representatives as the prior ones returns the same resolution. |
| `IdentityLaws.KeepsRepIff` | crates/core/src/identity/mod.rs:190-195 | Over a grown graph a token keeps its representative exactly when its component absorbed none with a smaller one. |
| `IdentityLaws.AbsorbedLosesRep` | crates/core/src/identity/mod.rs:190-193 | Two tokens resolved apart and then joined by one edge: the larger one does not keep the representative it had. |
| `IdentityLaws.GrowingKeepsRep` | crates/core/src/identity/mod.rs:190-195 | A component that takes in only new tokens keeps its representative. |
| `IdentityLaws.RedundantEdgeKeepsHold` | crates/core/src/identity/mod.rs:225-229 | An edge between tokens already connected never lowers a band. |
| `IdentityLaws.SingletonConfirmed` | crates/core/src/identity/mod.rs:229-229 | A token without an eligible edge to another is confirmed. |
| `IdentityLaws.WeakLinksNeverConfirm` | crates/core/src/identity/mod.rs:134-143 | Links below the top cutoff, such as clamped lexical ones, never make two tokens one confirmed identity. |
| `Lexical.DiceBigram` | crates/core/src/identity/mod.rs:337-359 | The tally drawn down in one pass counts the multiset intersection of the bigrams. |
| `Lexical.LexicalSimilarity` | crates/core/src/identity/mod.rs:309-334 | Word overlap for several words, bigram overlap for single ones. |
| `LexicalMeaning.SimilarityMeaning` | crates/core/src/identity/mod.rs:306-359 | Shared words over all words where either token has several, words being parted by spaces, hyphens, underscores and slashes; else twice the shared letter pairs over all letter pairs. |
| `Lexical.SimilarityProperties` | crates/core/src/identity/mod.rs:306-308 | Similarity is symmetric, lies in 0..1, and is 1 on equal tokens. |
| `Select.Gate` | crates/core/src/digest/select.rs:476-547 | Freshness first, then relevance; survivors carry their damped priority and rendered format. |
| `SelectMeaning.DecisionMeaning` | crates/core/src/digest/select.rs:476-547 | A candidate's decision, by arithmetic on the candidate: stale before the display floor; else below the floor when 1, the private bonus and the thread term add up to less; else selected or over-cap, with its priority, damped to a note when nothing is new. |
| `SelectMeaning.DecisionExists` | crates/core/src/digest/select.rs:453-456 | Every candidate gets such a decision. |
| `SelectMeaning.DefaultDecision` | crates/core/src/digest/select.rs:371-376 | Under the default settings only a thread term below -1, or -1.5 with private news, drops a candidate below the floor; priority halves every 3, 7 and 21 days, and damping leaves a quarter of it. |
| `Select.CapLoop` | crates/core/src/digest/select.rs:558-604 | The one-pass counters admit exactly the greedy cut and record every ranked item. |
| `Select.SelectItems` | crates/core/src/digest/select.rs:468-611 | Selected in render order, then over-cap by rank, then dropped by id. |
| `SelectLaws.AdmitsMeaning` | crates/core/src/digest/select.rs:569-585 | An item is admitted exactly when every bounded budget it draws on has room. |
| `SelectLaws.CutFeasible` | crates/core/src/digest/select.rs:558-604 | The cut overdraws none of the story, note, re-surface, per-thread and total budgets. |
| `SelectMeaning.WithinBudgets` | crates/core/src/digest/select.rs:558-604 | Read off the decisions: at most so many selected items, stories, notes, items still developing, and items of any one thread where threads are capped. |
| `SelectMeaning.LeftOutOnlyWhenFull` | crates/core/src/digest/select.rs:558-604 | Read off the decisions: an item in the running is left out only where the selected ones fill a budget it draws on to the last place. |
| `SelectMeaning.DefaultBudgets` | crates/core/src/digest/select.rs:58-72 | Under the default settings at most 5 stories, 20 notes, 5 items still developing and 2 items of one thread. |
| `SelectMeaning.TraceOrder` | crates/core/src/digest/select.rs:549-611 | The selected come first, at positions 0, 1, 2 and so on, then the left out, both by higher priority, later event, smaller id, then the dropped by id. |
| `SelectMeaning.RankMeaning` | crates/core/src/digest/select.rs:558-604 | The rank noted for an item left out is the number of items in the running above it. |
| `SelectLaws.CutGreatest` | crates/core/src/digest/select.rs:558-604 | Of the feasible picks of any ranked list none takes the first item it and the cut differ on. |
| `SelectLaws.DigestGreatest` | crates/core/src/digest/select.rs:549-610 | The ranking of the candidates past the gate descends by priority, then recency, then id, and the selected decisions are its lexicographically greatest feasible pick. |
| `SelectLaws.DecisionsOrderFree` | crates/core/src/digest/select.rs:549-556 | The order candidates come in changes no decision. |
| `SelectLaws.OverCapIff` | crates/core/src/digest/select.rs:558-604 | An item misses the cut exactly when one of its budgets is full, and stays full, from items ranked before it alone. |
| `SelectLaws.TraceComplete` | crates/core/src/digest/select.rs:453-456 | Every candidate gets exactly one decision. |
| `SelectLaws.PositionsConsecutive` | crates/core/src/digest/select.rs:558-561 | Render positions are 0, 1, 2 and so on. |
| `SelectLaws.DigestBounded` | crates/core/src/digest/select.rs:458-460 | At most `max_items` items, and at most the two format caps together. |
| `SelectLaws.RecencyOrderIff` | crates/core/src/digest/select.rs:382-389 | Between items never shown, without severity or thread term and of equal base, the ranking is recency order exactly when the base is not negative. |
| `SelectLaws.RankingIsRecencyIff` | crates/core/src/digest/select.rs:549-556 | Where everything past the gate is never shown, without severity or thread term, and of one base, the whole ranking is recency order exactly when the base is not negative or all those items are of one age. |
| `SelectLaws.NegativeBaseInverts` | crates/core/src/digest/select.rs:549-550 | A pair past the gate, under settings whose scope bonus outweighs the base, that ranks oldest first. |
| `SelectLaws.SalienceOrderIff` | crates/core/src/digest/select.rs:549-550 | With severity hints the newer item ranks first exactly when its gain in recency covers the older one's gain in salience. |
| `SelectLaws.GraverOlderOutranks` | crates/core/src/digest/select.rs:549-550 | A default-settings pair of equal base and no thread term in which a severity hint lifts the older item past the newer. |
| `SelectLaws.ResurfacedOrderIff` | crates/core/src/digest/select.rs:522-550 | A re-surfaced newer item outranks an older unshown one of the same positive base exactly when its damped recency reaches the other's. |
| `SelectLaws.ShownNewerSinks` | crates/core/src/digest/select.rs:522-550 | A default-settings pair in which a newer item shown before sinks below an older one. |
| `SelectLaws.DampingSinksIff` | crates/core/src/digest/select.rs:522-535 | Damping sinks a stale story exactly when its priority is positive. |
| `SelectLaws.DampingLiftsDisliked` | crates/core/src/digest/select.rs:522-535 | A concrete default-settings candidate whose negative priority damping raises. |
| `Ranking.SortedIsBest` | crates/core/src/digest/eval.rs:253-268 | No order of the gains is worth more than the descending one. |
| `Ranking.NdcgBounds` | crates/core/src/digest/eval.rs:253-268 | The score is at most 1 for every gain vector and at least 0 for nonnegative gains. |
| `Ranking.FixingNeverLowers` | crates/core/src/digest/eval.rs:253-268 | Moving a better item past a worse neighbour never lowers the score. |
| `Ranking.PerfectIff` | crates/core/src/digest/eval.rs:253-268 | Under a strictly falling discount the score is 1 exactly on descending gains. |
| `Eval.Evaluate` | crates/core/src/digest/eval.rs:139-249 | One pass yields the metrics of the window. |
| `Eval.TallyGrades` | crates/core/src/digest/eval.rs:222-234 | A graded story is tallied the first time it shows up. |
| `Eval.RenderIsSorted` | crates/core/src/digest/eval.rs:168-177 | The scored order is the selected records sorted stably by position. |
| `EvalLaws.CountsMeaning` | crates/core/src/digest/eval.rs:164-209 | Each running count is the number of records of its kind over all digests. |
| `EvalLaws.CountsPartition` | crates/core/src/digest/eval.rs:181-209 | The verdict counts partition the candidates and the format counts the selected. |
| `EvalLaws.GradedOnce` | crates/core/src/digest/eval.rs:222-234 | Each graded story counts once, under its grade, across all digests that showed it. |
| `EvalMeaning.CountMeaning` | crates/core/src/digest/eval.rs:164-209 | Each count is the number of records in the window with that verdict or format. |
| `EvalMeaning.DigestMeaning` | crates/core/src/digest/eval.rs:178-201 | Empty and cap-limited digests are those that select nothing and those with an over-cap item. |
| `EvalMeaning.MeanItemsMeaning` | crates/core/src/digest/eval.rs:238-240 | Mean items is selected records over digests. |
| `EvalMeaning.StoryShareMeaning` | crates/core/src/digest/eval.rs:241-243 | Story share is the part of the selected records that are stories. |
| `EvalMeaning.PrecisionMeaning` | crates/core/src/digest/eval.rs:237-246 | Precision is liked stories over liked and disliked ones, each shown story counted once; missing exactly when none was graded. |
| `EvalMeaning.ScoreMeaning` | crates/core/src/digest/eval.rs:211-220 | A digest is scored where it shows two items or more, one of them graded: by position, a liked story is worth 2, an ungraded one 1, a disliked one 0. |
| `EvalMeaning.NdcgMeaning` | crates/core/src/digest/eval.rs:251-273 | The normalised gain is the position-weighted gain over that of the same gains in descending order; missing where the latter is nothing. |
| `EvalMeaning.MeanMeaning` | crates/core/src/digest/eval.rs:247-249 | The mean score is the mean over the digests that have a score. |
| `EvalMeaning.PerfectDigestIff` | crates/core/src/digest/eval.rs:87-89 | A digest scores 1 exactly when nothing disliked stands right above anything better and nothing ungraded right above a liked story. |
| `EvalLaws.CountsOrderFree` | crates/core/src/digest/eval.rs:134-138 | The order of the digests shows in no count and no tally. |
| `EvalLaws.MetricsOrderFree` | crates/core/src/digest/eval.rs:134-138 | Nor in any other metric: the rates and the mean score are the same for every order of the digests. |
| `EvalLaws.MeanNdcgBounds` | crates/core/src/digest/eval.rs:211-247 | The mean score lies in 0..1. |
| `EvalLaws.ReplayFaithfulIff` | crates/core/src/digest/eval.rs:24-58 | Replaying a snapshot under its own settings gives the live decisions exactly when none was dropped as stale. |
| `LinkSafety.CheckLabels` | crates/core/src/common/link_safety.rs:55-76 | The label loop accepts exactly two or more well-formed labels ending in an alphabetic one of two letters or more. |
| `LinkSafety.CoreSlice` | crates/core/src/common/link_safety.rs:136-146 | For a word with a letter or digit the two trim lengths delimit its core. |
| `LinkSafety.Defang` | crates/core/src/common/link_safety.rs:115-156 | Clean text is returned as it is; otherwise each word is rewritten, or the slice panics. |
| `LinkSafetyMeaning.FlaggedIff` | crates/core/src/common/link_safety.rs:39-76 | A token is flagged exactly when it holds `://`, starts with `www.` or `mailto:` in any case, or is a dotted name of letters, digits and hyphens ending in a label of two letters or more, perhaps with a user before it and a port or path after it. |
| `LinkSafetyMeaning.Spared` | crates/core/src/common/link_safety.rs:180-188 | A plain token without a dot, or whose part after the last dot is one character or holds anything but letters, is not flagged. |
| `LinkSafetyMeaning.GateMeaning` | crates/core/src/common/link_safety.rs:87-93 | The gate finds something exactly in a text one of whose words wraps such a token in punctuation. |
| `LinkSafetyMeaning.GateFindsFirst` | crates/core/src/common/link_safety.rs:87-93 | It finds the token the first such word wraps. |
| `LinkSafetyMeaning.CleanWordsKept` | crates/core/src/common/link_safety.rs:115-156 | Defanging leaves every other word as it was. |
| `LinkSafetyMeaning.LiveWordFound` | crates/core/src/common/link_safety.rs:85-93 | A flagged token that begins and ends with a letter or digit and stands as a word of its own, anywhere in a text, makes the gate find something. |
| `LinkSafetyMeaning.BareDomainFound` | crates/core/src/common/link_safety.rs:39-50 | A sentence holding `acme.com` does not pass the gate. |
| `Tokens.RewriteLoop` | crates/core/src/common/link_safety.rs:125-155 | The loop copies spacing and rewrites each word in turn. |
| `Tokens.RewriteWords` | crates/core/src/common/link_safety.rs:125-155 | Word-by-word rewriting keeps the word structure: the words of the output are the rewritten words, in order. |
| `LinkSafetyLaws.NeutralizedInert` | crates/core/src/common/link_safety.rs:95-109 | A neutralized token no longer looks clickable. |
| `LinkSafetyLaws.DefangInert` | crates/core/src/common/link_safety.rs:87-156 | After defanging, the gate finds nothing. |
| `LinkSafetyLaws.DefangIdempotent` | crates/core/src/common/link_safety.rs:111-156 | Defanging twice is defanging once. |
| `LinkSafetyLaws.DefangOnlyBrackets` | crates/core/src/common/link_safety.rs:111-156 | Erasing square brackets from input and output gives the same text. |
| `LinkSafetyLaws.FixMeaning` | crates/core/src/common/link_safety.rs:140-146 | The two trim lengths cross, so that the slice fails, exactly on a punctuation-only word; on any other they cut out its core. |
| `LinkSafetyLaws.DefangPanicsIff` | crates/core/src/common/link_safety.rs:140-146 | Defanging panics exactly on a text with a clickable token and, anywhere, a punctuation-only word. |
| `LinkSafetyLaws.DashAfterAddressPanics` | crates/core/src/common/link_safety.rs:140-146 | A concrete such text: a web address followed by a dash. |
| `ClusterRollup.Fold` | crates/core/src/cluster/mod.rs:52-84 | The fold over mutable locals computes the rollup of the group, none for an empty one. |
| `ClusterRollup.RollupMeaning` | crates/core/src/cluster/mod.rs:48-84 | The last of the latest events represents the group; span, depth, severity and count cover all events, severity is attained, and the entities are their sorted union. |
| `ClusterBuild.ClusterStore.DirtyGroups` | crates/core/src/cluster/store.rs:53-74 | Exactly the groups of the scope with an event ingested in the half-open range, each once. |
| `ClusterBuild.ClusterStore.BuildGroups` | crates/core/src/cluster/mod.rs:176-192 | Each listed group's row becomes the rollup of all its events. |
| `ClusterBuild.ClusterStore.Build` | crates/core/src/cluster/mod.rs:136-169 | The public build rebuilds what its range dirtied and moves the watermark forward only. |
| `ClusterBuild.ClusterStore.BuildPrivate` | crates/core/src/cluster/mod.rs:206-238 | The same for one owner's groups and watermark. |
| `ClusterBuild.ClusterStore.StoreFullText` | crates/core/src/cluster/store.rs:134-157 | Raises the event and, by hand, its cluster row to longform. |
| `ClusterBuild.ClusterStore.ApplyEnrichment` | crates/core/src/enrich/store.rs:56-83 | Unions entities and raises the hint on the event, whether or not it has been built. |
| `ClusterLaws.RunKeepsSync` | crates/core/src/cluster/mod.rs:120-169 | In every reachable state a group built past in full has a row equal to the rollup of all its events. |
| `ClusterMeaning.SettledRowSumsUp` | crates/core/src/cluster/mod.rs:48-84 | In every reachable state the row of a group built past in full has the title, first link and connection of its newest event, its first and last times, its event count, its greatest depth and severity, and the sorted union of its entities. |
| `ClusterMeaning.FirstBuildCovers` | crates/core/src/cluster/mod.rs:194-238 | A first private build leaves, for every private group of the owner with an event logged since the epoch, a row that sums up all its events. |
| `ClusterMeaning.WatermarkForward` | crates/core/src/cluster/store.rs:158-176 | Only a build of its own scope moves a watermark, and only forward, to the end of the range built. |
| `ClusterMeaning.EnrichmentMeaning` | crates/core/src/enrich/store.rs:56-83 | Enrichment adds entities to one event, sorted and once each, and raises its hint to the salience; nothing else in the log changes. |
| `ClusterMeaning.FullTextMeaning` | crates/core/src/ingest/fetch.rs:593-615 | A long article makes its event longform and the row of its group, if there is one; a short one changes neither. |
| `ClusterLaws.RaisedAgrees` | crates/core/src/ingest/fetch.rs:593-615 | Raising the row by hand equals refolding the group. |
| `ClusterLaws.LateEnrichmentAgreesIff` | crates/core/src/enrich/store.rs:56-83 | An enrichment of an event already built leaves its row in agreement exactly when it brings no new entity and no higher severity; otherwise no later build notices. |
| `ClusterLaws.LateEnrichmentGoesStale` | crates/core/src/enrich/store.rs:56-83 | A run from the empty store: an event ingested, built and only then enriched leaves its row stale, with no later build due. |
| `ClusterLaws.RunKeepsScopes` | crates/core/src/cluster/mod.rs:86-103 | From the empty store no run of steps, in any order and late enrichment included, lets an entity cross into a row of another scope, source or group. |
| `ClusterLaws.VisibleRowsAreOwn` | crates/core/src/cluster/mod.rs:107-116 | Over every such run, what a row visible to a subscriber shows came from a public event or one of the subscriber's own. |
| `ClusterMeaning.SeenIffAllowed` | crates/core/src/cluster/mod.rs:107-116 | Over every such run an entity of a row comes from an event of the row's group, and the row is visible to a subscriber exactly when that event is public or their own. |
| `Delivery.Desk.Generate` | crates/core/src/digest/mod.rs:654-801 | One uninterrupted run: which outcome, by the schedule, then the window's row, then the lead; and the whole new state in each. |
| `DeliveryMeaning.FrozenMeaning` | crates/core/src/digest/mod.rs:634-648 | The frozen items are the selected decisions in render order, each with its story, last event time and natural format. |
| `DeliveryMeaning.MarkMeaning` | crates/core/src/digest/store.rs:721-747 | What a mark writes, field by field, in any state: the window's stamp once, the stories' stamps each time, the last delivery, the next boundary; nothing else. |
| `DeliveryMeaning.PreferMeaning` | crates/core/src/digest/subscriber.rs:239-272 | A preference change reckons the next boundary from the later of the present and the last delivery, and lands past both; nothing else moves. |
| `DeliveryLaws.RunIsSafe` | crates/core/src/digest/mod.rs:650-801 | Over every interleaving a delivered window was sent and precedes the next boundary, and frozen items, stamps and sends never change. |
| `DeliveryLaws.SendsAfterDelivery` | crates/core/src/digest/mod.rs:650-653 | Over every run, after a window's delivery only the jobs past its freeze at that moment can send it again, each at most once; with none it is never sent again. |
| `DeliveryLaws.DeliveredWindowNotReloaded` | crates/core/src/digest/mod.rs:669-676 | At any later point of a run a job that reads the schedule works on a later window. |
| `DeliveryLaws.PassedWindowNeverLoaded` | crates/core/src/digest/subscriber.rs:346-368 | Once the boundary has passed a window that had come due, no later job reads that window, whatever marks and preference changes follow. |
| `DeliveryLaws.AbandonMovesNothing` | crates/core/src/digest/mod.rs:767-784 | A job that crashes or defers, however far it got and however interleaved, leaves the schedule, the last delivery and every window's stamp as the other jobs alone would; if it opened no window, the frozen items and story stamps too. |
| `DeliveryLaws.AbandonedStaysDue` | crates/core/src/digest/mod.rs:767-784 | Over a run without marks the last delivery stays, and without preference changes so does the boundary: the window is still due. |
| `DeliveryLaws.SecondMark` | crates/core/src/digest/store.rs:721-747 | In any reachable state a second mark keeps the window's stamp, stamps anew exactly the carried stories whose stamp is older than now, sets the last delivery back exactly when the job's snapshot is older than it, and reckons the boundary from now again, so that it passes by a next window already due. |
| `DeliveryLaws.SetBackNeedsOverlap` | crates/core/src/digest/subscriber.rs:346-368 | Setting it back takes two jobs in flight at once, the one with the later snapshot marking first. |
| `DeliveryLaws.SecondMarkSetsBack` | crates/core/src/digest/store.rs:721-747 | A run of two overlapping jobs: two messages for one window, its story stamped twice, the last delivery set back, and a next window come due by then passed by before any job read it. |
| `DeliveryLaws.PreferencesNeverReplay` | crates/core/src/digest/subscriber.rs:238-280 | At any point of a run a preference change loses nothing delivered and puts the next boundary past every window there is. |
| `Ingest.EventLog.InsertEvent` | crates/core/src/ingest/store.rs:250-300 | Inserts unless the fingerprint is already logged in that scope. |
| `Ingest.EventLog.AppendScoped` | crates/core/src/ingest/mod.rs:264-289 | Grouping by scope gives the same log, up to order, and the same counts as appending one at a time. |
| `Ingest.AppendedEvents` | crates/core/src/ingest/store.rs:250-300 | The log then holds what it held and the first event of every new identity. |
| `IngestMeaning.EveryEventTraced` | crates/core/src/common/event.rs:104-120 | Over every run from nothing each logged event records an item its connection yielded, in its feed or a webhook call, and is private to the owner of that connection if the item was private, public if not. |
| `IngestMeaning.LoggedOnce` | crates/core/src/ingest/store.rs:250-300 | Over every run no two logged events share fingerprint and scope; one activity of two owners is two events. |
| `IngestMeaning.PassedIsLogged` | crates/core/src/ingest/mod.rs:289-349 | Over every run each item a saved cursor has passed is logged in its own scope. |
| `IngestMeaning.HookIsLogged` | crates/core/src/ingest/mod.rs:370-420 | An item a webhook brings is logged in its own scope when the call returns. |
| `IngestLaws.RunIsExactlyOnce` | crates/core/src/ingest/mod.rs:289-349 | Over every run with crashes, re-polls and webhooks each identity is logged at most once and everything before a saved cursor is logged. |
| `IngestLaws.LogOnlyGrows` | crates/core/src/ingest/mod.rs:264-289 | Over every run the earlier log is a prefix of the later one. |
| `IngestLaws.RepollIsQuiet` | crates/core/src/ingest/mod.rs:289-291 | At any point of a run, fetching again any stretch of a feed before the saved cursor writes nothing. |
| `IngestLaws.RunKeepsOwnScopes` | crates/core/src/ingest/mod.rs:316-330 | Over every run from nothing, no event is logged under a scope its connection's owner does not hold. |
| `Grounding.NormalizeText` | crates/core/src/enrich/mod.rs:147-164 | The character loop writes what the specification prescribes and trims it. |
| `Grounding.GroundEntities` | crates/core/src/enrich/mod.rs:97-121 | The result is sorted, repeat-free, and holds exactly the tokens some proposed value yields. |
| `GroundingLaws.NormalizedIsJoin` | crates/core/src/enrich/mod.rs:144-164 | Normalizing gives the lower-cased runs of letters and digits joined by single spaces. |
| `GroundingLaws.FieldContainsIff` | crates/core/src/enrich/mod.rs:132-137 | The padded needle is contained in a padded field exactly when at some position its words are consecutive words of the field. |
| `GroundingLaws.GroundsIff` | crates/core/src/enrich/mod.rs:87-142 | A value is accepted exactly when it has words and at some position of the title, or of the body, they are its consecutive words, never across the two. |
| `GroundingMeaning.TokenMeaning` | crates/core/src/enrich/mod.rs:123-142 | A grounded value becomes its namespace, a colon, and its words joined by hyphens; any other becomes nothing. |
| `GroundingMeaning.YieldsMeaning` | crates/core/src/enrich/mod.rs:87-121 | The gate lets through exactly those tokens of the values proposed. |
| `FetchQueue.Queue.PrePass` | crates/core/src/ingest/fetch.rs:728-760 | The sequential pass gives each event its fate under the per-domain cap. |
| `FetchQueue.Queue.Sweep` | crates/core/src/ingest/fetch.rs:701-847 | A sweep settles exactly its due events, each on its own row, and counts them. |
| `FetchMeaning.FirstOfEachDomain` | crates/core/src/ingest/fetch.rs:728-760 | The first events of each domain, up to the cap, are fetched and the later ones wait; one without a usable link is given up. |
| `FetchMeaning.QueueMeaning` | crates/core/src/ingest/fetch.rs:541-562 | The queue holds the fetchable events with a link, no text and fewer than three attempts. |
| `FetchMeaning.SweepMeaning` | crates/core/src/ingest/fetch.rs:593-639 | Each event swept, by its place and its answer: text and one attempt for an article, all three attempts for a hopeless error, one for any other, none where it waits or nothing is written back; every other event is untouched. |
| `FetchMeaning.SettledStays` | crates/core/src/ingest/fetch.rs:541-562 | An event with its article stored, or its link given up, is off the queue for good. |
| `FetchMeaning.ReportMeaning` | crates/core/src/ingest/fetch.rs:643-656 | Stored articles count as fetched, given-up events and other attempts as failed, the rest as skipped. |
| `FetchLaws.WorkQueueMeaning` | crates/core/src/ingest/fetch.rs:544-576 | Due rows, each once, newest first, at most the limit; none left out while there is room, none left out newer than one kept. |
| `FetchLaws.SweepKeepsBudget` | crates/core/src/ingest/fetch.rs:617-639 | Whatever the network and the database do, no event exceeds three attempts and no remaining budget grows. |
| `FetchLaws.StatsSplitDue` | crates/core/src/ingest/fetch.rs:643-656 | Fetched, failed and skipped add up to the due events. |
| `FetchLaws.SweepPolite` | crates/core/src/ingest/fetch.rs:748-758 | No domain is asked for more than the cap. |
| `FetchLaws.QueueDrains` | crates/core/src/ingest/fetch.rs:41-47 | With write-backs succeeding and no new events, as many sweeps as the remaining budgets sum to empty the queue. |
| `FetchLaws.ZeroCapNeverFetches` | crates/core/src/ingest/fetch.rs:748-758 | With a zero cap an event with a link keeps its budget for ever, so the queue drains only under a positive one. |

## Left out

- Integer width: `event_count` and `source_diversity` are 32-bit in the code, so sums that overflow are not modelled.
- Floating-point rounding, underflow and NaN.
- The candidate query of linking (`link/store.rs:54-140`): which clusters are offered is a parameter.
- `has_private` of a story is computed but, as in the code, not part of the stored row.
- Story and digest creation times, and the per-connection poll interval, backoff and status columns.
- Vetoes on transitive paths: like the code, identity resolution honours a veto only for the direct pair.
- `apply_thread_weights` and candidate entity lists: a candidate arrives with its thread term.
- The human phrases beyond `richness`, decision logs, previews and ad-hoc digests.
- Which characters are letters, digits or spaces, and what their lower-case forms are.
- Network fetching itself: how an attempt ends is a parameter, and concurrent write-backs are taken in queue order, each on its own row.
- Ties among equally old rows in the fetch queue are broken by table order; the code leaves them to the database.
- Locks are mutual exclusion and isolation policies are not modelled beyond the scope each statement names.
- Rendering, mail transport, the model sidecar, prompts, the API, the command line, metrics and tracing.
- Eval.Evaluate: a record carries only the fields the metrics read.
- LinkLaws.RelinkFixpoint: relates linking to itself on the same candidates and edges; changed candidates are covered by the run invariants only.
