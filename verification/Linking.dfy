/** The linking pipeline: score, constrain, component, explain, forward. */
module Linking {
  import opened Connectivity
  import opened LinkModel
  import opened LinkScoring
  import opened LinkComponents
  import opened LinkForwarding
  import LinkScoringLaws
  import LinkComponentsLaws

  /** The edges linking works over, a function of the candidates and the tuning alone. */
  function LinkEdges(cs: seq<Cluster>, tuning: Tuning, ln: real -> real): (es: seq<Edge>)
    ensures InRange(es, |cs|)
  {
    LinkScoringLaws.ScoredEdgesAscend(cs, Grading(cs, tuning.entityWeights, ln));
    Constrained(GradedEdges(cs, Grading(cs, tuning.entityWeights, ln)), cs, tuning)
  }

  lemma LinkEdgesUnique(cs: seq<Cluster>, tuning: Tuning, ln: real -> real)
    ensures UniquePairs(LinkEdges(cs, tuning, ln))
  {
    var scored := GradedEdges(cs, Grading(cs, tuning.entityWeights, ln));
    LinkScoringLaws.ScoredEdgesAscend(cs, Grading(cs, tuning.entityWeights, ln));
    forall i, j | 0 <= i < j < |scored| ensures scored[i].a != scored[j].a || scored[i].b != scored[j].b {
      assert LinkScoringLaws.PairBefore(scored[i], scored[j]);
    }
    ConstrainedMeaning(scored, cs, tuning, Forced((0, 1)));
  }

  /** The partition of the candidates into stories. */
  ghost function StoryLabels(cs: seq<Cluster>, es: seq<Edge>, prior: map<Uuid, Uuid>, delivered: set<Uuid>): (lab: seq<nat>)
    requires InRange(es, |cs|)
    ensures |lab| == |cs| && Canonical(lab)
  {
    LinkComponentsLaws.FinalCoarsens(OwnStories(cs, prior, delivered), es);
    FinalLabels(OwnStories(cs, prior, delivered), es)
  }

  /** What linking computes, over the prior story of each cluster and the set of delivered stories. */
  ghost function Link(cs: seq<Cluster>, es: seq<Edge>, prior: map<Uuid, Uuid>, delivered: set<Uuid>, mint: nat -> Uuid): Assignment
    requires Candidates(cs) && InRange(es, |cs|)
  {
    var lab := StoryLabels(cs, es, prior, delivered);
    OrderedReadable(cs, lab);
    Forward(cs, OrderedClasses(cs, lab), Reasons(es, lab), prior, mint)
  }

  /** Links the candidates into stories, carrying ids forward from the prior assignment. */
  method LinkWith(cs: seq<Cluster>, prior: seq<PriorMember>, tuning: Tuning, ln: real -> real, mint: nat -> Uuid)
    returns (a: Assignment)
    requires Candidates(cs)
    ensures a == Link(cs, LinkEdges(cs, tuning, ln), PriorStory(prior), DeliveredStories(prior), mint)
  {
    var edges := ScoreEdges(cs, tuning.entityWeights, ln);
    LinkScoringLaws.ScoredEdgesAscend(cs, Grading(cs, tuning.entityWeights, ln));
    edges := ApplyConstraints(edges, cs, tuning);
    var comps, roots, lab := Components(cs, edges, prior);
    LinkComponentsLaws.FinalCoarsens(OwnStories(cs, PriorStory(prior), DeliveredStories(prior)), edges);
    var reasons := MemberReasons(cs, edges, comps, roots, lab);
    a := ForwardIds(cs, comps, reasons, prior, mint, roots, lab);
  }
}
