/** What a resolution says of its input: which links count, which a veto removes, and what each component becomes. */
module IdentityMeaning {
  import opened Ordering
  import opened Connectivity
  import opened IdentityModel
  import opened IdentityLaws

  /** A veto names the two tokens, the smaller one first, whichever way round the edge runs. */
  ghost predicate Vetoed(e: Edge, vetoes: set<(string, string)>) {
    exists v | v in vetoes :: StringLe(v.0, v.1) && ((v.0 == e.a && v.1 == e.b) || (v.0 == e.b && v.1 == e.a))
  }

  /** The edges that count: confident enough, and not vetoed. */
  ghost function Links(edges: seq<Edge>, vetoes: set<(string, string)>, theta: real): set<Edge> {
    set e | e in edges && e.confidence >= theta && !Vetoed(e, vetoes)
  }

  /** The pairs of tokens joined by edges that count and reach confidence `t`. */
  ghost function Joined(edges: seq<Edge>, vetoes: set<(string, string)>, theta: real, t: real): set<(string, string)> {
    set e | e in Links(edges, vetoes, theta) && e.confidence >= t :: (e.a, e.b)
  }

  lemma VetoAgrees(e: Edge, vetoes: set<(string, string)>)
    ensures Pair(e.a, e.b) in vetoes <==> Vetoed(e, vetoes)
  {
    StringLeTotal(e.a, e.b);
    if Pair(e.a, e.b) in vetoes {
      var v := Pair(e.a, e.b);
      assert StringLe(v.0, v.1);
    }
    if v :| v in vetoes && StringLe(v.0, v.1) && ((v.0 == e.a && v.1 == e.b) || (v.0 == e.b && v.1 == e.a)) {
      assert v == (e.a, e.b) || v == (e.b, e.a);
    }
  }

  lemma LinksAreEligible(edges: seq<Edge>, vetoes: set<(string, string)>, theta: real)
    ensures EligibleSet(edges, vetoes, theta) == Links(edges, vetoes, theta)
  {
    forall e | e in edges ensures Eligible(e, vetoes, theta) <==> e.confidence >= theta && !Vetoed(e, vetoes) {
      VetoAgrees(e, vetoes);
    }
  }

  /** What resolving `edges` yields: the postcondition of the algorithm. */
  ghost predicate ResolutionOf(r: Resolution, nodes: seq<string>, edges: seq<Edge>, vetoes: set<(string, string)>, theta: real, prior: set<string>) {
    var es := EligibleSet(edges, vetoes, theta);
    Resolves(r, Tokens(nodes, es), es, prior)
  }

  /** The pairs of all the edges that count, where those below `t` need not be left out. */
  lemma JoinedPairs(edges: seq<Edge>, vetoes: set<(string, string)>, theta: real, t: real)
    ensures Joined(edges, vetoes, theta, t) == PairsFrom(EligibleSet(edges, vetoes, theta), t)
    ensures Joined(edges, vetoes, theta, theta) == Pairs(EligibleSet(edges, vetoes, theta))
  {
    LinksAreEligible(edges, vetoes, theta);
  }

  /** Two tokens get one representative exactly when a path of edges that count joins them. */
  lemma SameIffLinked(r: Resolution, nodes: seq<string>, edges: seq<Edge>, vetoes: set<(string, string)>, theta: real, prior: set<string>,
                      x: string, y: string)
    requires ResolutionOf(r, nodes, edges, vetoes, theta, prior) && x in r.rep && y in r.rep
    ensures r.rep[x] == r.rep[y] <==> Connected(Joined(edges, vetoes, theta, theta), x, y)
  {
    var es := EligibleSet(edges, vetoes, theta);
    JoinedPairs(edges, vetoes, theta, theta);
    SameRepIffConnected(r.rep, Tokens(nodes, es), es, prior, x, y);
  }

  /** The tokens resolved are the given ones and those that edges that count bring in. */
  lemma TokensResolved(r: Resolution, nodes: seq<string>, edges: seq<Edge>, vetoes: set<(string, string)>, theta: real, prior: set<string>, x: string)
    requires ResolutionOf(r, nodes, edges, vetoes, theta, prior)
    ensures x in r.rep <==> x in nodes || exists e | e in Links(edges, vetoes, theta) :: x == e.a || x == e.b
  {
    LinksAreEligible(edges, vetoes, theta);
  }

  /** Every edge that counts puts its ends under one representative. */
  lemma LinkJoins(r: Resolution, nodes: seq<string>, edges: seq<Edge>, vetoes: set<(string, string)>, theta: real, prior: set<string>, e: Edge)
    requires ResolutionOf(r, nodes, edges, vetoes, theta, prior) && e in edges && e.confidence >= theta && !Vetoed(e, vetoes)
    ensures e.a in r.rep && e.b in r.rep && r.rep[e.a] == r.rep[e.b]
  {
    assert e in Links(edges, vetoes, theta);
    TokensResolved(r, nodes, edges, vetoes, theta, prior, e.a);
    TokensResolved(r, nodes, edges, vetoes, theta, prior, e.b);
    assert (e.a, e.b) in Joined(edges, vetoes, theta, theta);
    assert Adjacent(Joined(edges, vetoes, theta, theta), e.a, e.b);
    ConnectedStep(Joined(edges, vetoes, theta, theta), e.a, e.b);
    SameIffLinked(r, nodes, edges, vetoes, theta, prior, e.a, e.b);
  }

  /** A token all of whose edges are vetoed or too weak keeps to itself. */
  lemma VetoedStaysApart(r: Resolution, nodes: seq<string>, edges: seq<Edge>, vetoes: set<(string, string)>, theta: real, prior: set<string>,
                         x: string, y: string)
    requires ResolutionOf(r, nodes, edges, vetoes, theta, prior) && x in r.rep && y in r.rep && x != y
    requires forall e | e in edges && (e.a == x || e.b == x) :: e.a == e.b || e.confidence < theta || Vetoed(e, vetoes)
    ensures r.rep[x] != r.rep[y]
  {
    var ps := Joined(edges, vetoes, theta, theta);
    SameIffLinked(r, nodes, edges, vetoes, theta, prior, x, y);
    if Connected(ps, x, y) {
      ConnectedCarries(ps, w => w == x, x, y);
    }
  }

  /** A component answers to its least token that was a representative before, or to its least token if none was. */
  lemma {:induction false} RepresentativeChosen(r: Resolution, nodes: seq<string>, edges: seq<Edge>, vetoes: set<(string, string)>, theta: real, prior: set<string>,
                             x: string, y: string)
    requires ResolutionOf(r, nodes, edges, vetoes, theta, prior) && x in r.rep && y in r.rep && r.rep[x] == r.rep[y]
    ensures r.rep[x] in r.rep && r.rep[r.rep[x]] == r.rep[x]
    ensures r.rep[x] in prior ==> (y in prior ==> StringLe(r.rep[x], y))
    ensures r.rep[x] !in prior ==> y !in prior && StringLe(r.rep[x], y)
  {
    var es := EligibleSet(edges, vetoes, theta);
    var tokens := Tokens(nodes, es);
    RepOfRep(r.rep, tokens, es, prior, x);
    SameRepIffConnected(r.rep, tokens, es, prior, x, y);
    assert IsRep(tokens, es, prior, x, r.rep[x]);
    assert Precedes(prior, r.rep[x], y);
  }

  /** The component of `x` stays in one piece on the edges of confidence `t` and up. */
  ghost predicate HoldsAt(r: Resolution, edges: seq<Edge>, vetoes: set<(string, string)>, theta: real, x: string, t: real)
    requires x in r.rep
  {
    forall y | y in r.rep && r.rep[y] == r.rep[x] :: Connected(Joined(edges, vetoes, theta, t), x, y)
  }

  lemma HoldsAgrees(r: Resolution, nodes: seq<string>, edges: seq<Edge>, vetoes: set<(string, string)>, theta: real, prior: set<string>,
                    x: string, t: real)
    requires ResolutionOf(r, nodes, edges, vetoes, theta, prior) && x in r.rep
    ensures var es := EligibleSet(edges, vetoes, theta); HeldBy(Tokens(nodes, es), es, x, t) <==> HoldsAt(r, edges, vetoes, theta, x, t)
  {
    var es := EligibleSet(edges, vetoes, theta);
    JoinedPairs(edges, vetoes, theta, t);
    forall y | y in r.rep ensures r.rep[y] == r.rep[x] <==> Connected(Pairs(es), x, y) {
      SameRepIffConnected(r.rep, Tokens(nodes, es), es, prior, x, y);
    }
  }

  /** Confirmed when 0.99 holds the component together, otherwise probable when 0.75 does, otherwise uncertain. */
  lemma BandMeaning(r: Resolution, nodes: seq<string>, edges: seq<Edge>, vetoes: set<(string, string)>, theta: real, prior: set<string>, x: string)
    requires ResolutionOf(r, nodes, edges, vetoes, theta, prior) && x in r.rep
    ensures r.rep[x] in r.band
    ensures r.band[r.rep[x]] == if HoldsAt(r, edges, vetoes, theta, x, 0.99) then Confirmed
                                else if HoldsAt(r, edges, vetoes, theta, x, 0.75) then Probable else Uncertain
  {
    var es := EligibleSet(edges, vetoes, theta);
    HoldsAgrees(r, nodes, edges, vetoes, theta, prior, x, 0.99);
    HoldsAgrees(r, nodes, edges, vetoes, theta, prior, x, 0.75);
    assert r.band[r.rep[x]] == BandOf(Tokens(nodes, es), es, x);
  }
}
