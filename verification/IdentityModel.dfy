/** Identity resolution, stated declaratively: components, representatives and confidence bands of a token graph. */
module IdentityModel {
  import opened Ordering
  import opened Connectivity

  datatype ConfidenceBand = Confirmed | Probable | Uncertain

  const CONFIRMED_FLOOR: real := 0.99
  const PROBABLE_FLOOR: real := 0.75

  function FromScore(score: real): ConfidenceBand {
    if score >= CONFIRMED_FLOOR then Confirmed
    else if score >= PROBABLE_FLOOR then Probable
    else Uncertain
  }

  datatype EdgeSource = ExactId | Normalized | Lexical | Embedding | Feedback

  datatype Edge = Edge(a: string, b: string, confidence: real, source: EdgeSource)

  /** Component representatives, and the band of each representative. */
  datatype Resolution = Resolution(rep: map<string, string>, band: map<string, ConfidenceBand>)

  /** The key under which an unordered pair is vetoed. */
  function Pair(a: string, b: string): (string, string) {
    if StringLe(a, b) then (a, b) else (b, a)
  }

  predicate Eligible(e: Edge, vetoes: set<(string, string)>, theta: real) {
    e.confidence >= theta && Pair(e.a, e.b) !in vetoes
  }

  ghost function EligibleSet(edges: seq<Edge>, vetoes: set<(string, string)>, theta: real): set<Edge> {
    set e | e in edges && Eligible(e, vetoes, theta)
  }

  /** The tokens resolved: the given ones and the ends of every eligible edge. */
  ghost function Tokens(nodes: seq<string>, es: set<Edge>): set<string> {
    (set n | n in nodes) + (set e | e in es :: e.a) + (set e | e in es :: e.b)
  }

  ghost function Pairs(es: set<Edge>): set<(string, string)> {
    set e | e in es :: (e.a, e.b)
  }

  /** The links of confidence at least `t`. */
  ghost function PairsFrom(es: set<Edge>, t: real): set<(string, string)> {
    set e | e in es && e.confidence >= t :: (e.a, e.b)
  }

  /** The component of `x` stays in one piece on links of confidence at least `t` alone. */
  ghost predicate HeldBy(tokens: set<string>, es: set<Edge>, x: string, t: real) {
    forall y | y in tokens && Connected(Pairs(es), x, y) :: Connected(PairsFrom(es, t), x, y)
  }

  ghost function BandOf(tokens: set<string>, es: set<Edge>, x: string): ConfidenceBand {
    if HeldBy(tokens, es, x, CONFIRMED_FLOOR) then Confirmed
    else if HeldBy(tokens, es, x, PROBABLE_FLOOR) then Probable
    else Uncertain
  }

  /** `r` precedes `y` as a representative: earlier representatives first, then the smaller token. */
  ghost predicate Precedes(prior: set<string>, r: string, y: string) {
    if r in prior then y in prior ==> StringLe(r, y) else y !in prior && StringLe(r, y)
  }

  ghost predicate IsRep(tokens: set<string>, es: set<Edge>, prior: set<string>, x: string, r: string) {
    && r in tokens && Connected(Pairs(es), x, r)
    && forall y {:trigger Precedes(prior, r, y)} | y in tokens && Connected(Pairs(es), x, y) :: Precedes(prior, r, y)
  }

  /** Each token maps to its component's representative. */
  ghost predicate Represents(rep: map<string, string>, tokens: set<string>, es: set<Edge>, prior: set<string>) {
    && rep.Keys == tokens
    && forall x {:trigger IsRep(tokens, es, prior, x, rep[x])} | x in tokens :: IsRep(tokens, es, prior, x, rep[x])
  }

  ghost function Reps(rep: map<string, string>): set<string> {
    set x | x in rep :: rep[x]
  }

  /** Each representative carries its component's band. */
  ghost predicate Banded(r: Resolution, tokens: set<string>, es: set<Edge>)
    requires r.rep.Keys == tokens
  {
    && r.band.Keys == Reps(r.rep)
    && forall x {:trigger BandOf(tokens, es, x)} | x in tokens :: r.rep[x] in r.band && r.band[r.rep[x]] == BandOf(tokens, es, x)
  }

  ghost predicate Resolves(r: Resolution, tokens: set<string>, es: set<Edge>, prior: set<string>) {
    Represents(r.rep, tokens, es, prior) && Banded(r, tokens, es)
  }
}
