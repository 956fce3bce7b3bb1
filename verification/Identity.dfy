/** Identity resolution as it runs: a token-keyed union-find, Kruskal's pass, and the grouping of members. */
module Identity {
  import opened Ordering
  import opened Connectivity
  import opened Forest
  import opened Partition
  import opened IdentityModel
  import opened Kruskal

  /** Strongest first, ties by the tokens. */
  predicate StrongerFirst(x: Edge, y: Edge) {
    || x.confidence > y.confidence
    || (x.confidence == y.confidence && ((x.a != y.a && StringLe(x.a, y.a)) || (x.a == y.a && StringLe(x.b, y.b))))
  }

  function EligibleEdges(edges: seq<Edge>, vetoes: set<(string, string)>, theta: real): (r: seq<Edge>)
    ensures forall e :: e in r <==> e in edges && Eligible(e, vetoes, theta)
  {
    if edges == [] then []
    else
      var last := edges[|edges| - 1];
      assert edges == edges[..|edges| - 1] + [last];
      EligibleEdges(edges[..|edges| - 1], vetoes, theta) + if Eligible(last, vetoes, theta) then [last] else []
  }

  lemma StrongerFirstTotal()
    ensures Total(StrongerFirst)
  {
    StringOrder();
  }

  lemma {:induction false} SortedDescends(edges: seq<Edge>)
    ensures Descending(Sort(StrongerFirst, edges))
    ensures forall e :: e in Sort(StrongerFirst, edges) <==> e in edges
  {
    StrongerFirstTotal();
    SortSorted(StrongerFirst, edges);
    SortMembers(StrongerFirst, edges);
    var s := Sort(StrongerFirst, edges);
    forall i, j | 0 <= i < j < |s| ensures s[i].confidence >= s[j].confidence {
      assert StrongerFirst(s[i], s[j]);
    }
  }

  ghost predicate SameClass(index: map<string, nat>, lab: seq<nat>, x: string, y: string)
    requires x in index && y in index && index[x] < |lab| && index[y] < |lab|
  {
    lab[index[x]] == lab[index[y]]
  }

  /** Tokens share a class exactly when the pairs connect them, and the pairs join indexed tokens only. */
  ghost predicate Mirrors(index: map<string, nat>, lab: seq<nat>, ps: set<(string, string)>) {
    && (forall x | x in index :: index[x] < |lab|)
    && (forall p | p in ps :: p.0 in index && p.1 in index)
    && (forall x, y {:trigger SameClass(index, lab, x, y)} | x in index && y in index :: SameClass(index, lab, x, y) <==> Connected(ps, x, y))
  }

  lemma MirrorsGrow(index: map<string, nat>, lab: seq<nat>, ps: set<(string, string)>, t: string)
    requires Mirrors(index, lab, ps) && Canonical(lab) && t !in index
    ensures Mirrors(index[t := |lab|], lab + [|lab|], ps)
  {
    var grown, wider := lab + [|lab|], index[t := |lab|];
    forall x, y | x in wider && y in wider ensures SameClass(wider, grown, x, y) <==> Connected(ps, x, y) {
      if x != t && y != t {
        assert SameClass(index, lab, x, y) <==> Connected(ps, x, y);
      } else {
        ConnectedReflexive(ps, t);
        IsolatedToken(ps, t, if x == t then y else x);
        if Connected(ps, x, y) { ConnectedSymmetric(ps, x, y); }
      }
    }
  }

  lemma IsolatedToken(ps: set<(string, string)>, t: string, y: string)
    requires forall p | p in ps :: p.0 != t && p.1 != t
    ensures Connected(ps, t, y) <==> y == t
  {
    ConnectedReflexive(ps, t);
    if Connected(ps, t, y) {
      ConnectedCarries(ps, w => w == t, t, y);
    }
  }

  lemma MirrorsJoin(index: map<string, nat>, lab: seq<nat>, ps: set<(string, string)>, a: string, b: string)
    requires Mirrors(index, lab, ps) && Canonical(lab) && a in index && b in index
    ensures Mirrors(index, Join(lab, index[a], index[b]), ps + {(a, b)})
  {
    var joined := Join(lab, index[a], index[b]);
    JoinMerges(lab, index[a], index[b]);
    forall x, y | x in index && y in index ensures SameClass(index, joined, x, y) <==> Connected(ps + {(a, b)}, x, y) {
      ConnectedAdd(ps, a, b, x, y);
      assert SameClass(index, lab, x, y) <==> Connected(ps, x, y);
      assert SameClass(index, lab, x, a) <==> Connected(ps, x, a);
      assert SameClass(index, lab, x, b) <==> Connected(ps, x, b);
      assert SameClass(index, lab, a, y) <==> Connected(ps, a, y);
      assert SameClass(index, lab, b, y) <==> Connected(ps, b, y);
    }
  }

  lemma NoTokens(parent: seq<nat>, rank: seq<nat>, lab: seq<nat>)
    requires |parent| == |rank| == |lab| == 0
    ensures Balanced(parent, rank) && Labelled(parent, rank, lab)
  {
  }

  /** Union by rank, ties to the smaller root index. */
  method JoinRoots(parent0: seq<nat>, rank0: seq<nat>, ghost lab: seq<nat>, ghost x: nat, ghost y: nat, ra: nat, rb: nat)
    returns (parent: seq<nat>, rank: seq<nat>)
    requires Balanced(parent0, rank0) && Labelled(parent0, rank0, lab) && x < |lab| && y < |lab|
    requires ra < |lab| && rb < |lab| && ra != rb && parent0[ra] == ra && parent0[rb] == rb && lab[ra] == lab[x] && lab[rb] == lab[y]
    ensures Balanced(parent, rank) && Labelled(parent, rank, Join(lab, x, y))
  {
    var lo, hi := rb, ra;
    if rank0[ra] < rank0[rb] || (rank0[ra] == rank0[rb] && rb < ra) {
      lo, hi := ra, rb;
    }
    LinkJoins(parent0, rank0, lab, x, y, lo, hi);
    parent, rank := parent0[lo := hi], rank0;
    if rank[lo] == rank[hi] {
      rank := rank[hi := rank[hi] + 1];
    }
    assert parent == LinkedParent(parent0, lo, hi) && rank == LinkedRank(rank0, lo, hi);
  }

  /** Disjoint sets keyed by token. */
  class UnionFind {
    var index: map<string, nat>
    var parent: seq<nat>
    var rank: seq<nat>
    ghost var lab: seq<nat>

    ghost predicate Valid()
      reads this
    {
      && Balanced(parent, rank) && Labelled(parent, rank, lab)
      && forall x | x in index :: index[x] < |parent|
    }

    constructor ()
      ensures Valid() && index == map[] && lab == []
    {
      index, parent, rank, lab := map[], [], [], [];
      new;
      NoTokens(parent, rank, lab);
    }

    /** The token's index, a fresh singleton if it has none. */
    method Touch(id: string) returns (i: nat)
      requires Valid()
      modifies this
      ensures Valid() && i < |lab|
      ensures id in old(index) ==> index == old(index) && lab == old(lab) && i == index[id]
      ensures id !in old(index) ==> index == old(index)[id := |old(lab)|] && lab == old(lab) + [|old(lab)|] && i == |old(lab)|
    {
      if id in index {
        return index[id];
      }
      i := |parent|;
      GrownBalanced(parent, rank);
      GrownLabelled(parent, rank, lab);
      parent, rank, index := parent + [i], rank + [0], index[id := i];
      lab := lab + [|lab|];
    }

    method Find(i: nat) returns (r: nat, ghost steps: nat)
      requires Valid() && i < |lab|
      modifies this`parent
      ensures Valid() && |parent| == old(|parent|)
      ensures forall r | 0 <= r < |parent| && old(parent)[r] == r :: parent[r] == r
      ensures r < |lab| && parent[r] == r && lab[r] == lab[i]
      ensures Pow2(steps) <= |lab|
    {
      ghost var was := parent;
      parent, r, steps := HalvingFind(parent, rank, i);
      HalvedLabelled(was, parent, rank, lab);
      RootLabel(parent, rank, lab, i);
      forall r | 0 <= r < |parent| && was[r] == r ensures parent[r] == r {
        assert Root(was, rank, r) == Root(parent, rank, r);
      }
    }

    /** The root without mutation, for the frozen structure. */
    method FindConst(i0: nat) returns (i: nat)
      requires Valid() && i0 < |lab|
      ensures i == Root(parent, rank, i0)
    {
      i := i0;
      while parent[i] != i
        invariant i < |parent| && Root(parent, rank, i) == Root(parent, rank, i0)
        decreases MaxRank(rank) - rank[i]
      {
        i := parent[i];
      }
    }

    /** Merges the classes of two tokens; true exactly when they were apart. */
    method Union(a: string, b: string) returns (merged: bool)
      requires Valid() && a in index && b in index
      modifies this
      ensures Valid() && index == old(index)
      ensures merged <==> old(lab)[index[a]] != old(lab)[index[b]]
      ensures lab == Join(old(lab), index[a], index[b])
    {
      var ia := Touch(a);
      var ib := Touch(b);
      var ra, _ := Find(ia);
      var rb, _ := Find(ib);
      SameClassSameRoot(parent, rank, lab, ra, rb);
      if ra == rb {
        JoinSame(lab, ia, ib);
        return false;
      }
      parent, rank := JoinRoots(parent, rank, lab, ia, ib, ra, rb);
      lab := Join(lab, ia, ib);
      return true;
    }
  }

  lemma {:induction false} RootLabel(parent: seq<nat>, rank: seq<nat>, lab: seq<nat>, x: nat)
    requires Labelled(parent, rank, lab) && x < |lab|
    ensures lab[Root(parent, rank, x)] == lab[x]
  {
    var r := Root(parent, rank, x);
    assert Root(parent, rank, r) == r;
  }

  // ── Kruskal's pass ──

  /** The forest records one endpoint's index and the confidence of each picked edge. */
  ghost predicate Records(forest: seq<(nat, real)>, es: seq<Edge>, picked: seq<nat>, index: map<string, nat>) {
    && |forest| == |picked|
    && forall f | 0 <= f < |forest| ::
         picked[f] < |es| && es[picked[f]].a in index && forest[f] == (index[es[picked[f]].a], es[picked[f]].confidence)
  }

  /** Tokens keep their indices as more are touched. */
  ghost predicate Extends(index: map<string, nat>, next: map<string, nat>) {
    forall x | x in index :: x in next && next[x] == index[x]
  }

  /** Touches a token without disturbing what the classes mirror. */
  method TouchMirrored(uf: UnionFind, id: string, ghost ps: set<(string, string)>) returns (i: nat)
    requires uf.Valid() && Mirrors(uf.index, uf.lab, ps)
    modifies uf
    ensures uf.Valid() && Mirrors(uf.index, uf.lab, ps) && Extends(old(uf.index), uf.index)
    ensures uf.index.Keys == old(uf.index).Keys + {id} && uf.index[id] == i
  {
    if id !in uf.index {
      MirrorsGrow(uf.index, uf.lab, ps, id);
    }
    i := uf.Touch(id);
  }

  method TouchAll(uf: UnionFind, nodes: seq<string>)
    requires uf.Valid() && uf.index == map[] && uf.lab == []
    modifies uf
    ensures uf.Valid() && Mirrors(uf.index, uf.lab, {}) && uf.index.Keys == Tokens(nodes, {})
  {
    for k := 0 to |nodes|
      invariant uf.Valid() && Mirrors(uf.index, uf.lab, {})
      invariant uf.index.Keys == Tokens(nodes[..k], {})
    {
      assert nodes[..k + 1] == nodes[..k] + [nodes[k]];
      var _ := TouchMirrored(uf, nodes[k], {});
    }
    assert nodes[..|nodes|] == nodes;
  }

  /** Takes in one edge; `merged` tells whether it joined tokens the earlier edges left apart. */
  method AddEdge(uf: UnionFind, e: Edge, ghost ps: set<(string, string)>) returns (ia: nat, merged: bool)
    requires uf.Valid() && Mirrors(uf.index, uf.lab, ps)
    modifies uf
    ensures uf.Valid() && Mirrors(uf.index, uf.lab, ps + {(e.a, e.b)}) && Extends(old(uf.index), uf.index)
    ensures uf.index.Keys == old(uf.index).Keys + {e.a, e.b} && uf.index[e.a] == ia
    ensures merged <==> !Connected(ps, e.a, e.b)
  {
    ia := TouchMirrored(uf, e.a, ps);
    var _ := TouchMirrored(uf, e.b, ps);
    MirrorsJoin(uf.index, uf.lab, ps, e.a, e.b);
    assert SameClass(uf.index, uf.lab, e.a, e.b) <==> Connected(ps, e.a, e.b);
    merged := uf.Union(e.a, e.b);
  }

  lemma RecordsExtend(forest: seq<(nat, real)>, es: seq<Edge>, picked: seq<nat>, index: map<string, nat>, next: map<string, nat>)
    requires Records(forest, es, picked, index) && Extends(index, next)
    ensures Records(forest, es, picked, next)
  {
  }

  method SpanningPass(uf: UnionFind, nodes: seq<string>, es: seq<Edge>) returns (forest: seq<(nat, real)>, ghost picked: seq<nat>)
    requires uf.Valid() && Mirrors(uf.index, uf.lab, {}) && uf.index.Keys == Tokens(nodes, {})
    modifies uf
    ensures uf.Valid() && Mirrors(uf.index, uf.lab, Pairs(EdgesOf(es)))
    ensures uf.index.Keys == Tokens(nodes, EdgesOf(es))
    ensures SpanningForest(es, |es|, picked) && Records(forest, es, picked, uf.index)
  {
    forest, picked := [], [];
    EmptyForest(es);
    assert Pairs(EdgesOf(es[..0])) == {} && EdgesOf(es[..0]) == {};
    for n := 0 to |es|
      invariant uf.Valid() && Mirrors(uf.index, uf.lab, Pairs(EdgesOf(es[..n])))
      invariant uf.index.Keys == Tokens(nodes, EdgesOf(es[..n]))
      invariant SpanningForest(es, n, picked) && Records(forest, es, picked, uf.index)
    {
      ghost var index := uf.index;
      PairsNext(es, n);
      TokensNext(nodes, es, n);
      var ia, merged := AddEdge(uf, es[n], Pairs(EdgesOf(es[..n])));
      RecordsExtend(forest, es, picked, index, uf.index);
      if merged {
        ForestPicks(es, n, picked);
        forest, picked := forest + [(ia, es[n].confidence)], picked + [n];
      } else {
        ForestSkips(es, n, picked);
      }
    }
    assert es[..|es|] == es;
  }

  lemma TokensNext(nodes: seq<string>, es: seq<Edge>, n: nat)
    requires n < |es|
    ensures Tokens(nodes, EdgesOf(es[..n + 1])) == Tokens(nodes, EdgesOf(es[..n])) + {es[n].a, es[n].b}
  {
    assert es[..n + 1] == es[..n] + [es[n]];
    assert EdgesOf(es[..n + 1]) == EdgesOf(es[..n]) + {es[n]};
  }

  // ── Members, bottlenecks and representatives per root ──

  /** Every indexed token's root. */
  ghost function TokenRoots(index: map<string, nat>, parent: seq<nat>, rank: seq<nat>): map<string, nat>
    requires WellRanked(parent, rank) && forall x | x in index :: index[x] < |parent|
  {
    map x | x in index :: Root(parent, rank, index[x])
  }

  /** Tokens share a root exactly when the pairs connect them. */
  ghost predicate RootsMirror(roots: map<string, nat>, ps: set<(string, string)>) {
    forall x, y {:trigger Connected(ps, x, y)} | x in roots && y in roots :: roots[x] == roots[y] <==> Connected(ps, x, y)
  }

  lemma TokenRootsMirror(index: map<string, nat>, parent: seq<nat>, rank: seq<nat>, lab: seq<nat>, ps: set<(string, string)>)
    requires Labelled(parent, rank, lab) && Mirrors(index, lab, ps)
    ensures RootsMirror(TokenRoots(index, parent, rank), ps)
  {
    var roots := TokenRoots(index, parent, rank);
    forall x, y | x in roots && y in roots ensures roots[x] == roots[y] <==> Connected(ps, x, y) {
      assert SameClass(index, lab, x, y) <==> Connected(ps, x, y);
    }
  }

  /** Each root's members, in whatever order the index is walked. */
  ghost predicate Grouped(byRoot: map<nat, seq<string>>, roots: map<string, nat>, seen: set<string>) {
    && (forall x | x in seen :: x in roots && roots[x] in byRoot && x in byRoot[roots[x]])
    && (forall r | r in byRoot :: byRoot[r] != [] && forall x | x in byRoot[r] :: x in seen && roots[x] == r)
  }

  lemma GroupedNext(byRoot: map<nat, seq<string>>, roots: map<string, nat>, seen: set<string>, x: string)
    requires Grouped(byRoot, roots, seen) && x in roots && x !in seen
    ensures var r := roots[x];
      Grouped(byRoot[r := (if r in byRoot then byRoot[r] else []) + [x]], roots, seen + {x})
  {
  }

  method GroupMembers(uf: UnionFind, ghost roots: map<string, nat>) returns (byRoot: map<nat, seq<string>>)
    requires uf.Valid() && roots == TokenRoots(uf.index, uf.parent, uf.rank)
    ensures Grouped(byRoot, roots, uf.index.Keys)
  {
    byRoot := map[];
    var rest := uf.index.Keys;
    while rest != {}
      invariant rest <= uf.index.Keys && Grouped(byRoot, roots, uf.index.Keys - rest)
      decreases rest
    {
      var x :| x in rest;
      var r := uf.FindConst(uf.index[x]);
      GroupedNext(byRoot, roots, uf.index.Keys - rest, x);
      assert uf.index.Keys - rest + {x} == uf.index.Keys - (rest - {x});
      byRoot := byRoot[r := (if r in byRoot then byRoot[r] else []) + [x]];
      rest := rest - {x};
    }
  }

  function Lowered(weakest: map<nat, real>, r: nat, c: real): map<nat, real> {
    weakest[r := if r in weakest && weakest[r] < c then weakest[r] else c]
  }

  /** The least confidence recorded under each root. */
  ghost function Weakest(forest: seq<(nat, real)>, root: seq<nat>): map<nat, real>
    requires forall f | 0 <= f < |forest| :: forest[f].0 < |root|
  {
    if forest == [] then map[]
    else
      var last := forest[|forest| - 1];
      Lowered(Weakest(forest[..|forest| - 1], root), root[last.0], last.1)
  }

  lemma {:induction false} WeakestMeaning(forest: seq<(nat, real)>, root: seq<nat>, r: nat, t: real)
    requires forall f | 0 <= f < |forest| :: forest[f].0 < |root|
    ensures (r in Weakest(forest, root) ==> Weakest(forest, root)[r] >= t)
       <==> forall f | 0 <= f < |forest| && root[forest[f].0] == r :: forest[f].1 >= t
  {
    if forest != [] {
      var front, last := forest[..|forest| - 1], forest[|forest| - 1];
      WeakestMeaning(front, root, r, t);
      if forall f | 0 <= f < |front| && root[front[f].0] == r :: front[f].1 >= t {
        forall f | 0 <= f < |forest| && root[forest[f].0] == r && f < |front| ensures forest[f].1 >= t {
          assert front[f] == forest[f];
        }
      } else {
        var f :| 0 <= f < |front| && root[front[f].0] == r && front[f].1 < t;
        assert forest[f] == front[f];
      }
    }
  }

  ghost function RootSeq(parent: seq<nat>, rank: seq<nat>): (r: seq<nat>)
    requires WellRanked(parent, rank)
    ensures |r| == |parent|
  {
    seq(|parent|, i requires 0 <= i < |parent| => Root(parent, rank, i))
  }

  method Bottlenecks(uf: UnionFind, forest: seq<(nat, real)>, ghost root: seq<nat>) returns (weakest: map<nat, real>)
    requires uf.Valid() && root == RootSeq(uf.parent, uf.rank) && forall f | 0 <= f < |forest| :: forest[f].0 < |root|
    ensures weakest == Weakest(forest, root)
  {
    weakest := map[];
    for k := 0 to |forest|
      invariant weakest == Weakest(forest[..k], root)
    {
      var r := uf.FindConst(forest[k].0);
      assert r == root[forest[k].0];
      assert forest[..k + 1][..k] == forest[..k];
      weakest := Lowered(weakest, r, forest[k].1);
    }
    assert forest[..|forest|] == forest;
  }

  /** The first of the members that was a representative before. */
  function FirstIn(members: seq<string>, prior: set<string>): (r: Option<string>)
    ensures r.None? <==> forall m | m in members :: m !in prior
  {
    if members == [] then None
    else
      assert members == [members[0]] + members[1..];
      if members[0] in prior then Some(members[0]) else FirstIn(members[1..], prior)
  }

  lemma {:induction false} FirstInLeast(members: seq<string>, prior: set<string>)
    requires Sorted(StringLe, members) && FirstIn(members, prior).Some?
    ensures var m := FirstIn(members, prior).value;
      m in members && m in prior && forall y | y in members && y in prior :: StringLe(m, y)
  {
    assert members == [members[0]] + members[1..];
    if members[0] in prior {
      forall y | y in members && y in prior ensures StringLe(members[0], y) {
        StringOrder();
        SortedLeast(StringLe, members, y);
      }
    } else {
      FirstInLeast(members[1..], prior);
    }
  }

  /** The stable representative of a component. */
  function Representative(members: seq<string>, prior: set<string>): string
    requires members != []
  {
    var sorted := Sort(StringLe, members);
    match FirstIn(sorted, prior)
    case Some(m) => m
    case None => sorted[0]
  }

  lemma RepresentativeMeaning(members: seq<string>, prior: set<string>)
    requires members != []
    ensures var r := Representative(members, prior);
      r in members && forall y | y in members :: Precedes(prior, r, y)
  {
    var sorted := Sort(StringLe, members);
    StringOrder();
    SortSorted(StringLe, members);
    SortMembers(StringLe, members);
    if FirstIn(sorted, prior).Some? {
      FirstInLeast(sorted, prior);
    } else {
      forall y | y in members ensures StringLe(sorted[0], y) {
        SortedLeast(StringLe, sorted, y);
      }
    }
  }

  function BandUnder(weakest: map<nat, real>, r: nat): ConfidenceBand {
    if r in weakest then FromScore(weakest[r]) else Confirmed
  }

  /** Each root's representative. */
  ghost function Chosen(byRoot: map<nat, seq<string>>, prior: set<string>): (chosen: map<nat, string>)
    requires forall r | r in byRoot :: byRoot[r] != []
    ensures chosen.Keys == byRoot.Keys
  {
    map r | r in byRoot :: Representative(byRoot[r], prior)
  }

  /** What the last loop has filled in for the roots below `n`. */
  ghost predicate Elected(res: Resolution, roots: map<string, nat>, chosen: map<nat, string>, weakest: map<nat, real>, n: nat) {
    && (forall x :: x in res.rep <==> x in roots && roots[x] < n)
    && (forall x | x in res.rep :: roots[x] in chosen && res.rep[x] == chosen[roots[x]])
    && (forall s | s in res.band :: exists r | r in chosen :: r < n && s == chosen[r])
    && (forall r | r in chosen && r < n :: chosen[r] in res.band && res.band[chosen[r]] == BandUnder(weakest, r))
  }

  /** A root's representative is one of its own members, so no other root has it. */
  lemma ChosenApart(byRoot: map<nat, seq<string>>, prior: set<string>, roots: map<string, nat>, q: nat, r: nat)
    requires Grouped(byRoot, roots, roots.Keys) && q in byRoot && r in byRoot && q != r
    ensures Chosen(byRoot, prior)[q] != Chosen(byRoot, prior)[r]
  {
    RepresentativeMeaning(byRoot[q], prior);
    RepresentativeMeaning(byRoot[r], prior);
    assert roots[Representative(byRoot[q], prior)] == q;
    assert roots[Representative(byRoot[r], prior)] == r;
  }

  lemma ElectedNext(res0: Resolution, res: Resolution, roots: map<string, nat>, chosen: map<nat, string>, weakest: map<nat, real>, n: nat)
    requires Elected(res0, roots, chosen, weakest, n) && n in chosen
    requires forall q, r | q in chosen && r in chosen && q != r :: chosen[q] != chosen[r]
    requires forall x :: x in res.rep <==> x in res0.rep || (x in roots && roots[x] == n)
    requires forall x | x in res.rep :: res.rep[x] == if x in roots && roots[x] == n then chosen[n] else res0.rep[x]
    requires res.band == res0.band[chosen[n] := BandUnder(weakest, n)]
    ensures Elected(res, roots, chosen, weakest, n + 1)
  {
    forall s | s in res.band ensures exists r | r in chosen :: r < n + 1 && s == chosen[r] {
      if s != chosen[n] {
        var r :| r in chosen && r < n && s == chosen[r];
      }
    }
  }

  /** Records one component: every member under its representative, and the representative's band. */
  method ElectOne(res0: Resolution, byRoot: map<nat, seq<string>>, weakest: map<nat, real>, prior: set<string>,
                  ghost roots: map<string, nat>, n: nat)
    returns (res: Resolution)
    requires Grouped(byRoot, roots, roots.Keys) && n in byRoot && Elected(res0, roots, Chosen(byRoot, prior), weakest, n)
    ensures Elected(res, roots, Chosen(byRoot, prior), weakest, n + 1)
  {
    var representative := Representative(byRoot[n], prior);
    var rep := MapAll(res0.rep, Sort(StringLe, byRoot[n]), representative);
    SortMembers(StringLe, byRoot[n]);
    res := Resolution(rep, res0.band[representative := BandUnder(weakest, n)]);
    forall q, r | q in byRoot && r in byRoot && q != r ensures Chosen(byRoot, prior)[q] != Chosen(byRoot, prior)[r] {
      ChosenApart(byRoot, prior, roots, q, r);
    }
    ElectedNext(res0, res, roots, Chosen(byRoot, prior), weakest, n);
  }

  method MapAll(rep0: map<string, string>, members: seq<string>, representative: string) returns (rep: map<string, string>)
    ensures forall x :: x in rep <==> x in rep0 || x in members
    ensures forall x | x in rep :: rep[x] == if x in members then representative else rep0[x]
  {
    rep := rep0;
    for k := 0 to |members|
      invariant forall x :: x in rep <==> x in rep0 || x in members[..k]
      invariant forall x | x in rep :: rep[x] == if x in members[..k] then representative else rep0[x]
    {
      assert members[..k + 1] == members[..k] + [members[k]];
      rep := rep[members[k] := representative];
    }
    assert members[..|members|] == members;
  }

  lemma ElectedSkip(res: Resolution, roots: map<string, nat>, chosen: map<nat, string>, weakest: map<nat, real>, n: nat)
    requires n !in chosen && (forall x | x in roots :: roots[x] in chosen) && Elected(res, roots, chosen, weakest, n)
    ensures Elected(res, roots, chosen, weakest, n + 1)
  {
    forall s | s in res.band ensures exists r | r in chosen :: r < n + 1 && s == chosen[r] {
      var r :| r in chosen && r < n && s == chosen[r];
    }
  }

  // ── The whole resolution ──

  lemma ElectedRepresents(res: Resolution, byRoot: map<nat, seq<string>>, weakest: map<nat, real>, prior: set<string>,
                          roots: map<string, nat>, n: nat, es: set<Edge>)
    requires Grouped(byRoot, roots, roots.Keys) && Elected(res, roots, Chosen(byRoot, prior), weakest, n)
    requires (forall x | x in roots :: roots[x] < n) && RootsMirror(roots, Pairs(es))
    ensures Represents(res.rep, roots.Keys, es, prior)
  {
    forall x | x in roots ensures IsRep(roots.Keys, es, prior, x, res.rep[x]) {
      var members := byRoot[roots[x]];
      RepresentativeMeaning(members, prior);
      assert roots[res.rep[x]] == roots[x];
      forall y | y in roots && Connected(Pairs(es), x, y) ensures Precedes(prior, res.rep[x], y) {
        assert y in members;
      }
    }
  }

  lemma TokenBand(res: Resolution, roots: map<string, nat>, chosen: map<nat, string>, weakest: map<nat, real>, n: nat, x: string)
    requires Elected(res, roots, chosen, weakest, n) && x in roots && roots[x] < n
    ensures x in res.rep && res.rep[x] in res.band && res.band[res.rep[x]] == BandUnder(weakest, roots[x])
  {
    assert x in res.rep && res.rep[x] == chosen[roots[x]];
  }

  lemma ElectedBanded(res: Resolution, byRoot: map<nat, seq<string>>, weakest: map<nat, real>, prior: set<string>,
                      roots: map<string, nat>, n: nat, es: set<Edge>)
    requires Grouped(byRoot, roots, roots.Keys) && Elected(res, roots, Chosen(byRoot, prior), weakest, n)
    requires forall x | x in roots :: roots[x] < n
    requires forall x | x in roots :: BandUnder(weakest, roots[x]) == BandOf(roots.Keys, es, x)
    ensures res.rep.Keys == roots.Keys && Banded(res, roots.Keys, es)
  {
    forall x | x in roots ensures x in res.rep && res.rep[x] in res.band && res.band[res.rep[x]] == BandOf(roots.Keys, es, x) {
      TokenBand(res, roots, Chosen(byRoot, prior), weakest, n, x);
    }
    SameTokens(res, byRoot, weakest, prior, roots, n);
    BandsAreReps(res, byRoot, weakest, prior, roots, n);
  }

  lemma SameTokens(res: Resolution, byRoot: map<nat, seq<string>>, weakest: map<nat, real>, prior: set<string>,
                   roots: map<string, nat>, n: nat)
    requires Grouped(byRoot, roots, roots.Keys) && Elected(res, roots, Chosen(byRoot, prior), weakest, n)
    requires forall x | x in roots :: roots[x] < n
    ensures res.rep.Keys == roots.Keys
  {
    forall x ensures x in res.rep <==> x in roots {}
  }

  lemma BandsAreReps(res: Resolution, byRoot: map<nat, seq<string>>, weakest: map<nat, real>, prior: set<string>,
                     roots: map<string, nat>, n: nat)
    requires Grouped(byRoot, roots, roots.Keys) && Elected(res, roots, Chosen(byRoot, prior), weakest, n)
    requires forall x | x in roots :: roots[x] < n
    ensures res.band.Keys == Reps(res.rep)
  {
    forall s | s in res.band ensures s in Reps(res.rep) {
      var r :| r in Chosen(byRoot, prior) && r < n && s == Chosen(byRoot, prior)[r];
      BandHasMember(res, byRoot, weakest, prior, roots, n, r);
    }
    forall s | s in Reps(res.rep) ensures s in res.band {
      var x :| x in res.rep && res.rep[x] == s;
      TokenBand(res, roots, Chosen(byRoot, prior), weakest, n, x);
    }
  }

  lemma BandHasMember(res: Resolution, byRoot: map<nat, seq<string>>, weakest: map<nat, real>, prior: set<string>,
                      roots: map<string, nat>, n: nat, r: nat)
    requires Grouped(byRoot, roots, roots.Keys) && Elected(res, roots, Chosen(byRoot, prior), weakest, n) && r in byRoot && r < n
    ensures Chosen(byRoot, prior)[r] in Reps(res.rep)
  {
    var x := byRoot[r][0];
    assert x in byRoot[r];
    assert x in res.rep && res.rep[x] == Chosen(byRoot, prior)[r];
  }

  /** The band read off the weakest recorded edge is the component's. */
  lemma {:induction false} WeakestIsBottleneck(es: seq<Edge>, forest: seq<(nat, real)>, picked: seq<nat>, index: map<string, nat>, root: seq<nat>,
                            roots: map<string, nat>, x: string, t: real)
    requires Descending(es) && SpanningForest(es, |es|, picked) && Records(forest, es, picked, index)
    requires forall e | e in es :: e.a in roots && e.b in roots
    requires index.Keys == roots.Keys && forall y | y in roots :: index[y] < |root| && roots[y] == root[index[y]]
    requires RootsMirror(roots, Pairs(EdgesOf(es))) && x in roots
    requires forall f | 0 <= f < |forest| :: forest[f].0 < |root|
    ensures HeldBy(roots.Keys, EdgesOf(es), x, t) <==> (roots[x] in Weakest(forest, root) ==> Weakest(forest, root)[roots[x]] >= t)
  {
    Bottleneck(es, picked, roots.Keys, x, t);
    WeakestMeaning(forest, root, roots[x], t);
    forall f | 0 <= f < |forest|
      ensures forest[f].1 == es[picked[f]].confidence
      ensures root[forest[f].0] == roots[x] <==> Connected(Pairs(EdgesOf(es)), x, es[picked[f]].a)
    {
      assert es[picked[f]] in es;
    }
    if HeldBy(roots.Keys, EdgesOf(es), x, t) {
      forall f | 0 <= f < |forest| && root[forest[f].0] == roots[x] ensures forest[f].1 >= t {
        assert picked[f] in picked;
      }
    }
    if forall f | 0 <= f < |forest| && root[forest[f].0] == roots[x] :: forest[f].1 >= t {
      forall k | k in picked && Connected(Pairs(EdgesOf(es)), x, es[k].a) ensures es[k].confidence >= t {
        var f :| 0 <= f < |picked| && picked[f] == k;
        assert root[forest[f].0] == roots[x];
      }
    }
  }

  lemma BandFromWeakest(weakest: map<nat, real>, r: nat, tokens: set<string>, es: set<Edge>, x: string)
    requires HeldBy(tokens, es, x, CONFIRMED_FLOOR) <==> (r in weakest ==> weakest[r] >= CONFIRMED_FLOOR)
    requires HeldBy(tokens, es, x, PROBABLE_FLOOR) <==> (r in weakest ==> weakest[r] >= PROBABLE_FLOOR)
    ensures BandUnder(weakest, r) == BandOf(tokens, es, x)
  {
  }

  method ElectAll(n: nat, byRoot: map<nat, seq<string>>, weakest: map<nat, real>, prior: set<string>, ghost roots: map<string, nat>)
    returns (res: Resolution)
    requires Grouped(byRoot, roots, roots.Keys)
    ensures Elected(res, roots, Chosen(byRoot, prior), weakest, n)
  {
    res := Resolution(map[], map[]);
    for r := 0 to n
      invariant Elected(res, roots, Chosen(byRoot, prior), weakest, r)
    {
      if r in byRoot {
        res := ElectOne(res, byRoot, weakest, prior, roots, r);
      } else {
        ElectedSkip(res, roots, Chosen(byRoot, prior), weakest, r);
      }
    }
  }

  /** Groups, bands and elects, over a frozen structure that mirrors the links. */
  method Conclude(uf: UnionFind, es: seq<Edge>, forest: seq<(nat, real)>, ghost picked: seq<nat>, prior: set<string>) returns (res: Resolution)
    requires uf.Valid() && Mirrors(uf.index, uf.lab, Pairs(EdgesOf(es))) && Descending(es)
    requires SpanningForest(es, |es|, picked) && Records(forest, es, picked, uf.index)
    requires forall e | e in es :: e.a in uf.index && e.b in uf.index
    ensures Resolves(res, uf.index.Keys, EdgesOf(es), prior)
  {
    ghost var roots := TokenRoots(uf.index, uf.parent, uf.rank);
    ghost var root := RootSeq(uf.parent, uf.rank);
    ForestInRange(forest, es, picked, uf.index, |root|);
    RootsAgree(uf.index, uf.parent, uf.rank);
    TokenRootsMirror(uf.index, uf.parent, uf.rank, uf.lab, Pairs(EdgesOf(es)));
    var byRoot := GroupMembers(uf, roots);
    var weakest := Bottlenecks(uf, forest, root);
    res := ElectAll(|uf.parent|, byRoot, weakest, prior, roots);
    ElectedResolves(res, es, forest, picked, uf.index, root, roots, byRoot, prior);
  }

  lemma RootsAgree(index: map<string, nat>, parent: seq<nat>, rank: seq<nat>)
    requires WellRanked(parent, rank) && forall x | x in index :: index[x] < |parent|
    ensures var roots, root := TokenRoots(index, parent, rank), RootSeq(parent, rank);
      && |root| == |parent| && index.Keys == roots.Keys
      && forall y | y in roots :: index[y] < |root| && roots[y] == root[index[y]] && roots[y] < |root|
  {
  }

  lemma {:induction false} ElectedResolves(res: Resolution, es: seq<Edge>, forest: seq<(nat, real)>, picked: seq<nat>, index: map<string, nat>,
                        root: seq<nat>, roots: map<string, nat>, byRoot: map<nat, seq<string>>, prior: set<string>)
    requires Descending(es) && SpanningForest(es, |es|, picked) && Records(forest, es, picked, index)
    requires forall e | e in es :: e.a in roots && e.b in roots
    requires index.Keys == roots.Keys && forall y | y in roots :: index[y] < |root| && roots[y] == root[index[y]] && roots[y] < |root|
    requires RootsMirror(roots, Pairs(EdgesOf(es)))
    requires forall f | 0 <= f < |forest| :: forest[f].0 < |root|
    requires Grouped(byRoot, roots, roots.Keys) && Elected(res, roots, Chosen(byRoot, prior), Weakest(forest, root), |root|)
    ensures Resolves(res, roots.Keys, EdgesOf(es), prior)
  {
    BandsMatch(es, forest, picked, index, root, roots);
    ElectedRepresents(res, byRoot, Weakest(forest, root), prior, roots, |root|, EdgesOf(es));
    ElectedBanded(res, byRoot, Weakest(forest, root), prior, roots, |root|, EdgesOf(es));
  }

  lemma ForestInRange(forest: seq<(nat, real)>, es: seq<Edge>, picked: seq<nat>, index: map<string, nat>, n: nat)
    requires Records(forest, es, picked, index) && forall x | x in index :: index[x] < n
    ensures forall f | 0 <= f < |forest| :: forest[f].0 < n
  {
  }

  lemma {:induction false} BandsMatch(es: seq<Edge>, forest: seq<(nat, real)>, picked: seq<nat>, index: map<string, nat>, root: seq<nat>,
                   roots: map<string, nat>)
    requires Descending(es) && SpanningForest(es, |es|, picked) && Records(forest, es, picked, index)
    requires forall e | e in es :: e.a in roots && e.b in roots
    requires index.Keys == roots.Keys && forall y | y in roots :: index[y] < |root| && roots[y] == root[index[y]]
    requires RootsMirror(roots, Pairs(EdgesOf(es)))
    requires forall f | 0 <= f < |forest| :: forest[f].0 < |root|
    ensures forall x | x in roots :: BandUnder(Weakest(forest, root), roots[x]) == BandOf(roots.Keys, EdgesOf(es), x)
  {
    forall x | x in roots ensures BandUnder(Weakest(forest, root), roots[x]) == BandOf(roots.Keys, EdgesOf(es), x) {
      WeakestIsBottleneck(es, forest, picked, index, root, roots, x, CONFIRMED_FLOOR);
      WeakestIsBottleneck(es, forest, picked, index, root, roots, x, PROBABLE_FLOOR);
      BandFromWeakest(Weakest(forest, root), roots[x], roots.Keys, EdgesOf(es), x);
    }
  }

  /**
   * Resolves identities: components of the eligible links, each with its stable representative and the band of
   * its bottleneck. The contract determines the result from the sets of tokens and eligible edges alone.
   */
  method Resolve(nodes: seq<string>, edges: seq<Edge>, vetoes: set<(string, string)>, theta: real, prior: set<string>)
    returns (res: Resolution)
    ensures var es := EligibleSet(edges, vetoes, theta); Resolves(res, Tokens(nodes, es), es, prior)
  {
    var uf := new UnionFind();
    TouchAll(uf, nodes);
    var sorted := Sort(StrongerFirst, EligibleEdges(edges, vetoes, theta));
    SortedDescends(EligibleEdges(edges, vetoes, theta));
    assert EdgesOf(sorted) == EligibleSet(edges, vetoes, theta);
    var forest, picked := SpanningPass(uf, nodes, sorted);
    res := Conclude(uf, sorted, forest, picked, prior);
  }
}
