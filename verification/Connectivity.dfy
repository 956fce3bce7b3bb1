/** Undirected connectivity: paths as the reference definition, and a partition as its canonical labelling. */
module Connectivity {

  ghost predicate Adjacent<T>(es: set<(T, T)>, a: T, b: T) {
    (a, b) in es || (b, a) in es
  }

  ghost predicate IsPath<T>(es: set<(T, T)>, p: seq<T>) {
    |p| > 0 && forall k | 0 <= k < |p| - 1 :: Adjacent(es, p[k], p[k + 1])
  }

  ghost predicate Joins<T>(es: set<(T, T)>, p: seq<T>, a: T, b: T) {
    IsPath(es, p) && p[0] == a && p[|p| - 1] == b
  }

  ghost predicate Connected<T(!new)>(es: set<(T, T)>, a: T, b: T) {
    exists p :: Joins(es, p, a, b)
  }

  lemma ConnectedReflexive<T(!new)>(es: set<(T, T)>, a: T)
    ensures Connected(es, a, a)
  {
    assert Joins(es, [a], a, a);
  }

  lemma ConnectedStep<T(!new)>(es: set<(T, T)>, a: T, b: T)
    requires Adjacent(es, a, b)
    ensures Connected(es, a, b)
  {
    assert Joins(es, [a, b], a, b);
  }

  lemma ConnectedSymmetric<T(!new)>(es: set<(T, T)>, a: T, b: T)
    requires Connected(es, a, b)
    ensures Connected(es, b, a)
  {
    var p :| Joins(es, p, a, b);
    var q := seq(|p|, i requires 0 <= i < |p| => p[|p| - 1 - i]);
    forall k | 0 <= k < |q| - 1 ensures Adjacent(es, q[k], q[k + 1]) {
      assert Adjacent(es, p[|p| - 2 - k], p[|p| - 2 - k + 1]);
    }
    assert Joins(es, q, b, a);
  }

  lemma ConnectedTransitive<T(!new)>(es: set<(T, T)>, a: T, b: T, c: T)
    requires Connected(es, a, b) && Connected(es, b, c)
    ensures Connected(es, a, c)
  {
    var p :| Joins(es, p, a, b);
    var q :| Joins(es, q, b, c);
    var r := p + q[1..];
    forall k | 0 <= k < |r| - 1 ensures Adjacent(es, r[k], r[k + 1]) {
      if k >= |p| - 1 {
        assert r[k] == q[k - |p| + 1] && r[k + 1] == q[k - |p| + 1 + 1];
      }
    }
    assert Joins(es, r, a, c);
  }

  lemma ConnectedMonotone<T(!new)>(small: set<(T, T)>, big: set<(T, T)>, a: T, b: T)
    requires small <= big && Connected(small, a, b)
    ensures Connected(big, a, b)
  {
    var p :| Joins(small, p, a, b);
    assert Joins(big, p, a, b) by {
      forall k | 0 <= k < |p| - 1 ensures Adjacent(big, p[k], p[k + 1]) {
        assert Adjacent(small, p[k], p[k + 1]);
      }
    }
  }

  /** A property carried across every edge holds all along a path. */
  lemma ConnectedCarries<T(!new)>(es: set<(T, T)>, holds: T -> bool, a: T, b: T)
    requires Connected(es, a, b) && holds(a)
    requires forall u, v | Adjacent(es, u, v) && holds(u) :: holds(v)
    ensures holds(b)
  {
    var p :| Joins(es, p, a, b);
    var k := 0;
    while k < |p| - 1
      invariant 0 <= k <= |p| - 1 && holds(p[k])
    {
      assert Adjacent(es, p[k], p[k + 1]);
      k := k + 1;
    }
  }

  /** An edge whose ends are already connected changes nothing; otherwise it merges exactly two classes. */
  lemma ConnectedAdd<T(!new)>(es: set<(T, T)>, a: T, b: T, u: T, v: T)
    ensures Connected(es + {(a, b)}, u, v)
      <==> Connected(es, u, v) || (Connected(es, u, a) && Connected(es, b, v))
                               || (Connected(es, u, b) && Connected(es, a, v))
  {
    var big := es + {(a, b)};
    if Connected(big, u, v) {
      var reach := w => Connected(es, u, w) || (Connected(es, u, a) && Connected(es, b, w))
                                          || (Connected(es, u, b) && Connected(es, a, w));
      ConnectedReflexive(es, u);
      forall x, y | Adjacent(big, x, y) && reach(x) ensures reach(y) {
        if Adjacent(es, x, y) {
          ConnectedStep(es, x, y);
          ReachStep(es, u, a, b, x, y);
        } else {
          ConnectedReflexive(es, y);
          ReachCross(es, u, a, b, x, y);
        }
      }
      ConnectedCarries(big, reach, u, v);
    }
    ConnectedStep(big, a, b);
    ConnectedStep(big, b, a);
    if Connected(es, u, v) {
      ConnectedMonotone(es, big, u, v);
    }
    if Connected(es, u, a) && Connected(es, b, v) {
      Detour(es, big, u, a, b, v);
    }
    if Connected(es, u, b) && Connected(es, a, v) {
      Detour(es, big, u, b, a, v);
    }
  }

  ghost predicate ReachVia<T(!new)>(es: set<(T, T)>, u: T, a: T, b: T, w: T) {
    Connected(es, u, w) || (Connected(es, u, a) && Connected(es, b, w)) || (Connected(es, u, b) && Connected(es, a, w))
  }

  lemma ReachStep<T(!new)>(es: set<(T, T)>, u: T, a: T, b: T, x: T, y: T)
    requires Connected(es, x, y) && ReachVia(es, u, a, b, x)
    ensures ReachVia(es, u, a, b, y)
  {
    if Connected(es, u, x) {
      ConnectedTransitive(es, u, x, y);
    } else if Connected(es, u, a) && Connected(es, b, x) {
      ConnectedTransitive(es, b, x, y);
    } else {
      ConnectedTransitive(es, a, x, y);
    }
  }

  lemma ReachCross<T(!new)>(es: set<(T, T)>, u: T, a: T, b: T, x: T, y: T)
    requires (x == a && y == b) || (x == b && y == a)
    requires ReachVia(es, u, a, b, x) && Connected(es, y, y)
    ensures ReachVia(es, u, a, b, y)
  {
  }

  lemma Detour<T(!new)>(es: set<(T, T)>, big: set<(T, T)>, u: T, a: T, b: T, v: T)
    requires es <= big && Connected(es, u, a) && Connected(big, a, b) && Connected(es, b, v)
    ensures Connected(big, u, v)
  {
    ConnectedMonotone(es, big, u, a);
    ConnectedMonotone(es, big, b, v);
    ConnectedTransitive(big, u, a, b);
    ConnectedTransitive(big, u, b, v);
  }

  // ── Partitions of 0..n, as the labelling of each index by the least member of its class ──

  ghost predicate Canonical(lab: seq<nat>) {
    && (forall i | 0 <= i < |lab| :: lab[i] <= i)
    && (forall i {:trigger lab[lab[i]]} | 0 <= i < |lab| :: lab[lab[i]] == lab[i])
  }

  /** Every two indices together in `fine` are together in `coarse`. */
  ghost predicate Refines(fine: seq<nat>, coarse: seq<nat>) {
    && |fine| == |coarse|
    && forall i, j | 0 <= i < |fine| && 0 <= j < |fine| && fine[i] == fine[j] :: coarse[i] == coarse[j]
  }

  lemma CanonicalUnique(a: seq<nat>, b: seq<nat>)
    requires Canonical(a) && Canonical(b) && Refines(a, b) && Refines(b, a)
    ensures a == b
  {
    forall i | 0 <= i < |a| ensures a[i] == b[i] {
      assert a[a[i]] == a[i] && b[b[i]] == b[i];
      assert b[a[i]] == b[i] && a[b[i]] == a[i];
      assert b[a[i]] <= a[i] && a[b[i]] <= b[i];
    }
  }

  function Singletons(n: nat): (lab: seq<nat>)
    ensures |lab| == n && forall i | 0 <= i < n :: lab[i] == i
  {
    seq(n, i => i)
  }

  /** Merges the classes of `x` and `y`. */
  function Join(lab: seq<nat>, x: nat, y: nat): (r: seq<nat>)
    requires x < |lab| && y < |lab|
    ensures |r| == |lab|
  {
    var least := if lab[x] <= lab[y] then lab[x] else lab[y];
    seq(|lab|, i requires 0 <= i < |lab| => if lab[i] == lab[x] || lab[i] == lab[y] then least else lab[i])
  }

  lemma JoinMerges(lab: seq<nat>, x: nat, y: nat)
    requires Canonical(lab) && x < |lab| && y < |lab|
    ensures var r := Join(lab, x, y);
      && Canonical(r)
      && Refines(lab, r)
      && forall i, j | 0 <= i < |lab| && 0 <= j < |lab| ::
           r[i] == r[j] <==> lab[i] == lab[j] || (lab[i] == lab[x] && lab[j] == lab[y]) || (lab[i] == lab[y] && lab[j] == lab[x])
  {
  }

  /** The partition after joining the ends of each edge in turn. */
  function Labels(n: nat, es: seq<(nat, nat)>): (lab: seq<nat>)
    requires forall e | e in es :: e.0 < n && e.1 < n
    ensures |lab| == n
  {
    if es == [] then Singletons(n)
    else
      var last := es[|es| - 1];
      Join(Labels(n, es[..|es| - 1]), last.0, last.1)
  }

  ghost function EdgeSet<T>(es: seq<(T, T)>): set<(T, T)> {
    set e | e in es
  }

  lemma {:induction false} LabelsCanonical(n: nat, es: seq<(nat, nat)>)
    requires forall e | e in es :: e.0 < n && e.1 < n
    ensures Canonical(Labels(n, es))
  {
    if es != [] {
      var last := es[|es| - 1];
      assert last in es;
      LabelsCanonical(n, es[..|es| - 1]);
      JoinMerges(Labels(n, es[..|es| - 1]), last.0, last.1);
    }
  }

  /** The labelling is connectivity: equal labels exactly when a path of the edges joins the two. */
  lemma {:induction false} LabelsConnect(n: nat, es: seq<(nat, nat)>, u: nat, v: nat)
    requires forall e | e in es :: e.0 < n && e.1 < n
    requires u < n && v < n
    ensures Labels(n, es)[u] == Labels(n, es)[v] <==> Connected(EdgeSet(es), u, v)
  {
    if es == [] {
      ConnectedReflexive(EdgeSet(es), u);
      if Connected(EdgeSet(es), u, v) {
        ConnectedCarries(EdgeSet(es), w => w == u, u, v);
      }
    } else {
      var rest, last := es[..|es| - 1], es[|es| - 1];
      assert last in es;
      assert EdgeSet(es) == EdgeSet(rest) + {(last.0, last.1)} by {
        assert es == rest + [last];
      }
      LabelsCanonical(n, rest);
      JoinMerges(Labels(n, rest), last.0, last.1);
      ConnectedAdd(EdgeSet(rest), last.0, last.1, u, v);
      LabelsConnect(n, rest, u, v);
      LabelsConnect(n, rest, u, last.0);
      LabelsConnect(n, rest, last.1, v);
      LabelsConnect(n, rest, u, last.1);
      LabelsConnect(n, rest, last.0, v);
    }
  }

  /** The partition is the finest one its edges respect. */
  lemma {:induction false} LabelsFinest(n: nat, es: seq<(nat, nat)>, f: seq<nat>)
    requires |f| == n && forall e | e in es :: e.0 < n && e.1 < n && f[e.0] == f[e.1]
    ensures Refines(Labels(n, es), f)
  {
    if es != [] {
      var rest, last := es[..|es| - 1], es[|es| - 1];
      assert last in es;
      LabelsFinest(n, rest, f);
      LabelsCanonical(n, rest);
      JoinMerges(Labels(n, rest), last.0, last.1);
    }
  }

  lemma {:induction false} LabelsRespect(n: nat, es: seq<(nat, nat)>, e: (nat, nat))
    requires forall e | e in es :: e.0 < n && e.1 < n
    requires e in es
    ensures Labels(n, es)[e.0] == Labels(n, es)[e.1]
  {
    ConnectedStep(EdgeSet(es), e.0, e.1);
    LabelsConnect(n, es, e.0, e.1);
  }
}
