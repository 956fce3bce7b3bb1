/** Integer sums over sequences, insensitive to order. */
module Sums {
  import opened Ordering

  function Sum<T>(f: T -> int, s: seq<T>): int {
    if s == [] then 0 else f(s[0]) + Sum(f, s[1..])
  }

  lemma {:induction false} SumAppend<T>(f: T -> int, a: seq<T>, b: seq<T>)
    ensures Sum(f, a + b) == Sum(f, a) + Sum(f, b)
  {
    if a == [] {
      assert a + b == b;
    } else {
      assert (a + b)[1..] == a[1..] + b;
      SumAppend(f, a[1..], b);
    }
  }

  lemma SumOne<T>(f: T -> int, x: T)
    ensures Sum(f, [x]) == f(x)
  {
  }

  function Without<T>(s: seq<T>, k: nat): seq<T>
    requires k < |s|
  {
    s[..k] + s[k + 1..]
  }

  lemma {:induction false} SumWithout<T>(f: T -> int, s: seq<T>, k: nat)
    requires k < |s|
    ensures Sum(f, s) == f(s[k]) + Sum(f, Without(s, k))
  {
    assert s == s[..k] + ([s[k]] + s[k + 1..]);
    SumAppend(f, s[..k], [s[k]] + s[k + 1..]);
    SumAppend(f, s[..k], s[k + 1..]);
  }

  lemma WithoutMultiset<T>(s: seq<T>, k: nat)
    requires k < |s|
    ensures multiset(Without(s, k)) == multiset(s) - multiset{s[k]}
  {
    assert s == s[..k] + [s[k]] + s[k + 1..];
  }

  lemma {:induction false} SumPermuted<T(!new)>(f: T -> int, a: seq<T>, b: seq<T>)
    requires multiset(a) == multiset(b)
    ensures Sum(f, a) == Sum(f, b)
  {
    PermutedMembers(a, b);
    if a != [] {
      assert a[0] in b;
      var k :| 0 <= k < |b| && b[k] == a[0];
      WithoutMultiset(a, 0);
      WithoutMultiset(b, k);
      SumPermuted(f, Without(a, 0), Without(b, k));
      SumWithout(f, a, 0);
      SumWithout(f, b, k);
    }
  }

  lemma {:induction false} SumMatches<S, T>(f: S -> int, g: T -> int, a: seq<S>, b: seq<T>)
    requires |a| == |b| && forall k | 0 <= k < |a| :: f(a[k]) == g(b[k])
    ensures Sum(f, a) == Sum(g, b)
  {
    if a != [] {
      SumMatches(f, g, a[1..], b[1..]);
    }
  }

  function Indices(n: nat): (r: seq<nat>)
    ensures |r| == n && forall i | 0 <= i < n :: r[i] == i
  {
    seq(n, i => i)
  }

  lemma SumIndicesNext(f: nat -> int, n: nat)
    ensures Sum(f, Indices(n + 1)) == Sum(f, Indices(n)) + f(n)
  {
    assert Indices(n + 1) == Indices(n) + [n];
    SumAppend(f, Indices(n), [n]);
    SumOne(f, n);
  }
}
