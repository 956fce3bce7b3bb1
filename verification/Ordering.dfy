/** Shared vocabulary: optional values, comparison-based stable sorting, and the order of strings. */
module Ordering {

  datatype Option<+T> = None | Some(value: T)

  ghost predicate Total<T(!new)>(le: (T, T) -> bool) {
    && (forall x, y :: le(x, y) || le(y, x))
    && (forall x, y, z :: le(x, y) && le(y, z) ==> le(x, z))
  }

  ghost predicate Antisymmetric<T(!new)>(le: (T, T) -> bool) {
    forall x, y :: le(x, y) && le(y, x) ==> x == y
  }

  ghost predicate Sorted<T(!new)>(le: (T, T) -> bool, s: seq<T>) {
    forall i, j | 0 <= i < j < |s| :: le(s[i], s[j])
  }

  ghost predicate Distinct<T(!new)>(s: seq<T>) {
    forall i, j | 0 <= i < j < |s| :: s[i] != s[j]
  }

  // ── A stable insertion sort: the meaning of the library's `sort_by` ──

  function Insert<T>(le: (T, T) -> bool, x: T, s: seq<T>): (r: seq<T>)
    ensures multiset(r) == multiset{x} + multiset(s)
    ensures |r| == |s| + 1
  {
    if s == [] || le(x, s[0]) then
      [x] + s
    else
      assert s == [s[0]] + s[1..];
      [s[0]] + Insert(le, x, s[1..])
  }

  function Sort<T>(le: (T, T) -> bool, s: seq<T>): (r: seq<T>)
    ensures multiset(r) == multiset(s)
    ensures |r| == |s|
  {
    if s == [] then
      []
    else
      assert s == [s[0]] + s[1..];
      Insert(le, s[0], Sort(le, s[1..]))
  }

  lemma PermutedMembers<T(!new)>(a: seq<T>, b: seq<T>)
    requires multiset(a) == multiset(b)
    ensures |a| == |b|
    ensures forall x :: x in a <==> x in b
  {
    assert |a| == |multiset(a)| && |b| == |multiset(b)|;
    forall x ensures x in a <==> x in b {
      assert x in a <==> x in multiset(a);
      assert x in b <==> x in multiset(b);
    }
  }

  lemma {:induction false} InsertSorted<T(!new)>(le: (T, T) -> bool, x: T, s: seq<T>)
    requires Total(le) && Sorted(le, s)
    ensures Sorted(le, Insert(le, x, s))
  {
    if s == [] || le(x, s[0]) {
      forall i | 0 <= i < |s| ensures le(x, s[i]) {
        if i > 0 { assert le(s[0], s[i]); }
      }
    } else {
      var rest := Insert(le, x, s[1..]);
      InsertSorted(le, x, s[1..]);
      forall i | 0 <= i < |rest| ensures le(s[0], rest[i]) {
        assert rest[i] in multiset(rest);
        assert rest[i] == x || rest[i] in s[1..];
      }
    }
  }

  lemma {:induction false} SortSorted<T(!new)>(le: (T, T) -> bool, s: seq<T>)
    requires Total(le)
    ensures Sorted(le, Sort(le, s))
  {
    if s != [] {
      SortSorted(le, s[1..]);
      InsertSorted(le, s[0], Sort(le, s[1..]));
    }
  }

  lemma {:induction false} SortMembers<T(!new)>(le: (T, T) -> bool, s: seq<T>)
    ensures |Sort(le, s)| == |s|
    ensures forall x :: x in Sort(le, s) <==> x in s
  {
    PermutedMembers(Sort(le, s), s);
  }

  /** The order tells the elements of `s` apart. */
  ghost predicate Separates<T(!new)>(le: (T, T) -> bool, s: seq<T>) {
    forall x, y | x in s && y in s && le(x, y) && le(y, x) :: x == y
  }

  lemma SortedLeast<T(!new)>(le: (T, T) -> bool, s: seq<T>, x: T)
    requires Total(le) && Sorted(le, s) && x in s
    ensures le(s[0], x)
  {
    var i :| 0 <= i < |s| && s[i] == x;
  }

  lemma SameTails<T>(a: seq<T>, b: seq<T>)
    requires a != [] && b != [] && a[0] == b[0] && multiset(a) == multiset(b)
    ensures multiset(a[1..]) == multiset(b[1..])
    ensures a == [a[0]] + a[1..] && b == [b[0]] + b[1..]
  {
    assert a == [a[0]] + a[1..] && b == [b[0]] + b[1..];
    assert multiset(a[1..]) == multiset(a) - multiset{a[0]};
    assert multiset(b[1..]) == multiset(b) - multiset{b[0]};
  }

  /** A multiset has one ordered listing when the order is antisymmetric on its elements. */
  lemma {:induction false} SortedUnique<T(!new)>(le: (T, T) -> bool, a: seq<T>, b: seq<T>)
    requires Total(le) && Sorted(le, a) && Sorted(le, b)
    requires Separates(le, a)
    requires multiset(a) == multiset(b)
    ensures a == b
  {
    PermutedMembers(a, b);
    if a != [] {
      assert b[0] in a && a[0] in b;
      SortedLeast(le, a, b[0]);
      SortedLeast(le, b, a[0]);
      SameTails(a, b);
      SortedUnique(le, a[1..], b[1..]);
    }
  }

  /** Sorting erases the input order: permutations sort alike when the order separates the elements. */
  lemma {:induction false} SortPermuted<T(!new)>(le: (T, T) -> bool, a: seq<T>, b: seq<T>)
    requires Total(le) && multiset(a) == multiset(b)
    requires Separates(le, a)
    ensures Sort(le, a) == Sort(le, b)
  {
    SortSorted(le, a);
    SortSorted(le, b);
    SortMembers(le, a);
    SortedUnique(le, Sort(le, a), Sort(le, b));
  }

  // ── Filtering ──

  function Filter<T(!new)>(p: T -> bool, s: seq<T>): (r: seq<T>)
    ensures forall x :: x in r <==> x in s && p(x)
  {
    if s == [] then []
    else
      assert s == [s[0]] + s[1..];
      (if p(s[0]) then [s[0]] else []) + Filter(p, s[1..])
  }

  lemma {:induction false} FilterNone<T(!new)>(p: T -> bool, s: seq<T>)
    requires forall x | x in s :: !p(x)
    ensures Filter(p, s) == []
  {
    if s != [] {
      assert s[0] in s && forall x | x in s[1..] :: x in s;
      FilterNone(p, s[1..]);
    }
  }

  lemma {:induction false} FilterAppend<T(!new)>(p: T -> bool, s: seq<T>, t: seq<T>)
    ensures Filter(p, s + t) == Filter(p, s) + Filter(p, t)
  {
    if s == [] {
      assert s + t == t;
    } else {
      assert (s + t)[1..] == s[1..] + t;
      FilterAppend(p, s[1..], t);
    }
  }

  lemma {:induction false} FilterCons<T(!new)>(p: T -> bool, x: T, s: seq<T>)
    ensures Filter(p, [x] + s) == if p(x) then [x] + Filter(p, s) else Filter(p, s)
  {
    assert ([x] + s)[1..] == s;
  }

  lemma {:induction false} FilterAll<T(!new)>(p: T -> bool, s: seq<T>)
    requires forall x | x in s :: p(x)
    ensures Filter(p, s) == s
  {
    if s != [] {
      assert s == [s[0]] + s[1..] && s[0] in s && forall x | x in s[1..] :: x in s;
      FilterAll(p, s[1..]);
      FilterCons(p, s[0], s[1..]);
    }
  }

  lemma {:induction false} InsertCons<T>(le: (T, T) -> bool, x: T, y: T, s: seq<T>)
    ensures Insert(le, x, [y] + s) == if le(x, y) then [x, y] + s else [y] + Insert(le, x, s)
  {
    assert ([y] + s)[1..] == s;
  }

  /** Dropping elements from an ordered list does not move the place of another. */
  lemma {:induction false} InsertFiltered<T(!new)>(le: (T, T) -> bool, p: T -> bool, x: T, s: seq<T>)
    requires Total(le) && Sorted(le, s)
    ensures Filter(p, Insert(le, x, s)) == if p(x) then Insert(le, x, Filter(p, s)) else Filter(p, s)
  {
    if s == [] || le(x, s[0]) {
      FilterCons(p, x, s);
      InsertFirst(le, p, x, s);
    } else {
      var rest := s[1..];
      assert s == [s[0]] + rest;
      InsertFiltered(le, p, x, rest);
      FilterCons(p, s[0], Insert(le, x, rest));
      FilterCons(p, s[0], rest);
      InsertCons(le, x, s[0], Filter(p, rest));
    }
  }

  lemma {:induction false} InsertFirst<T(!new)>(le: (T, T) -> bool, p: T -> bool, x: T, s: seq<T>)
    requires Total(le) && Sorted(le, s) && (s == [] || le(x, s[0]))
    ensures Insert(le, x, Filter(p, s)) == [x] + Filter(p, s)
  {
    var kept := Filter(p, s);
    if kept != [] {
      assert kept[0] in kept && kept[0] in s;
      SortedLeast(le, s, kept[0]);
    }
  }

  lemma {:induction false} SortCons<T>(le: (T, T) -> bool, x: T, s: seq<T>)
    ensures Sort(le, [x] + s) == Insert(le, x, Sort(le, s))
  {
    assert ([x] + s)[1..] == s;
  }

  /** A stable sort of what passes is what passes of the sort. */
  lemma {:induction false} SortFiltered<T(!new)>(le: (T, T) -> bool, p: T -> bool, s: seq<T>)
    requires Total(le)
    ensures Filter(p, Sort(le, s)) == Sort(le, Filter(p, s))
  {
    if s != [] {
      var x, rest := s[0], s[1..];
      assert s == [x] + rest;
      SortFiltered(le, p, rest);
      SortSorted(le, rest);
      SortCons(le, x, rest);
      FilterCons(p, x, rest);
      SortCons(le, x, Filter(p, rest));
      InsertFiltered(le, p, x, Sort(le, rest));
    }
  }

  lemma {:induction false} FilterCommutes<T(!new)>(p: T -> bool, q: T -> bool, s: seq<T>)
    ensures Filter(p, Filter(q, s)) == Filter(q, Filter(p, s))
  {
    if s != [] {
      var x, rest := s[0], s[1..];
      assert s == [x] + rest;
      FilterCommutes(p, q, rest);
      FilterCons(p, x, rest);
      FilterCons(q, x, rest);
      FilterCons(p, x, Filter(q, rest));
      FilterCons(q, x, Filter(p, rest));
    }
  }

  lemma {:induction false} FilterAgrees<T(!new)>(p: T -> bool, q: T -> bool, s: seq<T>)
    requires forall x | x in s :: p(x) <==> q(x)
    ensures Filter(p, s) == Filter(q, s)
  {
    if s != [] {
      assert s[0] in s && forall x | x in s[1..] :: x in s;
      FilterAgrees(p, q, s[1..]);
    }
  }

  /** Duplicate-free listings of the same elements are permutations of each other. */
  lemma DistinctPermuted<T(!new)>(a: seq<T>, b: seq<T>)
    requires Distinct(a) && Distinct(b)
    requires forall x :: x in a <==> x in b
    ensures multiset(a) == multiset(b)
  {
    forall x ensures multiset(a)[x] == multiset(b)[x] {
      DistinctCount(a, x);
      DistinctCount(b, x);
    }
  }

  lemma {:induction false} DistinctCount<T(!new)>(s: seq<T>, x: T)
    requires Distinct(s)
    ensures multiset(s)[x] == if x in s then 1 else 0
  {
    if s != [] {
      assert s == [s[0]] + s[1..];
      DistinctCount(s[1..], x);
    }
  }

  lemma RepeatedCount<T>(s: seq<T>, i: nat, j: nat)
    requires i < j < |s| && s[i] == s[j]
    ensures multiset(s)[s[i]] >= 2
  {
    assert s == s[..j] + s[j..];
    assert s[..j][i] == s[i] && s[j..][0] == s[i];
    assert s[i] in multiset(s[..j]) && s[i] in multiset(s[j..]);
  }

  lemma DistinctFromMultiset<T(!new)>(a: seq<T>, b: seq<T>)
    requires Distinct(a) && multiset(a) == multiset(b)
    ensures Distinct(b)
  {
    forall i, j | 0 <= i < j < |b| ensures b[i] != b[j] {
      DistinctCount(a, b[i]);
      if b[i] == b[j] {
        RepeatedCount(b, i, j);
      }
    }
  }

  // ── Strings compare by their first differing character ──

  predicate StringLe(a: string, b: string) {
    a == [] || (b != [] && (a[0] < b[0] || (a[0] == b[0] && StringLe(a[1..], b[1..]))))
  }

  lemma {:induction false} StringLeTotal(a: string, b: string)
    ensures StringLe(a, b) || StringLe(b, a)
    ensures StringLe(a, b) && StringLe(b, a) ==> a == b
  {
    if a != [] && b != [] && a[0] == b[0] {
      StringLeTotal(a[1..], b[1..]);
      assert a == [a[0]] + a[1..] && b == [b[0]] + b[1..];
    }
  }

  lemma {:induction false} StringLeTransitive(a: string, b: string, c: string)
    requires StringLe(a, b) && StringLe(b, c)
    ensures StringLe(a, c)
  {
    if a != [] && a[0] == b[0] && b[0] == c[0] {
      StringLeTransitive(a[1..], b[1..], c[1..]);
    }
  }

  lemma StringOrder()
    ensures Total(StringLe) && Antisymmetric(StringLe)
  {
    forall x, y ensures (StringLe(x, y) || StringLe(y, x)) && (StringLe(x, y) && StringLe(y, x) ==> x == y) {
      StringLeTotal(x, y);
    }
    forall x, y, z | StringLe(x, y) && StringLe(y, z) ensures StringLe(x, z) {
      StringLeTransitive(x, y, z);
    }
  }

  // ── Ordered sets: a strictly ascending listing, as a B-tree iterates its keys ──

  ghost predicate Ascending<T(!new)>(le: (T, T) -> bool, s: seq<T>) {
    Sorted(le, s) && Distinct(s)
  }

  lemma AscendingUnique<T(!new)>(le: (T, T) -> bool, a: seq<T>, b: seq<T>)
    requires Total(le) && Antisymmetric(le) && Ascending(le, a) && Ascending(le, b)
    requires forall x :: x in a <==> x in b
    ensures a == b
  {
    DistinctPermuted(a, b);
    SortedUnique(le, a, b);
  }

  /** Adds a key to an ordered set, leaving it unchanged when present. */
  function AddKey<T(==,!new)>(le: (T, T) -> bool, x: T, s: seq<T>): (r: seq<T>)
    ensures forall y :: y in r <==> y == x || y in s
  {
    if x in s then s
    else
      var r := Insert(le, x, s);
      assert forall y :: y in r <==> y in multiset(r);
      assert forall y :: y in s <==> y in multiset(s);
      r
  }

  lemma AddKeyAscending<T(!new)>(le: (T, T) -> bool, x: T, s: seq<T>)
    requires Total(le) && Ascending(le, s)
    ensures Ascending(le, AddKey(le, x, s))
  {
    if x !in s {
      InsertSorted(le, x, s);
      assert Distinct([x] + s);
      assert multiset([x] + s) == multiset(Insert(le, x, s));
      DistinctFromMultiset([x] + s, Insert(le, x, s));
    }
  }

  /** The ordered set of the elements of a sequence: sort, then drop repeats. */
  function Keys<T(==,!new)>(le: (T, T) -> bool, s: seq<T>): (r: seq<T>)
    ensures forall y :: y in r <==> y in s
  {
    if s == [] then [] else
      assert s == [s[0]] + s[1..];
      AddKey(le, s[0], Keys(le, s[1..]))
  }

  lemma {:induction false} KeysAscending<T(!new)>(le: (T, T) -> bool, s: seq<T>)
    requires Total(le)
    ensures Ascending(le, Keys(le, s))
  {
    if s != [] {
      KeysAscending(le, s[1..]);
      AddKeyAscending(le, s[0], Keys(le, s[1..]));
    }
  }
}
