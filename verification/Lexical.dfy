/** Lexical similarity of identity tokens: word overlap for several words, bigram overlap for single ones. */
module Lexical {

  predicate Separator(c: char) {
    c == ' ' || c == '-' || c == '_' || c == '/'
  }

  /** The non-empty pieces between separators; `piece` is the one being read. */
  function Pieces(s: string, piece: string): set<string> {
    if s == "" then (if piece == "" then {} else {piece})
    else if Separator(s[0]) then (if piece == "" then {} else {piece}) + Pieces(s[1..], "")
    else Pieces(s[1..], piece + [s[0]])
  }

  type Bigram = (char, char)

  function Bigrams(s: string): (r: seq<Bigram>)
    ensures |r| == if |s| >= 2 then |s| - 1 else 0
  {
    if |s| < 2 then [] else seq(|s| - 1, i requires 0 <= i < |s| - 1 => (s[i], s[i + 1]))
  }

  function Ratio(part: int, whole: int): real {
    if whole == 0 then 0.0 else part as real / whole as real
  }

  /** Shared bigrams, as a multiset, over all of them. */
  function Dice(a: string, b: string): real {
    var x, y := Bigrams(a), Bigrams(b);
    if x == [] || y == [] then 0.0 else Ratio(2 * |multiset(x) * multiset(y)|, |x| + |y|)
  }

  function Similarity(a: string, b: string): real {
    if a == b then 1.0
    else if a == "" || b == "" then 0.0
    else
      var x, y := Pieces(a, ""), Pieces(b, "");
      if |x| > 1 || |y| > 1 then Ratio(|x * y|, |x + y|) else Dice(a, b)
  }

  function CountOf(counts: map<Bigram, nat>, g: Bigram): nat {
    if g in counts then counts[g] else 0
  }

  ghost predicate Tallied(counts: map<Bigram, nat>, x: multiset<Bigram>) {
    forall g :: CountOf(counts, g) == x[g]
  }

  /** How many bigrams of `x` are still unmatched after those of `seen`. */
  ghost predicate Unmatched(counts: map<Bigram, nat>, x: multiset<Bigram>, seen: multiset<Bigram>) {
    forall g :: CountOf(counts, g) == if x[g] > seen[g] then x[g] - seen[g] else 0
  }

  lemma MultisetNext(s: seq<Bigram>, k: nat)
    requires k < |s|
    ensures multiset(s[..k + 1]) == multiset(s[..k]) + multiset{s[k]}
  {
    assert s[..k + 1] == s[..k] + [s[k]];
  }

  lemma SharedNext(x: multiset<Bigram>, seen: multiset<Bigram>, g: Bigram)
    ensures |x * (seen + multiset{g})| == |x * seen| + if x[g] > seen[g] then 1 else 0
  {
    if x[g] > seen[g] {
      assert x * (seen + multiset{g}) == x * seen + multiset{g};
    } else {
      assert x * (seen + multiset{g}) == x * seen;
    }
  }

  lemma TalliedNext(counts: map<Bigram, nat>, x: multiset<Bigram>, g: Bigram)
    requires Tallied(counts, x)
    ensures Tallied(counts[g := CountOf(counts, g) + 1], x + multiset{g})
  {
  }

  lemma UnmatchedNext(counts: map<Bigram, nat>, x: multiset<Bigram>, seen: multiset<Bigram>, g: Bigram)
    requires Unmatched(counts, x, seen)
    ensures Unmatched(counts[g := if CountOf(counts, g) > 0 then CountOf(counts, g) - 1 else 0], x, seen + multiset{g})
    ensures CountOf(counts, g) > 0 <==> x[g] > seen[g]
  {
  }

  method CountBigrams(x: seq<Bigram>) returns (counts: map<Bigram, nat>)
    ensures Tallied(counts, multiset(x))
  {
    counts := map[];
    for k := 0 to |x|
      invariant Tallied(counts, multiset(x[..k]))
    {
      MultisetNext(x, k);
      TalliedNext(counts, multiset(x[..k]), x[k]);
      counts := counts[x[k] := CountOf(counts, x[k]) + 1];
    }
    assert x[..|x|] == x;
  }

  /** Matches each bigram of `y` against what is left of the tally. */
  method DrawDown(counts0: map<Bigram, nat>, ghost x: multiset<Bigram>, y: seq<Bigram>) returns (shared: nat)
    requires Tallied(counts0, x)
    ensures shared == |x * multiset(y)|
  {
    var counts := counts0;
    shared := 0;
    for k := 0 to |y|
      invariant Unmatched(counts, x, multiset(y[..k])) && shared == |x * multiset(y[..k])|
    {
      MultisetNext(y, k);
      SharedNext(x, multiset(y[..k]), y[k]);
      UnmatchedNext(counts, x, multiset(y[..k]), y[k]);
      var c := CountOf(counts, y[k]);
      if c > 0 {
        counts := counts[y[k] := c - 1];
        shared := shared + 1;
      } else {
        counts := counts[y[k] := 0];
      }
    }
    assert y[..|y|] == y;
  }

  /** The bigram overlap as it runs: one tally filled from `a`, drawn down by `b`. */
  method DiceBigram(a: string, b: string) returns (r: real)
    ensures r == Dice(a, b)
  {
    var x, y := Bigrams(a), Bigrams(b);
    if x == [] || y == [] {
      return 0.0;
    }
    var counts := CountBigrams(x);
    var shared := DrawDown(counts, multiset(x), y);
    r := Ratio(2 * shared, |x| + |y|);
  }

  method LexicalSimilarity(a: string, b: string) returns (r: real)
    ensures r == Similarity(a, b)
  {
    if a == b {
      return 1.0;
    }
    if a == "" || b == "" {
      return 0.0;
    }
    var x, y := Pieces(a, ""), Pieces(b, "");
    if |x| > 1 || |y| > 1 {
      return Ratio(|x * y|, |x + y|);
    }
    r := DiceBigram(a, b);
  }

  lemma RatioBounds(part: nat, whole: nat)
    requires part <= whole
    ensures 0.0 <= Ratio(part, whole) <= 1.0
  {
  }

  lemma SharedAtMost(x: multiset<Bigram>, y: multiset<Bigram>)
    ensures |x * y| <= |x|
  {
    assert x == x * y + (x - x * y);
  }

  lemma DiceProperties(a: string, b: string)
    ensures 0.0 <= Dice(a, b) <= 1.0 && Dice(a, b) == Dice(b, a)
  {
    var x, y := multiset(Bigrams(a)), multiset(Bigrams(b));
    assert x * y == y * x;
    SharedAtMost(x, y);
    SharedAtMost(y, x);
    RatioBounds(2 * |x * y|, |Bigrams(a)| + |Bigrams(b)|);
  }

  /** Similarity is symmetric, within 0 and 1, and 1 on equal tokens. */
  lemma SimilarityProperties(a: string, b: string)
    ensures 0.0 <= Similarity(a, b) <= 1.0 && Similarity(a, b) == Similarity(b, a) && (a == b ==> Similarity(a, b) == 1.0)
  {
    var x, y := Pieces(a, ""), Pieces(b, "");
    DiceProperties(a, b);
    assert x * y == y * x && x + y == y + x;
    Overlap(x, y);
    RatioBounds(|x * y|, |x + y|);
  }

  lemma Overlap(x: set<string>, y: set<string>)
    ensures |x * y| <= |x + y|
  {
    assert x + y == x * y + (x + y - x * y);
    assert |x + y| == |x * y| + |x + y - x * y|;
  }
}
