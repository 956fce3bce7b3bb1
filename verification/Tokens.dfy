/** Text as words between spaces, and rewriting it word by word with the spacing kept. */
module Tokens {
  import opened Ordering

  function Spaces(space: char -> bool, s: string): (r: string)
    ensures r <= s && (forall c | c in r :: space(c)) && (r == s || !space(s[|r|]))
  {
    if s == "" || !space(s[0]) then ""
    else
      assert s == [s[0]] + s[1..];
      [s[0]] + Spaces(space, s[1..])
  }

  function Word(space: char -> bool, s: string): (r: string)
    ensures r <= s && (forall c | c in r :: !space(c)) && (r == s || space(s[|r|]))
    ensures s != "" && !space(s[0]) ==> r != ""
  {
    if s == "" || space(s[0]) then ""
    else
      assert s == [s[0]] + s[1..];
      [s[0]] + Word(space, s[1..])
  }

  predicate StartsWith(s: string, p: string) {
    |s| >= |p| && s[..|p|] == p
  }

  predicate Contains(s: string, p: string) {
    StartsWith(s, p) || (s != "" && Contains(s[1..], p))
  }

  /** The maximal runs of non-spaces. */
  function Words(space: char -> bool, text: string): seq<string>
    decreases |text|
  {
    var rest := text[|Spaces(space, text)|..];
    if rest == "" then []
    else
      var word := Word(space, rest);
      [word] + Words(space, rest[|word|..])
  }

  lemma {:induction false} LeadingSpace(space: char -> bool, s: string)
    requires s != "" && space(s[0])
    ensures Words(space, s) == Words(space, s[1..])
  {
    var ws := Spaces(space, s[1..]);
    assert Spaces(space, s) == [s[0]] + ws;
    assert s[|ws| + 1..] == s[1..][|ws|..];
  }

  function Prepend(s: string, tail: Option<string>): Option<string> {
    match tail
    case None => None
    case Some(t) => Some(s + t)
  }

  /** The text with every word replaced by what `fix` makes of it; `None` if `fix` fails on one. */
  function Rewrite(space: char -> bool, fix: string -> Option<string>, text: string): Option<string>
    decreases |text|
  {
    var ws := Spaces(space, text);
    var rest := text[|ws|..];
    if rest == "" then Some(ws)
    else
      var word := Word(space, rest);
      var more := rest[|word|..];
      assert |more| < |text|;
      if fix(word).None? then None else Prepend(ws + fix(word).value, Rewrite(space, fix, more))
  }

  lemma PrependTwice(a: string, b: string, tail: Option<string>)
    ensures Prepend(a, Prepend(b, tail)) == Prepend(a + b, tail)
  {
    if tail.Some? {
      assert a + (b + tail.value) == (a + b) + tail.value;
    }
  }

  /** A word that stays one word. */
  ghost predicate IsWord(space: char -> bool, w: string) {
    w != "" && forall c | c in w :: !space(c)
  }

  lemma {:induction false} WordsAreWords(space: char -> bool, text: string)
    ensures forall w | w in Words(space, text) :: IsWord(space, w)
    decreases |text|
  {
    if Words(space, text) != [] {
      var word, more := NextWord(space, text);
      WordsAreWords(space, more);
      AllOfCons(space, word, Words(space, more), Words(space, text));
    }
  }

  /** The first word of a text and what follows it. */
  lemma NextWord(space: char -> bool, text: string) returns (word: string, more: string)
    requires Words(space, text) != []
    ensures IsWord(space, word) && |more| < |text| && Words(space, text) == [word] + Words(space, more)
  {
    var rest := text[|Spaces(space, text)|..];
    word := Word(space, rest);
    more := rest[|word|..];
  }

  lemma AllOfCons(space: char -> bool, word: string, more: seq<string>, all: seq<string>)
    requires all == [word] + more && IsWord(space, word) && forall w | w in more :: IsWord(space, w)
    ensures forall w | w in all :: IsWord(space, w)
  {
  }

  lemma SomeFails(fix: string -> Option<string>, word: string, more: seq<string>)
    ensures (exists w | w in [word] + more :: fix(w) == None) <==> fix(word) == None || exists w | w in more :: fix(w) == None
  {
    if w :| w in more && fix(w) == None {
      assert w in [word] + more;
    }
    assert word in [word] + more;
  }

  /** Rewriting fails exactly when `fix` fails on some word. */
  lemma {:induction false} RewriteFailsIff(space: char -> bool, fix: string -> Option<string>, text: string)
    ensures Rewrite(space, fix, text) == None <==> exists w | w in Words(space, text) :: fix(w) == None
    decreases |text|
  {
    var rest := text[|Spaces(space, text)|..];
    if rest != "" {
      var word := Word(space, rest);
      var more := rest[|word|..];
      assert |more| < |text|;
      RewriteFailsIff(space, fix, more);
      assert Words(space, text) == [word] + Words(space, more);
      SomeFails(fix, word, Words(space, more));
      assert Rewrite(space, fix, text) == None <==> fix(word) == None || Rewrite(space, fix, more) == None;
    }
  }

  lemma {:induction false} SpacesOf(space: char -> bool, ws: string, s: string)
    requires (forall c | c in ws :: space(c)) && (s == "" || !space(s[0]))
    ensures Spaces(space, ws + s) == ws
  {
    if ws == "" {
      assert ws + s == s;
    } else {
      assert (ws + s)[1..] == ws[1..] + s && ws == [ws[0]] + ws[1..];
      SpacesOf(space, ws[1..], s);
    }
  }

  lemma {:induction false} WordOf(space: char -> bool, w: string, s: string)
    requires (forall c | c in w :: !space(c)) && (s == "" || space(s[0]))
    ensures Word(space, w + s) == w
  {
    if w == "" {
      assert w + s == s;
    } else {
      assert (w + s)[1..] == w[1..] + s && w == [w[0]] + w[1..];
      WordOf(space, w[1..], s);
    }
  }

  /** Words read off spacing, one word, and a remainder that does not run into it. */
  lemma {:induction false} WordsSplit(space: char -> bool, ws: string, w: string, s: string)
    requires (forall c | c in ws :: space(c)) && IsWord(space, w) && (s == "" || space(s[0]))
    ensures Words(space, ws + w + s) == [w] + Words(space, s)
  {
    var text := ws + w + s;
    assert text == ws + (w + s);
    SpacesOf(space, ws, w + s);
    WordOf(space, w, s);
    assert text[|ws|..] == w + s && (w + s)[|w|..] == s;
  }

  /** What follows a word starts with a space, and so does its rewriting. */
  lemma {:induction false} RewriteKeepsGap(space: char -> bool, fix: string -> Option<string>, s: string)
    requires (s == "" || space(s[0])) && Rewrite(space, fix, s).Some?
    ensures var r := Rewrite(space, fix, s).value; r == "" || space(r[0])
  {
    if s == "" {
      assert Spaces(space, s) == "";
    } else {
      assert Spaces(space, s) != "";
    }
  }

  /** What rewriting makes of the words, one by one. */
  ghost predicate Fixed(fix: string -> Option<string>, before: seq<string>, after: seq<string>) {
    |before| == |after| && forall k | 0 <= k < |before| :: fix(before[k]) == Some(after[k])
  }

  lemma FixedCons(fix: string -> Option<string>, x: string, before: seq<string>, y: string, after: seq<string>)
    requires Fixed(fix, before, after) && fix(x) == Some(y)
    ensures Fixed(fix, [x] + before, [y] + after)
  {
  }

  /** Rewriting keeps the word structure: the words of the result are the rewritten words, in order. */
  lemma {:induction false} RewriteWords(space: char -> bool, fix: string -> Option<string>, text: string)
    requires Rewrite(space, fix, text).Some?
    requires forall w | IsWord(space, w) && fix(w).Some? :: IsWord(space, fix(w).value)
    ensures Fixed(fix, Words(space, text), Words(space, Rewrite(space, fix, text).value))
    decreases |text|
  {
    var ws := Spaces(space, text);
    var rest := text[|ws|..];
    if rest == "" {
      assert ws + "" == ws;
      SpacesOf(space, ws, "");
      assert ws[|ws|..] == "";
    } else {
      var word := Word(space, rest);
      var more := rest[|word|..];
      var tail, fixed := Rewrite(space, fix, more).value, fix(word).value;
      assert IsWord(space, word);
      RewriteWords(space, fix, more);
      RewriteKeepsGap(space, fix, more);
      WordsSplit(space, ws, fixed, tail);
      FixedCons(fix, word, Words(space, more), fixed, Words(space, tail));
    }
  }

  /** A text without the characters in `drop`. */
  function Erase(s: string, drop: string): string {
    if s == "" then "" else (if s[0] in drop then "" else [s[0]]) + Erase(s[1..], drop)
  }

  lemma {:induction false} EraseAppend(a: string, b: string, drop: string)
    ensures Erase(a + b, drop) == Erase(a, drop) + Erase(b, drop)
  {
    if a == "" {
      assert a + b == b;
    } else {
      assert (a + b)[1..] == a[1..] + b;
      EraseAppend(a[1..], b, drop);
    }
  }

  lemma {:induction false} FirstWord(space: char -> bool, text: string, ws: string, word: string, more: string)
    requires ws == Spaces(space, text) && text[|ws|..] != ""
    requires word == Word(space, text[|ws|..]) && more == text[|ws|..][|word|..]
    ensures |more| < |text| && text == ws + (word + more)
  {
    SplitAfter(text, ws);
    SplitAfter(text[|ws|..], word);
    assert word != "";
  }

  lemma SplitAfter(s: string, front: string)
    requires front <= s
    ensures s == front + s[|front|..]
  {
  }

  lemma {:induction false} RewriteStep(space: char -> bool, fix: string -> Option<string>, text: string, ws: string, word: string, more: string)
    requires Rewrite(space, fix, text).Some? && ws == Spaces(space, text) && text[|ws|..] != ""
    requires word == Word(space, text[|ws|..]) && more == text[|ws|..][|word|..]
    ensures fix(word).Some? && Rewrite(space, fix, more).Some?
    ensures Rewrite(space, fix, text).value == ws + fix(word).value + Rewrite(space, fix, more).value
  {
  }

  /** If `fix` only adds or removes characters in `drop`, so does rewriting. */
  lemma {:induction false} RewriteErases(space: char -> bool, fix: string -> Option<string>, text: string, drop: string)
    requires Rewrite(space, fix, text).Some?
    requires forall w | fix(w).Some? :: Erase(fix(w).value, drop) == Erase(w, drop)
    ensures Erase(Rewrite(space, fix, text).value, drop) == Erase(text, drop)
    decreases |text|
  {
    var ws := Spaces(space, text);
    if text[|ws|..] == "" {
      assert ws == text && ws + "" == ws;
    } else {
      var word := Word(space, text[|ws|..]);
      var more := text[|ws|..][|word|..];
      FirstWord(space, text, ws, word, more);
      RewriteStep(space, fix, text, ws, word, more);
      RewriteErases(space, fix, more, drop);
      EraseWord(ws, word, more, fix(word).value, Rewrite(space, fix, more).value, drop);
      EraseAppend(ws, word + more, drop);
    }
  }

  lemma {:induction false} EraseWord(ws: string, word: string, more: string, fixed: string, tail: string, drop: string)
    requires Erase(fixed, drop) == Erase(word, drop) && Erase(tail, drop) == Erase(more, drop)
    ensures Erase(ws + fixed + tail, drop) == Erase(ws, drop) + Erase(word + more, drop)
  {
    EraseAppend(word, more, drop);
    EraseAppend(ws + fixed, tail, drop);
    EraseAppend(ws, fixed, drop);
    Regroup(Erase(ws, drop), Erase(word, drop), Erase(more, drop));
  }

  lemma Regroup(a: string, b: string, c: string)
    ensures (a + b) + c == a + (b + c)
  {
  }

  /** The rewriting loop: spacing copied, each word replaced, until the rest runs out. */
  method RewriteLoop(space: char -> bool, fix: string -> Option<string>, text: string) returns (out: Option<string>)
    ensures out == Rewrite(space, fix, text)
  {
    var done, rest := "", text;
    PrependNothing(Rewrite(space, fix, text));
    while rest != ""
      invariant Rewrite(space, fix, text) == Prepend(done, Rewrite(space, fix, rest))
      decreases |rest|
    {
      var ws := Spaces(space, rest);
      var after := rest[|ws|..];
      if after == "" {
        return Some(done + ws);
      }
      var word := Word(space, after);
      var fixed := fix(word);
      if fixed == None {
        return None;
      }
      PrependTwice(done, ws + fixed.value, Rewrite(space, fix, after[|word|..]));
      done, rest := done + (ws + fixed.value), after[|word|..];
    }
    assert done + "" == done;
    out := Some(done);
  }

  lemma PrependNothing(tail: Option<string>)
    ensures Prepend("", tail) == tail
  {
    if tail.Some? {
      assert "" + tail.value == tail.value;
    }
  }
}
