/** The whole-word lemma: a value grounds exactly when its words are consecutive words of the title or of the body. */
module GroundingLaws {
  import opened Ordering
  import opened Tokens
  import opened Grounding

  /** A word as normalization writes it. */
  ghost predicate Plain(w: string) {
    w != "" && NoSpace(w)
  }

  ghost predicate AllPlain(ws: seq<string>) {
    forall w | w in ws :: Plain(w)
  }

  // ── Containment of padded words ──

  /** Each word after a space, and a space at the end. */
  function Pad(ws: seq<string>): string {
    if ws == [] then " " else " " + ws[0] + Pad(ws[1..])
  }

  predicate IsPrefix(b: seq<string>, a: seq<string>) {
    b <= a
  }

  /** Scanned from the left: the words `b` start `a` or stand later in it. */
  predicate Within(b: seq<string>, a: seq<string>) {
    IsPrefix(b, a) || (a != [] && Within(b, a[1..]))
  }

  ghost predicate StandsAt(b: seq<string>, a: seq<string>, i: nat) {
    i + |b| <= |a| && a[i..i + |b|] == b
  }

  /** The words `b` are consecutive words of `a`. */
  ghost predicate StandsIn(b: seq<string>, a: seq<string>) {
    exists i: nat :: StandsAt(b, a, i)
  }

  lemma {:induction false} WithinMeaning(b: seq<string>, a: seq<string>)
    ensures Within(b, a) <==> StandsIn(b, a)
  {
    StandsFirst(b, a);
    if a != [] {
      WithinMeaning(b, a[1..]);
      if i: nat :| StandsAt(b, a[1..], i) {
        StandsLater(b, a, i);
        assert StandsAt(b, a, i + 1);
      }
      if i: nat :| StandsAt(b, a, i) && i > 0 {
        StandsLater(b, a, i - 1);
        assert StandsAt(b, a[1..], i - 1);
      }
    }
  }

  lemma StandsFirst(b: seq<string>, a: seq<string>)
    ensures IsPrefix(b, a) <==> StandsAt(b, a, 0)
  {
  }

  lemma StandsLater(b: seq<string>, a: seq<string>, i: nat)
    requires a != []
    ensures StandsAt(b, a[1..], i) <==> StandsAt(b, a, i + 1)
  {
    if i + 1 + |b| <= |a| {
      assert a[1..][i..i + |b|] == a[i + 1..i + 1 + |b|];
    }
  }

  /** A padded list starts another exactly when its words do. */
  lemma {:induction false} PadPrefix(a: seq<string>, b: seq<string>)
    requires AllPlain(a) && AllPlain(b)
    ensures StartsWith(Pad(a), Pad(b)) <==> IsPrefix(b, a)
  {
    if b == [] {
      assert Pad(a)[..1] == " ";
    } else if a == [] {
      assert |Pad(b)| > 1;
    } else {
      assert b[0] in b && a[0] in a;
      assert AllPlain(a[1..]) && AllPlain(b[1..]);
      PadPrefix(a[1..], b[1..]);
      WordThenPad(a[0], Pad(a[1..]), b[0], Pad(b[1..]));
      assert IsPrefix(b, a) <==> b[0] == a[0] && IsPrefix(b[1..], a[1..]) by {
        assert b == [b[0]] + b[1..] && a == [a[0]] + a[1..];
      }
    }
  }

  lemma {:induction false} PadStarts(ws: seq<string>)
    ensures Pad(ws) != "" && Pad(ws)[0] == ' '
  {
  }

  /** Words end where the spaces do, so equal starts mean equal words. */
  lemma WordThenPad(x: string, xs: string, y: string, ys: string)
    requires NoSpace(x) && NoSpace(y) && xs != "" && ys != "" && xs[0] == ' ' && ys[0] == ' '
    ensures StartsWith(" " + x + xs, " " + y + ys) <==> x == y && StartsWith(xs, ys)
  {
    var s, p := " " + x + xs, " " + y + ys;
    if StartsWith(s, p) {
      SameLength(x, xs, y, ys);
      assert s[1..1 + |x|] == x && p[1..1 + |y|] == y;
      assert s[..|p|][1 + |y|..] == ys;
      assert xs[..|ys|] == s[1 + |x|..][..|ys|];
    }
    if x == y && StartsWith(xs, ys) {
      assert s[..|p|] == " " + x + xs[..|ys|];
    }
  }

  lemma SameLength(x: string, xs: string, y: string, ys: string)
    requires NoSpace(x) && NoSpace(y) && xs != "" && ys != "" && xs[0] == ' ' && ys[0] == ' '
    requires StartsWith(" " + x + xs, " " + y + ys)
    ensures |x| == |y|
  {
    var s, p := " " + x + xs, " " + y + ys;
    assert forall k | 0 <= k < |y| :: s[1 + k] == p[1 + k] == y[k] && y[k] in y;
    assert forall k | 0 <= k < |x| :: s[1 + k] == x[k] && x[k] in x;
    assert s[1 + |x|] == xs[0] == ' ';
    assert s[1 + |y|] == p[1 + |y|] == ys[0] == ' ';
    assert |x| >= |y| && |y| >= |x|;
  }

  lemma DifferentStart(s: string, p: string)
    requires s != "" && p != "" && s[0] != p[0]
    ensures !StartsWith(s, p)
  {
    assert |s| >= |p| ==> s[..|p|][0] == s[0];
  }

  /** Nothing padded starts inside a word. */
  lemma {:induction false} InsideWord(w: string, rest: string, p: string)
    requires NoSpace(w) && w != "" && p != "" && p[0] == ' '
    ensures Contains(w + rest, p) <==> Contains(w[1..] + rest, p)
  {
    var s := w + rest;
    assert s[0] == w[0] && w[0] in w;
    assert s[1..] == w[1..] + rest;
    DifferentStart(s, p);
  }

  /** Scanning from inside a word: only the boundaries can match. */
  lemma {:induction false} ContainsFrom(w: string, a: seq<string>, b: seq<string>)
    requires NoSpace(w) && AllPlain(a) && AllPlain(b)
    ensures Contains(w + Pad(a), Pad(b)) <==> Within(b, a)
    decreases |a|, |w|
  {
    PadStarts(b);
    if w != "" {
      InsideWord(w, Pad(a), Pad(b));
      assert forall c | c in w[1..] :: c in w;
      ContainsFrom(w[1..], a, b);
    } else {
      var s := Pad(a);
      assert w + Pad(a) == s;
      PadPrefix(a, b);
      if a != [] {
        assert a[0] in a && AllPlain(a[1..]);
        assert s[1..] == a[0] + Pad(a[1..]);
        ContainsFrom(a[0], a[1..], b);
      } else {
        assert s[1..] == "";
      }
    }
  }

  // ── Normalized text is its words joined ──

  lemma {:induction false} PadJoin(ws: seq<string>)
    requires ws != []
    ensures Padded(Join(ws)) == Pad(ws)
  {
    if |ws| > 1 {
      PadJoin(ws[1..]);
      assert Padded(Join(ws)) == " " + ws[0] + (" " + Join(ws[1..]) + " ");
    }
  }

  lemma {:induction false} LowerPlain(sc: Script, s: string)
    requires Sane(sc) && forall c | c in s :: sc.alnum(c)
    ensures NoSpace(LowerAll(sc, s)) && (s != "" ==> LowerAll(sc, s) != "")
  {
    if s != "" {
      assert s[0] in s && forall c | c in s[1..] :: c in s;
      LowerPlain(sc, s[1..]);
    }
  }

  lemma {:induction false} LowerWordsPlain(sc: Script, ws: seq<string>)
    requires Sane(sc) && forall w | w in ws :: IsWord(Break(sc), w)
    ensures AllPlain(LowerWords(sc, ws))
  {
    if ws != [] {
      assert ws[0] in ws && forall w | w in ws[1..] :: w in ws;
      LowerPlain(sc, ws[0]);
      LowerWordsPlain(sc, ws[1..]);
    }
  }

  lemma NormalWordsPlain(sc: Script, s: string)
    requires Sane(sc)
    ensures AllPlain(NormalWords(sc, s))
  {
    WordsAreWords(Break(sc), s);
    LowerWordsPlain(sc, Words(Break(sc), s));
  }

  /** Breaks at a place where no space is due add nothing. */
  lemma {:induction false} SkipBreaks(sc: Script, ws: string, s: string, prevSpace: bool, started: bool)
    requires (forall c | c in ws :: !sc.alnum(c)) && (prevSpace || !started)
    ensures NormFrom(sc, ws + s, prevSpace, started) == NormFrom(sc, s, prevSpace, started)
  {
    if ws == "" {
      assert ws + s == s;
    } else {
      assert (ws + s)[1..] == ws[1..] + s && ws[0] in ws;
      SkipBreaks(sc, ws[1..], s, prevSpace, started);
    }
  }

  lemma {:induction false} TakeWord(sc: Script, w: string, s: string, prevSpace: bool, started: bool)
    requires (forall c | c in w :: sc.alnum(c)) && w != ""
    ensures NormFrom(sc, w + s, prevSpace, started) == LowerAll(sc, w) + NormFrom(sc, s, false, true)
  {
    assert (w + s)[1..] == w[1..] + s && w[0] in w;
    if |w| > 1 {
      assert forall c | c in w[1..] :: c in w;
      TakeWord(sc, w[1..], s, false, true);
      Regroup(sc.lower(w[0]), LowerAll(sc, w[1..]), NormFrom(sc, s, false, true));
    } else {
      assert w[1..] == "" && LowerAll(sc, "") == "";
    }
  }

  /** What is left to write when a space has just been written, or nothing has: the words joined, and maybe a space. */
  ghost predicate Written(out: string, ws: seq<string>) {
    if ws == [] then out == "" else out == Join(ws) || out == Join(ws) + " "
  }

  lemma {:induction false} NormWritten(sc: Script, s: string, prevSpace: bool, started: bool)
    requires Sane(sc) && (prevSpace || !started)
    ensures Written(NormFrom(sc, s, prevSpace, started), NormalWords(sc, s))
    decreases |s|
  {
    var ws := Spaces(Break(sc), s);
    var rest := s[|ws|..];
    SplitAfter(s, ws);
    SkipBreaks(sc, ws, rest, prevSpace, started);
    if rest == "" {
      assert Words(Break(sc), s) == [];
    } else {
      var word := Word(Break(sc), rest);
      var more := rest[|word|..];
      SplitAfter(rest, word);
      TakeWord(sc, word, more, prevSpace, started);
      AfterWord(sc, s, word, more);
    }
  }

  /** After a word comes nothing, or one space and what follows it. */
  lemma {:induction false} AfterWord(sc: Script, s: string, word: string, more: string)
    requires Sane(sc) && |more| < |s| && word != "" && (more == "" || !sc.alnum(more[0]))
    requires Words(Break(sc), s) == [word] + Words(Break(sc), more)
    ensures Written(LowerAll(sc, word) + NormFrom(sc, more, false, true), NormalWords(sc, s))
    decreases |s|, 0
  {
    var first := LowerAll(sc, word);
    LowerCons(sc, word, Words(Break(sc), more));
    if more == "" {
      assert Words(Break(sc), more) == [];
      assert first + "" == first;
    } else {
      var next := more[1..];
      NormWritten(sc, next, true, true);
      LeadingSpace(Break(sc), more);
      JoinCons(first, NormFrom(sc, next, true, true), NormalWords(sc, more));
      Regroup(first, " ", NormFrom(sc, next, true, true));
    }
  }

  lemma {:induction false} LowerCons(sc: Script, word: string, more: seq<string>)
    ensures LowerWords(sc, [word] + more) == [LowerAll(sc, word)] + LowerWords(sc, more)
  {
    assert ([word] + more)[1..] == more;
  }

  lemma JoinCons(first: string, out: string, more: seq<string>)
    requires Written(out, more)
    ensures Written(first + " " + out, [first] + more)
  {
    assert ([first] + more)[1..] == more;
    if more == [] {
      assert first + " " + "" == first + " ";
    } else {
      Regroup(first + " ", Join(more), " ");
    }
  }

  lemma {:induction false} JoinEndsPlain(ws: seq<string>)
    requires AllPlain(ws) && ws != []
    ensures Join(ws) != "" && Join(ws)[|Join(ws)| - 1] != ' '
  {
    assert ws[0] in ws && ws[0][|ws[0]| - 1] in ws[0];
    if |ws| > 1 {
      assert AllPlain(ws[1..]);
      JoinEndsPlain(ws[1..]);
    }
  }

  /** Normalizing a text gives its words, lower-cased, joined by single spaces. */
  lemma NormalizedIsJoin(sc: Script, s: string)
    requires Sane(sc)
    ensures Normalized(sc, s) == Join(NormalWords(sc, s))
  {
    var ws := NormalWords(sc, s);
    NormWritten(sc, s, false, false);
    NormalWordsPlain(sc, s);
    if ws != [] {
      JoinEndsPlain(ws);
      TrimOne(Join(ws));
    }
  }

  lemma TrimOne(s: string)
    requires s != "" && s[|s| - 1] != ' '
    ensures TrimLast(s) == s && TrimLast(s + " ") == s
  {
  }

  // ── The gate ──

  /** A value's words, a leading "the" dropped when others follow. */
  function NeedleWords(sc: Script, value: string): seq<string> {
    var ws := NormalWords(sc, value);
    if |ws| > 1 && ws[0] == "the" then ws[1..] else ws
  }

  lemma StripIsDrop(ws: seq<string>)
    requires AllPlain(ws)
    ensures StripArticle(Join(ws)) == Join(if |ws| > 1 && ws[0] == "the" then ws[1..] else ws)
  {
    if |ws| > 1 {
      assert ws[0] in ws;
      ArticleFirst(ws[0], Join(ws[1..]));
      assert Join(ws) == ws[0] + " " + Join(ws[1..]);
    } else if ws != [] {
      assert ws[0] in ws;
      assert |ws[0]| >= 4 ==> ws[0][..4][3] == ws[0][3] && ws[0][3] in ws[0];
      assert "the "[3] == ' ';
    }
  }

  lemma ArticleFirst(word: string, tail: string)
    requires NoSpace(word)
    ensures StripArticle(word + " " + tail) == if word == "the" then tail else word + " " + tail
  {
    var article, rest := "the", " " + tail;
    WordThenPad(word, rest, article, " ");
    Regroup(" ", word, rest);
    Regroup(word, " ", tail);
    assert " " + article + " " == " " + "the ";
    ShiftPrefix(word + rest, "the ");
    assert StartsWith(rest, " ");
    if word == article {
      assert (word + rest)[4..] == tail;
    }
  }

  lemma ShiftPrefix(s: string, p: string)
    ensures StartsWith(" " + s, " " + p) <==> StartsWith(s, p)
  {
    if StartsWith(" " + s, " " + p) {
      assert s[..|p|] == (" " + s)[..|p| + 1][1..];
    }
    if StartsWith(s, p) {
      assert (" " + s)[..|p| + 1] == " " + s[..|p|];
    }
  }

  lemma NeedleIsJoin(sc: Script, value: string)
    requires Sane(sc)
    ensures AllPlain(NeedleWords(sc, value))
    ensures StripArticle(Normalized(sc, value)) == Join(NeedleWords(sc, value))
  {
    NormalizedIsJoin(sc, value);
    NormalWordsPlain(sc, value);
    StripIsDrop(NormalWords(sc, value));
  }

  /** In one field: the padded needle is contained exactly when its words are consecutive words of the field. */
  lemma FieldContainsIff(sc: Script, field: string, value: string)
    requires Sane(sc) && NeedleWords(sc, value) != []
    ensures Contains(Padded(Normalized(sc, field)), Padded(StripArticle(Normalized(sc, value))))
       <==> StandsIn(NeedleWords(sc, value), NormalWords(sc, field))
  {
    var a, b := NormalWords(sc, field), NeedleWords(sc, value);
    WithinMeaning(b, a);
    NormalizedIsJoin(sc, field);
    NormalWordsPlain(sc, field);
    NeedleIsJoin(sc, value);
    PadJoin(b);
    if a == [] {
      assert Normalized(sc, field) == "";
      NoRoom(b);
    } else {
      PadJoin(a);
      assert "" + Pad(a) == Pad(a);
      ContainsFrom("", a, b);
    }
  }

  lemma {:induction false} NoRoom(b: seq<string>)
    requires AllPlain(b) && b != []
    ensures !Contains(Padded(""), Pad(b)) && !Within(b, [])
  {
    assert b[0] in b;
    assert |Pad(b)| > 2;
    assert Padded("") == "  ";
    assert !Contains("  "[1..][1..], Pad(b)) && !Contains("  "[1..], Pad(b));
  }

  lemma {:induction false} JoinEmptyIff(ws: seq<string>)
    requires AllPlain(ws)
    ensures Join(ws) == "" <==> ws == []
  {
    if ws != [] {
      JoinEndsPlain(ws);
    }
  }

  lemma {:induction false} FoundInTwo(h: string, more: seq<string>, p: string)
    requires |more| <= 1
    ensures FoundIn([h] + more, p) <==> Contains(h, p) || (more != [] && Contains(more[0], p))
  {
    assert h in [h] + more;
    assert more != [] ==> more[0] in [h] + more;
  }

  /** An absent or empty body has no haystack of its own, and no words to stand in. */
  lemma BodyContainsIff(sc: Script, body: Option<string>, value: string)
    requires Sane(sc) && NeedleWords(sc, value) != []
    ensures var more := if body.Some? && body.value != "" then [Padded(Normalized(sc, body.value))] else [];
      (more != [] && Contains(more[0], Padded(StripArticle(Normalized(sc, value)))))
      <==> body.Some? && StandsIn(NeedleWords(sc, value), NormalWords(sc, body.value))
  {
    if body.Some? {
      FieldContainsIff(sc, body.value, value);
      if body.value == "" {
        assert NormalWords(sc, "") == [];
        assert forall i: nat :: !StandsAt(NeedleWords(sc, value), [], i);
      }
    }
  }

  /**
   * The gate accepts a value exactly when it has words and they are consecutive words of the title, or of the
   * body; never across the two.
   */
  lemma GroundsIff(sc: Script, namespace: string, value: string, title: string, body: Option<string>)
    requires Sane(sc)
    ensures TokenOf(namespace, StripArticle(Normalized(sc, value)), Haystacks(sc, title, body)).Some?
       <==> NeedleWords(sc, value) != []
            && (StandsIn(NeedleWords(sc, value), NormalWords(sc, title))
                || (body.Some? && StandsIn(NeedleWords(sc, value), NormalWords(sc, body.value))))
  {
    NeedleIsJoin(sc, value);
    JoinEmptyIff(NeedleWords(sc, value));
    if NeedleWords(sc, value) != [] {
      FieldContainsIff(sc, title, value);
      BodyContainsIff(sc, body, value);
      FoundInTwo(Padded(Normalized(sc, title)), if body.Some? && body.value != "" then [Padded(Normalized(sc, body.value))] else [],
                 Padded(StripArticle(Normalized(sc, value))));
    }
  }
}
