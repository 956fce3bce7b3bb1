/** Defanging leaves nothing clickable, touches nothing but brackets, and panics on exactly the texts shown here. */
module LinkSafetyLaws {
  import opened Ordering
  import opened Tokens
  import opened LinkSafety

  // ── Every dot is caged ──

  ghost predicate Caged(s: string) {
    forall k | 0 <= k < |s| && s[k] == '.' :: k > 0 && s[k - 1] == '['
  }

  lemma CagedAppend(a: string, b: string)
    requires Caged(a) && Caged(b)
    ensures Caged(a + b)
  {
    var s := a + b;
    forall k | 0 <= k < |s| && s[k] == '.' ensures k > 0 && s[k - 1] == '[' {
      if k >= |a| {
        assert b[k - |a|] == '.';
      }
    }
  }

  lemma {:induction false} CageDotsCages(s: string)
    ensures Caged(CageDots(s))
  {
    if s != "" {
      CageDotsCages(s[1..]);
      CagedAppend(if s[0] == '.' then "[.]" else [s[0]], CageDots(s[1..]));
    }
  }

  lemma CagedDrop(s: string, n: nat)
    requires Caged(s) && n <= |s| && (n == |s| || s[n] != '.')
    ensures Caged(s[n..])
  {
    var t := s[n..];
    forall k | 0 <= k < |t| && t[k] == '.' ensures k > 0 && t[k - 1] == '[' {
      assert s[n + k] == '.';
    }
  }

  /** Dots that were caged stay caged, and a dot right after a removed prefix was caged in it. */
  lemma {:induction false} SchemesKeepCages(s: string)
    requires forall k | 0 < k < |s| && s[k] == '.' :: s[k - 1] == '['
    ensures forall k | 0 < k < |CageSchemes(s)| && CageSchemes(s)[k] == '.' :: CageSchemes(s)[k - 1] == '['
    ensures s != "" ==> CageSchemes(s) != "" && (CageSchemes(s)[0] == s[0] || (CageSchemes(s)[0] == '[' && s[0] == ':'))
    ensures s == "" ==> CageSchemes(s) == ""
    decreases |s|
  {
    if s != "" {
      var n := if StartsWith(s, "://") then 3 else 1;
      var head := if StartsWith(s, "://") then "[:]//" else [s[0]];
      var rest, r := s[n..], CageSchemes(s[n..]);
      forall k | 0 < k < |rest| && rest[k] == '.' ensures rest[k - 1] == '[' {
        assert s[n + k] == '.' && s[n + k - 1] == rest[k - 1];
      }
      SchemesKeepCages(rest);
      assert n == 3 ==> s[..3][2] == s[2] == '/';
      forall k | 0 < k < |head + r| && (head + r)[k] == '.' ensures (head + r)[k - 1] == '[' {
        if k == |head| {
          assert r[0] == '.' && rest[0] == '.' && s[n] == '.' && s[n - 1] == '[';
          assert n == 1;
        } else if k > |head| {
          assert r[k - |head|] == '.';
        }
      }
    }
  }

  lemma {:induction false} CageSchemesCages(s: string)
    requires Caged(s)
    ensures Caged(CageSchemes(s))
  {
    SchemesKeepCages(s);
    if s != "" {
      assert s[0] != '.';
    }
  }

  lemma CageMailtoCages(s: string)
    requires Caged(s)
    ensures Caged(CageMailto(s))
  {
    if HasPrefix(s, "mailto:") {
      MailtoChars(s);
      CagedTake(s, 6);
      CagedDrop(s, 7);
      CagedAppend(s[..6], "[:]");
      CagedAppend(s[..6] + "[:]", s[7..]);
    }
  }

  lemma CagedTake(s: string, n: nat)
    requires Caged(s) && n <= |s|
    ensures Caged(s[..n])
  {
  }

  lemma MailtoChars(s: string)
    requires Caged(s) && HasPrefix(s, "mailto:")
    ensures |s| >= 7 && s[6] == ':' && (|s| == 7 || s[7] != '.')
  {
    var p := "mailto:";
    assert Lower(s[6]) == p[6] == ':';
    assert |s| > 7 ==> s[7] != '.';
  }

  // ── No scheme marker is left ──

  ghost predicate SchemeAt(s: string, k: int) {
    0 <= k && k + 2 < |s| && s[k] == ':' && s[k + 1] == '/' && s[k + 2] == '/'
  }

  ghost predicate NoScheme(s: string) {
    forall k :: !SchemeAt(s, k)
  }

  lemma {:induction false} ContainsScheme(s: string)
    ensures Contains(s, "://") <==> !NoScheme(s)
  {
    if s != "" {
      ContainsScheme(s[1..]);
      assert StartsWith(s, "://") <==> SchemeAt(s, 0);
      if k :| SchemeAt(s[1..], k) {
        assert SchemeAt(s, k + 1);
      }
      if k :| SchemeAt(s, k) && k > 0 {
        assert SchemeAt(s[1..], k - 1);
      }
    }
  }

  lemma {:induction false} SlashesSurvive(s: string)
    ensures CageSchemes(s) != "" && CageSchemes(s)[0] == '/' ==> s != "" && s[0] == '/' && CageSchemes(s) == [s[0]] + CageSchemes(s[1..])
  {
  }

  lemma {:induction false} CageSchemesClears(s: string)
    ensures NoScheme(CageSchemes(s))
    decreases |s|
  {
    if s != "" {
      if StartsWith(s, "://") {
        var r := CageSchemes(s[3..]);
        CageSchemesClears(s[3..]);
        forall k ensures !SchemeAt("[:]//" + r, k) {
          if k >= 5 { assert !SchemeAt(r, k - 5); }
        }
      } else {
        var r := CageSchemes(s[1..]);
        CageSchemesClears(s[1..]);
        HeadStaysClear(s, r);
        forall k ensures !SchemeAt([s[0]] + r, k) {
          if k >= 1 { assert !SchemeAt(r, k - 1); }
        }
      }
    }
  }

  lemma HeadStaysClear(s: string, r: string)
    requires s != "" && r == CageSchemes(s[1..])
    ensures SchemeAt([s[0]] + r, 0) ==> StartsWith(s, "://")
  {
    if SchemeAt([s[0]] + r, 0) {
      SlashesSurvive(s[1..]);
      SlashesSurvive(s[2..]);
      assert s[1..][1..] == s[2..];
      assert s[..3] == "://";
    }
  }

  lemma CageMailtoClears(s: string)
    requires NoScheme(s)
    ensures NoScheme(CageMailto(s))
  {
    if HasPrefix(s, "mailto:") {
      var t := s[..6] + "[:]" + s[7..];
      forall k ensures !SchemeAt(t, k) {
        if k >= 9 {
          assert !SchemeAt(s, k - 2);
        } else if 0 <= k < 6 {
          assert Lower(s[k]) == "mailto:"[k];
        }
      }
    }
  }

  // ── Nothing clickable survives ──

  /** The host is a stretch of the token. */
  lemma HostInside(tok: string) returns (i: nat)
    ensures i + |Host(tok)| <= |tok| && Host(tok) == tok[i..i + |Host(tok)|]
  {
    var authority := Before(tok, "/?#");
    var after := AfterLast(authority, '@');
    i := |authority| - |after|;
    SliceThrough(tok, authority, after, Host(tok));
  }

  lemma SliceThrough(tok: string, authority: string, after: string, host: string)
    requires authority <= tok && |after| <= |authority| && after == authority[|authority| - |after|..] && host <= after
    ensures var i := |authority| - |after|; i + |host| <= |tok| && host == tok[i..i + |host|]
  {
    assert forall k | 0 <= k < |host| :: host[k] == after[k] == authority[|authority| - |after| + k] == tok[|authority| - |after| + k];
  }

  lemma DotSpoilsLabel(tok: string, i: nat, host: string, first: string)
    requires Caged(tok) && i + |host| <= |tok| && host == tok[i..i + |host|]
    requires first <= host && |first| < |host| && host[|first|] == '.'
    ensures !GoodLabel(first)
  {
    var p := |first|;
    assert tok[i + p] == '.' && tok[i + p - 1] == '[';
    if p > 0 {
      assert first[p - 1] == host[p - 1] == '[' && first[p - 1] in first;
    }
  }

  lemma CagedNotHost(tok: string)
    requires Caged(tok)
    ensures !LooksLikeHost(tok)
  {
    CagedFirstLabel(tok);
    FirstLabelBad(Host(tok));
  }

  lemma CagedFirstLabel(tok: string)
    requires Caged(tok)
    ensures Before(Host(tok), ".") == Host(tok) || !GoodLabel(Before(Host(tok), "."))
  {
    var i := HostInside(tok);
    FirstLabelSpoiled(tok, i, Host(tok));
  }

  lemma {:induction false} FirstLabelSpoiled(tok: string, i: nat, host: string)
    requires Caged(tok) && i + |host| <= |tok| && host == tok[i..i + |host|]
    ensures Before(host, ".") == host || !GoodLabel(Before(host, "."))
  {
    if Before(host, ".") != host {
      DotSpoilsLabel(tok, i, host, Before(host, "."));
    }
  }

  lemma {:induction false} FirstLabelBad(host: string)
    requires Before(host, ".") == host || !GoodLabel(Before(host, "."))
    ensures !HostLabels(Labels(host))
  {
    assert Labels(host)[0] in Labels(host);
  }

  lemma CagedNotWww(s: string)
    requires Caged(s)
    ensures !HasPrefix(s, "www.")
  {
    var p := "www.";
    assert p[2] == 'w' && p[3] == '.';
    if |s| >= 4 {
      assert Lower(s[2]) != p[2] || Lower(s[3]) != p[3];
    }
  }

  lemma MailtoGone(s: string)
    ensures !HasPrefix(CageMailto(s), "mailto:")
  {
    var p := "mailto:";
    if HasPrefix(s, p) {
      var t := CageMailto(s);
      assert t[6] == '[' && p[6] == ':';
      assert Lower(t[6]) != p[6];
    }
  }

  /** A neutralized token no longer looks clickable. */
  lemma NeutralizedInert(core: string)
    ensures !IsLinkable(Neutralize(core))
  {
    var dots := CageDots(core);
    var schemes := CageSchemes(dots);
    CageDotsCages(core);
    CageSchemesCages(dots);
    CageMailtoCages(schemes);
    CageSchemesClears(dots);
    CageMailtoClears(schemes);
    ContainsScheme(Neutralize(core));
    MailtoGone(schemes);
    CagedNotWww(Neutralize(core));
    CagedNotHost(Neutralize(core));
  }

  // ── Words keep their shape ──

  /** A token that starts and ends with a letter or digit. */
  ghost predicate Trimmed(abc: Alphabet, s: string) {
    s != "" && abc.alnum(s[0]) && abc.alnum(s[|s| - 1])
  }

  lemma {:induction false} CageDotsEnds(abc: Alphabet, s: string)
    requires Sane(abc) && s != "" && abc.alnum(s[|s| - 1])
    ensures var r := CageDots(s); r != "" && r[|r| - 1] == s[|s| - 1] && (abc.alnum(s[0]) ==> r[0] == s[0])
  {
    if |s| > 1 {
      CageDotsEnds(abc, s[1..]);
    } else {
      assert CageDots(s[1..]) == "";
    }
  }

  lemma {:induction false} CageSchemesEnds(abc: Alphabet, s: string)
    requires Sane(abc) && s != "" && abc.alnum(s[|s| - 1])
    ensures var r := CageSchemes(s); r != "" && r[|r| - 1] == s[|s| - 1] && (abc.alnum(s[0]) ==> r[0] == s[0])
    decreases |s|
  {
    if StartsWith(s, "://") {
      assert s[..3][0] == s[0] && s[..3][2] == s[2];
      CageSchemesEnds(abc, s[3..]);
    } else if |s| > 1 {
      CageSchemesEnds(abc, s[1..]);
    } else {
      assert CageSchemes(s[1..]) == "";
    }
  }

  lemma CageMailtoEnds(abc: Alphabet, s: string)
    requires Sane(abc) && Trimmed(abc, s)
    ensures Trimmed(abc, CageMailto(s))
  {
    if HasPrefix(s, "mailto:") {
      var p := "mailto:";
      assert Lower(s[6]) == p[6];
      assert |s| > 7;
    }
  }

  lemma NeutralizedTrimmed(abc: Alphabet, core: string)
    requires Sane(abc) && Trimmed(abc, core)
    ensures Trimmed(abc, Neutralize(core))
  {
    CageDotsEnds(abc, core);
    CageSchemesEnds(abc, CageDots(core));
    CageMailtoEnds(abc, CageSchemes(CageDots(core)));
  }

  lemma {:induction false} CageDotsChars(s: string, c: char)
    requires c in CageDots(s)
    ensures c in s || c in "[]"
  {
    if s != "" && c in CageDots(s[1..]) {
      CageDotsChars(s[1..], c);
    }
  }

  lemma {:induction false} CageSchemesChars(s: string, c: char)
    requires c in CageSchemes(s)
    ensures c in s || c in "[]"
    decreases |s|
  {
    if s != "" {
      var n := if StartsWith(s, "://") then 3 else 1;
      assert s == s[..n] + s[n..];
      if c in CageSchemes(s[n..]) {
        CageSchemesChars(s[n..], c);
      }
    }
  }

  lemma NeutralizedChars(core: string, c: char)
    requires c in Neutralize(core)
    ensures c in core || c in "[]"
  {
    var schemes := CageSchemes(CageDots(core));
    if HasPrefix(schemes, "mailto:") {
      MailtoKeepsColon(schemes);
      assert c in schemes || c in "[]";
    }
    if c in schemes {
      CageSchemesChars(CageDots(core), c);
      if c in CageDots(core) {
        CageDotsChars(core, c);
      }
    }
  }

  lemma MailtoKeepsColon(s: string)
    requires HasPrefix(s, "mailto:")
    ensures s[6] == ':' && s == s[..6] + ":" + s[7..]
  {
    var p := "mailto:";
    assert Lower(s[6]) == p[6];
  }

  lemma {:induction false} LeadTrimmed(abc: Alphabet, lead: string, s: string)
    requires Bare(abc, lead) && s != "" && abc.alnum(s[0])
    ensures TrimStart(abc, lead + s) == s
  {
    if lead == "" {
      assert lead + s == s;
    } else {
      assert (lead + s)[1..] == lead[1..] + s && lead[0] in lead;
      LeadTrimmed(abc, lead[1..], s);
    }
  }

  lemma {:induction false} TrailTrimmed(abc: Alphabet, s: string, trail: string)
    requires Bare(abc, trail) && s != "" && abc.alnum(s[|s| - 1])
    ensures TrimEnd(abc, s + trail) == s
  {
    if trail == "" {
      assert s + trail == s;
    } else {
      var n := |trail| - 1;
      assert (s + trail)[..|s| + n] == s + trail[..n] && trail[n] in trail;
      TrailTrimmed(abc, s, trail[..n]);
    }
  }

  /** Punctuation around a trimmed token leaves it the core. */
  lemma CoreOfWrapped(abc: Alphabet, lead: string, core: string, trail: string)
    requires Bare(abc, lead) && Bare(abc, trail) && Trimmed(abc, core)
    ensures Core(abc, lead + core + trail) == core
  {
    assert lead + core + trail == lead + (core + trail);
    LeadTrimmed(abc, lead, core + trail);
    TrailTrimmed(abc, core, trail);
  }

  lemma ThreeParts(w: string, i: nat, j: nat)
    requires i <= j <= |w|
    ensures w == w[..i] + w[i..j] + w[j..]
  {
  }

  lemma {:induction false} BareEnds(abc: Alphabet, w: string)
    ensures Bare(abc, w[..|w| - |TrimStart(abc, w)|]) && Bare(abc, w[|TrimEnd(abc, w)|..])
  {
  }

  lemma SliceEnds(w: string, s: string, e: string)
    requires |s| <= |w| && s == w[|w| - |s|..] && e <= w && |w| - |s| < |e|
    ensures var core := w[|w| - |s|..|e|]; core != "" && core[0] == s[0] && core[|core| - 1] == e[|e| - 1]
  {
  }

  lemma TrimmedBetween(abc: Alphabet, w: string, s: string, e: string, core: string)
    requires Between(w, s, e, core) && s == w[|w| - |s|..] && e <= w && abc.alnum(s[0]) && abc.alnum(e[|e| - 1])
    ensures Trimmed(abc, core)
  {
    SliceEnds(w, s, e);
  }

  lemma CoreTrimmed(abc: Alphabet, w: string)
    requires !Bare(abc, w)
    ensures Trimmed(abc, Core(abc, w))
  {
    var k := AlnumAt(abc, w);
    CoreAt(abc, w, TrimStart(abc, w), TrimEnd(abc, w), k);
    TrimmedBetween(abc, w, TrimStart(abc, w), TrimEnd(abc, w), Core(abc, w));
  }

  /** A word around its core. */
  lemma WordParts(abc: Alphabet, w: string) returns (lead: string, core: string, trail: string)
    requires !Bare(abc, w)
    ensures w == lead + core + trail && core == Core(abc, w) && Trimmed(abc, core) && Bare(abc, lead) && Bare(abc, trail)
    ensures DefangWord(abc, w) == if Clickable(abc, w) then lead + Neutralize(core) + trail else w
  {
    CoreSlice(abc, w);
    CoreTrimmed(abc, w);
    lead, core, trail := CutWord(abc, w);
    BareEnds(abc, w);
  }

  lemma CutWord(abc: Alphabet, w: string) returns (lead: string, core: string, trail: string)
    requires !Bare(abc, w)
    ensures lead == w[..|w| - |TrimStart(abc, w)|] && trail == w[|TrimEnd(abc, w)|..]
    ensures core == Core(abc, w) && w == lead + core + trail
    ensures DefangWord(abc, w) == if Clickable(abc, w) then lead + Neutralize(core) + trail else w
  {
    CoreSlice(abc, w);
    var i, j := |w| - |TrimStart(abc, w)|, |TrimEnd(abc, w)|;
    lead, core, trail := w[..i], w[i..j], w[j..];
    ThreeParts(w, i, j);
  }

  /** A fixed word is still one word, no longer clickable. */
  lemma FixedWordInert(abc: Alphabet, w: string)
    requires Sane(abc) && IsWord(abc.space, w) && !Bare(abc, w)
    ensures IsWord(abc.space, DefangWord(abc, w)) && !Clickable(abc, DefangWord(abc, w))
  {
    var lead, core, trail := WordParts(abc, w);
    if Clickable(abc, w) {
      NeutralizedTrimmed(abc, core);
      CoreOfWrapped(abc, lead, Neutralize(core), trail);
      NeutralizedInert(core);
      forall c | c in DefangWord(abc, w) ensures !abc.space(c) {
        if c in Neutralize(core) {
          NeutralizedChars(core, c);
        }
      }
    }
  }

  /** A punctuation-only word trims to nothing at either end. */
  lemma {:induction false} BareTrims(abc: Alphabet, w: string)
    requires Bare(abc, w)
    ensures TrimStart(abc, w) == "" && TrimEnd(abc, w) == ""
  {
    if w != "" {
      var n := |w| - 1;
      assert w[0] in w && w[n] in w;
      BareTrims(abc, w[1..]);
      BareTrims(abc, w[..n]);
    }
  }

  /** The slice fails exactly on the punctuation-only words; on the others it cuts out the core. */
  lemma FixMeaning(abc: Alphabet, w: string)
    requires w != ""
    ensures Fix(abc)(w) == None <==> Bare(abc, w)
    ensures !Bare(abc, w) ==> Fix(abc)(w) == Some(DefangWord(abc, w))
  {
    if Bare(abc, w) {
      BareTrims(abc, w);
    } else {
      CoreSlice(abc, w);
    }
  }

  lemma {:induction false} NoneClickable(abc: Alphabet, ws: seq<string>)
    ensures FirstClickable(abc, ws) == None <==> forall w | w in ws :: !Clickable(abc, w)
  {
    if ws != [] {
      assert ws == [ws[0]] + ws[1..];
      NoneClickable(abc, ws[1..]);
    }
  }

  /** After defanging, the gate finds nothing. */
  lemma DefangInert(abc: Alphabet, text: string)
    requires Sane(abc) && Defanged(abc, text).Some?
    ensures FirstLinkableToken(abc, Defanged(abc, text).value) == None
  {
    if FirstLinkableToken(abc, text).Some? {
      var out := Rewrite(abc.space, Fix(abc), text).value;
      var before, after := Words(abc.space, text), Words(abc.space, out);
      forall w | IsWord(abc.space, w) && Fix(abc)(w).Some? ensures IsWord(abc.space, Fix(abc)(w).value) {
        FixMeaning(abc, w);
        FixedWordInert(abc, w);
      }
      RewriteWords(abc.space, Fix(abc), text);
      WordsAreWords(abc.space, text);
      forall w | w in after ensures !Clickable(abc, w) {
        var k :| 0 <= k < |after| && after[k] == w;
        assert Fix(abc)(before[k]) == Some(w) && before[k] in before;
        FixMeaning(abc, before[k]);
        FixedWordInert(abc, before[k]);
      }
      NoneClickable(abc, after);
    }
  }

  /** Defanging twice is defanging once. */
  lemma DefangIdempotent(abc: Alphabet, text: string)
    requires Sane(abc) && Defanged(abc, text).Some?
    ensures Defanged(abc, Defanged(abc, text).value) == Defanged(abc, text)
  {
    DefangInert(abc, text);
  }

  // ── Only brackets are added ──

  const BRACKETS := "[]"

  lemma {:induction false} CageDotsErases(s: string)
    ensures Erase(CageDots(s), BRACKETS) == Erase(s, BRACKETS)
  {
    if s != "" {
      var r := CageDots(s[1..]);
      CageDotsErases(s[1..]);
      if s[0] == '.' {
        EraseCage('.', r);
        assert "[.]" + r == "[" + ['.'] + "]" + r;
      } else {
        assert ([s[0]] + r)[1..] == r;
      }
    }
  }

  lemma {:induction false} EraseCage(c: char, rest: string)
    requires c !in BRACKETS
    ensures Erase("[" + [c] + "]" + rest, BRACKETS) == [c] + Erase(rest, BRACKETS)
  {
    var s := "[" + [c] + "]" + rest;
    assert BRACKETS[0] == '[' && BRACKETS[1] == ']';
    assert s[1..] == [c] + ("]" + rest) && s[0] == '[';
    assert ([c] + ("]" + rest))[1..] == "]" + rest;
    assert ("]" + rest)[1..] == rest && ("]" + rest)[0] == ']';
    assert Erase("]" + rest, BRACKETS) == "" + Erase(rest, BRACKETS) == Erase(rest, BRACKETS);
    assert Erase([c] + ("]" + rest), BRACKETS) == [c] + Erase("]" + rest, BRACKETS);
    assert Erase(s, BRACKETS) == "" + Erase(s[1..], BRACKETS) == Erase(s[1..], BRACKETS);
  }

  lemma {:induction false} CageSchemesErases(s: string)
    ensures Erase(CageSchemes(s), BRACKETS) == Erase(s, BRACKETS)
    decreases |s|
  {
    if s != "" {
      if StartsWith(s, "://") {
        var r := CageSchemes(s[3..]);
        CageSchemesErases(s[3..]);
        EraseCage(':', "//" + r);
        assert "[:]//" + r == "[" + [':'] + "]" + ("//" + r);
        EraseAppend("//", r, BRACKETS);
        EraseAppend("//", s[3..], BRACKETS);
        assert s == [':'] + ("//" + s[3..]) by {
          assert s == s[..3] + s[3..];
        }
      } else {
        CageSchemesErases(s[1..]);
      }
    }
  }

  lemma {:induction false} CageMailtoErases(s: string)
    ensures Erase(CageMailto(s), BRACKETS) == Erase(s, BRACKETS)
  {
    if HasPrefix(s, "mailto:") {
      MailtoKeepsColon(s);
      EraseCage(':', s[7..]);
      assert CageMailto(s) == s[..6] + ("[" + [':'] + "]" + s[7..]);
      EraseAppend(s[..6], "[" + [':'] + "]" + s[7..], BRACKETS);
      assert s == s[..6] + ([':'] + s[7..]);
      EraseAppend(s[..6], [':'] + s[7..], BRACKETS);
    }
  }

  lemma {:induction false} FixErases(abc: Alphabet, w: string)
    requires Fix(abc)(w).Some?
    ensures Erase(Fix(abc)(w).value, BRACKETS) == Erase(w, BRACKETS)
  {
    if w == "" {
      return;
    }
    FixMeaning(abc, w);
    var lead, core, trail := WordParts(abc, w);
    if Clickable(abc, w) {
      CageDotsErases(core);
      CageSchemesErases(CageDots(core));
      CageMailtoErases(CageSchemes(CageDots(core)));
      EraseAppend(lead + Neutralize(core), trail, BRACKETS);
      EraseAppend(lead, Neutralize(core), BRACKETS);
      EraseAppend(lead + core, trail, BRACKETS);
      EraseAppend(lead, core, BRACKETS);
    }
  }

  /** Apart from square brackets, defanging changes nothing. */
  lemma {:induction false} DefangOnlyBrackets(abc: Alphabet, text: string)
    requires Defanged(abc, text).Some?
    ensures Erase(Defanged(abc, text).value, BRACKETS) == Erase(text, BRACKETS)
  {
    if FirstLinkableToken(abc, text).Some? {
      forall w | Fix(abc)(w).Some? ensures Erase(Fix(abc)(w).value, BRACKETS) == Erase(w, BRACKETS) {
        FixErases(abc, w);
      }
      RewriteErases(abc.space, Fix(abc), text, BRACKETS);
    }
  }

  // ── When the rewrite panics ──

  /** Defanging panics exactly on a text with something clickable in it and, anywhere, a punctuation-only word. */
  lemma {:induction false} DefangPanicsIff(abc: Alphabet, text: string)
    ensures Defanged(abc, text) == None
       <==> FirstLinkableToken(abc, text).Some? && exists w | w in Words(abc.space, text) :: Bare(abc, w)
  {
    RewriteFailsIff(abc.space, Fix(abc), text);
    WordsAreWords(abc.space, text);
    forall w | w in Words(abc.space, text) ensures Fix(abc)(w) == None <==> Bare(abc, w) {
      FixMeaning(abc, w);
    }
  }

  const ADDRESS := "www.acme"

  lemma AddressThenDash(abc: Alphabet)
    requires Sane(abc) && abc.space(' ')
    ensures Words(abc.space, ADDRESS + " -") == [ADDRESS, "-"]
  {
    assert ADDRESS + " -" == "" + ADDRESS + " -" && " -" == " " + "-" + "";
    WordsSplit(abc.space, "", ADDRESS, " -");
    WordsSplit(abc.space, " ", "-", "");
    assert Words(abc.space, "") == [];
  }

  lemma PrefixLinks(tok: string)
    requires HasPrefix(tok, "www.")
    ensures IsLinkable(tok)
  {
  }

  lemma AddressTrimmed(abc: Alphabet)
    requires Sane(abc)
    ensures Trimmed(abc, ADDRESS) && HasPrefix(ADDRESS, "www.")
  {
    assert AsciiAlnum(ADDRESS[0]) && AsciiAlnum(ADDRESS[|ADDRESS| - 1]);
  }

  lemma AddressClickable(abc: Alphabet)
    requires Sane(abc)
    ensures Clickable(abc, ADDRESS)
  {
    AddressTrimmed(abc);
    assert ADDRESS == "" + ADDRESS + "";
    CoreOfWrapped(abc, "", ADDRESS, "");
    PrefixLinks(ADDRESS);
  }

  /** Such a text: a web address followed by a dash. */
  lemma DashAfterAddressPanics(abc: Alphabet)
    requires Sane(abc) && abc.space(' ')
    ensures Defanged(abc, ADDRESS + " -") == None
  {
    AddressThenDash(abc);
    AddressClickable(abc);
    NoneClickable(abc, [ADDRESS, "-"]);
    assert "-" in [ADDRESS, "-"] && ADDRESS in [ADDRESS, "-"] && Bare(abc, "-");
    DefangPanicsIff(abc, ADDRESS + " -");
  }
}
