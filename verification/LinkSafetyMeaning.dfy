/** What counts as clickable, spelled out, and what the gate and the backstop do to a text in those terms. */
module LinkSafetyMeaning {
  import opened Ordering
  import opened Tokens
  import opened LinkSafety
  import opened LinkSafetyLaws

  // ── The shape of a host ──

  predicate Letter(c: char) {
    'a' <= c <= 'z' || 'A' <= c <= 'Z'
  }

  /** Letters, digits and hyphens. */
  predicate HostLabel(l: string) {
    l != "" && forall c | c in l :: Letter(c) || '0' <= c <= '9' || c == '-'
  }

  /** Two letters or more. */
  predicate TopLabel(l: string) {
    |l| >= 2 && forall c | c in l :: Letter(c)
  }

  function Dotted(ls: seq<string>): string {
    if ls == [] then "" else if |ls| == 1 then ls[0] else ls[0] + "." + Dotted(ls[1..])
  }

  predicate DomainLabels(ls: seq<string>) {
    |ls| >= 2 && (forall l | l in ls :: HostLabel(l)) && TopLabel(ls[|ls| - 1])
  }

  predicate FreeOf(s: string, marks: string) {
    forall c | c in s :: c !in marks
  }

  /** An optional user in front of an `@`. */
  predicate UserPart(s: string) {
    s == "" || (s[|s| - 1] == '@' && FreeOf(s, "/?#"))
  }

  /** An optional port after a colon. */
  predicate PortPart(s: string) {
    s == "" || (s[0] == ':' && FreeOf(s, "@/?#"))
  }

  /** An optional path, query or fragment. */
  predicate TailPart(s: string) {
    s == "" || s[0] in "/?#"
  }

  ghost predicate AddressOf(tok: string, user: string, ls: seq<string>, port: string, tail: string) {
    DomainLabels(ls) && UserPart(user) && PortPart(port) && TailPart(tail) && tok == user + Dotted(ls) + port + tail
  }

  /** A dotted name, perhaps with a user before it and a port or a path after it. */
  ghost predicate Address(tok: string) {
    exists user, ls, port, tail :: AddressOf(tok, user, ls, port, tail)
  }

  /** Starts with `p`, given in lower case, in whatever case. */
  predicate StartsAnyCase(s: string, p: string) {
    |s| >= |p| && forall k | 0 <= k < |p| :: s[k] == p[k] || ('A' <= s[k] <= 'Z' && s[k] - 'A' + 'a' == p[k])
  }

  /** What a mail client would turn into a link. */
  ghost predicate Live(tok: string) {
    || (exists k :: SchemeAt(tok, k))
    || StartsAnyCase(tok, "www.") || StartsAnyCase(tok, "mailto:") || Address(tok)
  }

  // ── Cutting at marks ──

  lemma {:induction false} BeforeMark(s: string, t: string, stops: string)
    requires FreeOf(s, stops) && (t == "" || t[0] in stops)
    ensures Before(s + t, stops) == s
  {
    if s == "" {
      assert s + t == t;
    } else {
      assert (s + t)[0] == s[0] && (s + t)[1..] == s[1..] + t && s[0] in s;
      assert forall c | c in s[1..] :: c in s;
      BeforeMark(s[1..], t, stops);
    }
  }

  lemma {:induction false} AfterMark(s: string, t: string, mark: char)
    requires mark !in t && (s == "" || s[|s| - 1] == mark)
    ensures AfterLast(s + t, mark) == t
  {
    if t == "" {
      assert s + t == s;
    } else {
      var front, c := t[..|t| - 1], t[|t| - 1];
      assert t == front + [c] && c in t && forall x | x in front :: x in t;
      AfterMark(s, front, mark);
      Regroup(s, front, [c]);
      AfterLastSnoc(s + front, c, mark);
    }
  }

  lemma {:induction false} AfterLastSnoc(s: string, c: char, mark: char)
    ensures AfterLast(s + [c], mark) == if c == mark then "" else AfterLast(s, mark) + [c]
  {
    assert (s + [c])[..|s|] == s;
  }

  lemma {:induction false} AfterLastFree(s: string, mark: char)
    ensures var r := AfterLast(s, mark); mark !in r && (r == s || s[|s| - |r| - 1] == mark)
  {
    if s != "" && s[|s| - 1] != mark {
      AfterLastFree(s[..|s| - 1], mark);
    }
  }

  // ── Labels and dots ──

  lemma {:induction false} LabelsDotted(host: string)
    ensures Dotted(Labels(host)) == host
    decreases |host|
  {
    var first := Before(host, ".");
    if first != host {
      var rest := host[|first| + 1..];
      LabelsDotted(rest);
      DottedCons(first, Labels(rest));
      AroundDot(host, first, rest);
    }
  }

  lemma {:induction false} DottedCons(l: string, ls: seq<string>)
    requires ls != []
    ensures Dotted([l] + ls) == l + "." + Dotted(ls)
  {
    assert ([l] + ls)[1..] == ls;
  }

  lemma AroundDot(host: string, first: string, rest: string)
    requires first <= host && |first| < |host| && host[|first|] == '.' && rest == host[|first| + 1..]
    ensures host == first + "." + rest
  {
  }

  lemma {:induction false} OneLabel(l: string)
    requires FreeOf(l, ".")
    ensures Labels(l) == [l]
  {
    assert l + "" == l;
    BeforeMark(l, "", ".");
  }

  lemma {:induction false} FirstOfLabels(first: string, rest: string, host: string)
    requires FreeOf(first, ".") && host == first + ("." + rest)
    ensures Labels(host) == [first] + Labels(rest)
  {
    BeforeMark(first, "." + rest, ".");
    assert host[|first| + 1..] == rest;
  }

  lemma {:induction false} DottedLabels(ls: seq<string>)
    requires ls != [] && forall l | l in ls :: FreeOf(l, ".")
    ensures Labels(Dotted(ls)) == ls
  {
    assert ls[0] in ls;
    if |ls| == 1 {
      OneLabel(ls[0]);
    } else {
      var rest := Dotted(ls[1..]);
      assert forall l | l in ls[1..] :: l in ls;
      DottedLabels(ls[1..]);
      assert Dotted(ls) == ls[0] + ("." + rest);
      FirstOfLabels(ls[0], rest, Dotted(ls));
      assert ls == [ls[0]] + ls[1..];
    }
  }

  lemma HostMarks(l: string, marks: string)
    requires HostLabel(l) && forall c | c in marks :: c in "./?#@:"
    ensures FreeOf(l, marks)
  {
    forall c | c in l ensures c !in marks {
      MarkIsNoHostChar(c);
    }
  }

  lemma MarkIsNoHostChar(c: char)
    ensures c in "./?#@:" ==> !(Letter(c) || '0' <= c <= '9' || c == '-')
  {
  }

  lemma {:induction false} DottedFree(ls: seq<string>, marks: string)
    requires (forall l | l in ls :: FreeOf(l, marks)) && '.' !in marks
    ensures FreeOf(Dotted(ls), marks)
  {
    if |ls| > 1 {
      assert ls[0] in ls && forall l | l in ls[1..] :: l in ls;
      DottedFree(ls[1..], marks);
    } else if ls != [] {
      assert ls[0] in ls;
    }
  }

  lemma SameLabels(ls: seq<string>)
    ensures HostLabels(ls) <==> DomainLabels(ls)
  {
    forall l ensures (GoodLabel(l) <==> HostLabel(l)) && (TldLike(l) <==> TopLabel(l)) {}
  }

  // ── The host test decides the shape ──

  lemma LabelsFree(ls: seq<string>, marks: string)
    requires DomainLabels(ls) && forall c | c in marks :: c in "./?#@:"
    ensures forall l | l in ls :: FreeOf(l, marks)
  {
    forall l | l in ls ensures FreeOf(l, marks) {
      HostMarks(l, marks);
    }
  }

  lemma FreeTogether(s: string, t: string, marks: string)
    requires FreeOf(s, marks) && FreeOf(t, marks)
    ensures FreeOf(s + t, marks)
  {
  }

  lemma {:induction false} HostOfAddress(tok: string, user: string, ls: seq<string>, port: string, tail: string)
    requires AddressOf(tok, user, ls, port, tail)
    ensures Host(tok) == Dotted(ls)
  {
    var host := Dotted(ls);
    LabelsFree(ls, "/?#");
    LabelsFree(ls, "@");
    LabelsFree(ls, ":");
    DottedFree(ls, "/?#");
    DottedFree(ls, "@");
    DottedFree(ls, ":");
    FreeTogether(user, host, "/?#");
    FreeTogether(user + host, port, "/?#");
    BeforeMark(user + host + port, tail, "/?#");
    assert user + host + port == user + (host + port);
    FreeTogether(host, port, "@");
    assert '@' !in host + port;
    AfterMark(user, host + port, '@');
    BeforeMark(host, port, ":");
  }

  lemma AddressLooksLikeHost(tok: string, user: string, ls: seq<string>, port: string, tail: string)
    requires AddressOf(tok, user, ls, port, tail)
    ensures LooksLikeHost(tok)
  {
    HostOfAddress(tok, user, ls, port, tail);
    LabelsFree(ls, ".");
    DottedLabels(ls);
    SameLabels(ls);
  }

  /** The token around its host. */
  lemma HostParts(tok: string) returns (user: string, port: string, tail: string)
    ensures UserPart(user) && PortPart(port) && TailPart(tail) && tok == user + Host(tok) + port + tail
  {
    var authority := Before(tok, "/?#");
    tail := CutBefore(tok, "/?#");
    user := CutAfter(authority, '@');
    var after := AfterLast(authority, '@');
    port := CutBefore(after, ":");
    PiecesFree(authority, user, after, Host(tok), port);
    assert tok == user + (Host(tok) + port) + tail;
    Regroup(user, Host(tok), port);
  }

  lemma CutBefore(s: string, stops: string) returns (rest: string)
    ensures s == Before(s, stops) + rest && (rest == "" || rest[0] in stops)
  {
    rest := s[|Before(s, stops)|..];
  }

  lemma CutAfter(s: string, mark: char) returns (front: string)
    ensures s == front + AfterLast(s, mark) && mark !in AfterLast(s, mark) && (front == "" || front[|front| - 1] == mark)
  {
    AfterLastFree(s, mark);
    front := s[..|s| - |AfterLast(s, mark)|];
  }

  lemma PiecesFree(authority: string, user: string, after: string, host: string, port: string)
    requires FreeOf(authority, "/?#") && authority == user + after && '@' !in after && after == host + port
    requires (user == "" || user[|user| - 1] == '@') && (port == "" || port[0] in ":")
    ensures UserPart(user) && PortPart(port)
  {
    assert forall c | c in user :: c in authority;
    forall c | c in port ensures c !in "@/?#" {
      assert c in after && c in authority;
    }
  }

  lemma LooksLikeHostIff(tok: string)
    ensures LooksLikeHost(tok) <==> Address(tok)
  {
    if LooksLikeHost(tok) {
      var user, port, tail := HostParts(tok);
      SameLabels(Labels(Host(tok)));
      LabelsDotted(Host(tok));
      assert AddressOf(tok, user, Labels(Host(tok)), port, tail);
    }
    if Address(tok) {
      var user, ls, port, tail :| AddressOf(tok, user, ls, port, tail);
      AddressLooksLikeHost(tok, user, ls, port, tail);
    }
  }

  lemma PrefixAnyCase(s: string, p: string)
    requires forall c | c in p :: !('A' <= c <= 'Z')
    ensures HasPrefix(s, p) <==> StartsAnyCase(s, p)
  {
    forall k | 0 <= k < |p| && k < |s| ensures Lower(s[k]) == p[k] <==> s[k] == p[k] || ('A' <= s[k] <= 'Z' && s[k] - 'A' + 'a' == p[k]) {
      assert p[k] in p;
    }
  }

  /** A token is flagged exactly when it holds `://`, starts with `www.` or `mailto:`, or is an address. */
  lemma FlaggedIff(tok: string)
    ensures IsLinkable(tok) <==> Live(tok)
  {
    ContainsScheme(tok);
    assert forall c | c in "www." :: !('A' <= c <= 'Z');
    assert forall c | c in "mailto:" :: !('A' <= c <= 'Z');
    PrefixAnyCase(tok, "www.");
    PrefixAnyCase(tok, "mailto:");
    LooksLikeHostIff(tok);
  }

  // ── What is spared ──

  lemma {:induction false} DottedLast(ls: seq<string>)
    requires |ls| >= 2 && '.' !in ls[|ls| - 1]
    ensures '.' in Dotted(ls) && AfterLast(Dotted(ls), '.') == ls[|ls| - 1]
  {
    var rest := Dotted(ls[1..]);
    var head := ls[0] + ".";
    assert Dotted(ls) == head + rest;
    if |ls| == 2 {
      AfterMark(head, rest, '.');
    } else {
      DottedLast(ls[1..]);
      AfterLastKeeps(head, rest, '.');
    }
  }

  lemma {:induction false} AfterLastKeeps(s: string, t: string, mark: char)
    requires mark in t
    ensures AfterLast(s + t, mark) == AfterLast(t, mark)
  {
    var front, c := t[..|t| - 1], t[|t| - 1];
    assert t == front + [c];
    Regroup(s, front, [c]);
    AfterLastSnoc(s + front, c, mark);
    AfterLastSnoc(front, c, mark);
    if c != mark {
      AfterLastKeeps(s, front, mark);
    }
  }

  /**
   * A plain token, with no scheme or prefix and none of the marks of a URL, is spared when it has no dot, or when
   * what follows its last dot is a single letter or holds something other than letters: versions, ratios, abbreviations.
   */
  lemma {:induction false} Spared(tok: string)
    requires FreeOf(tok, "/?#@:") && !StartsAnyCase(tok, "www.")
    requires '.' in tok ==> !TopLabel(AfterLast(tok, '.'))
    ensures !IsLinkable(tok)
  {
    FlaggedIff(tok);
    if Address(tok) {
      var user, ls, port, tail :| AddressOf(tok, user, ls, port, tail);
      PlainAddress(tok, user, ls, port, tail);
      LabelsFree(ls, ".");
      assert ls[|ls| - 1] in ls;
      DottedLast(ls);
      assert false;
    }
    NoMarksNoScheme(tok);
  }

  lemma NoMarksNoScheme(tok: string)
    requires FreeOf(tok, "/?#@:")
    ensures (forall k :: !SchemeAt(tok, k)) && !StartsAnyCase(tok, "mailto:")
  {
    assert "/?#@:"[4] == ':' && "mailto:"[6] == ':';
    forall k | 0 <= k < |tok| ensures tok[k] != ':' {
      assert tok[k] in tok;
    }
  }

  lemma {:induction false} PlainAddress(tok: string, user: string, ls: seq<string>, port: string, tail: string)
    requires AddressOf(tok, user, ls, port, tail) && FreeOf(tok, "/?#@:")
    ensures tok == Dotted(ls)
  {
    if user != "" {
      MarkInside(tok, "", user, Dotted(ls) + port + tail, '@', |user| - 1);
    }
    if port != "" {
      MarkInside(tok, user + Dotted(ls), port, tail, ':', 0);
    }
    if tail != "" {
      MarkInside(tok, user + Dotted(ls) + port, tail, "", tail[0], 0);
    }
    assert "" + Dotted(ls) + "" + "" == Dotted(ls);
  }

  lemma MarkInside(tok: string, a: string, b: string, c: string, mark: char, k: nat)
    requires tok == a + b + c && k < |b| && b[k] == mark
    ensures mark in tok
  {
    assert tok[|a| + k] == mark;
  }

  // ── A text ──

  /** Punctuation around a live token that starts and ends with a letter or digit. */
  ghost predicate Wraps(abc: Alphabet, w: string, lead: string, tok: string, trail: string) {
    && w == lead + tok + trail && tok != "" && abc.alnum(tok[0]) && abc.alnum(tok[|tok| - 1])
    && (forall c | c in lead :: !abc.alnum(c)) && (forall c | c in trail :: !abc.alnum(c))
  }

  ghost predicate LiveWord(abc: Alphabet, w: string) {
    exists lead, tok, trail :: Wraps(abc, w, lead, tok, trail) && Live(tok)
  }

  lemma WrapsCore(abc: Alphabet, w: string, lead: string, tok: string, trail: string)
    requires Wraps(abc, w, lead, tok, trail)
    ensures Core(abc, w) == tok
  {
    CoreOfWrapped(abc, lead, tok, trail);
  }

  lemma BareCore(abc: Alphabet, w: string)
    requires Bare(abc, w)
    ensures Core(abc, w) == ""
  {
    if w != "" {
      BareTrims(abc, w);
    }
  }

  lemma LiveWordIff(abc: Alphabet, w: string)
    ensures Clickable(abc, w) <==> LiveWord(abc, w)
  {
    FlaggedIff(Core(abc, w));
    if Clickable(abc, w) {
      if Bare(abc, w) {
        BareCore(abc, w);
        assert false;
      } else {
        var lead, core, trail := WordParts(abc, w);
        assert Wraps(abc, w, lead, core, trail);
      }
    }
    if LiveWord(abc, w) {
      var lead, tok, trail :| Wraps(abc, w, lead, tok, trail) && Live(tok);
      WrapsCore(abc, w, lead, tok, trail);
    }
  }

  /** The gate finds nothing exactly in a text none of whose words wraps something live. */
  lemma {:induction false} GateMeaning(abc: Alphabet, text: string)
    ensures FirstLinkableToken(abc, text) == None <==> forall w | w in Words(abc.space, text) :: !LiveWord(abc, w)
  {
    NoneClickable(abc, Words(abc.space, text));
    forall w ensures Clickable(abc, w) <==> LiveWord(abc, w) {
      LiveWordIff(abc, w);
    }
  }

  /** The first clickable word, or its place among those after the first. */
  ghost predicate FirstIs(ws: seq<string>, live: string -> bool, k: nat) {
    k < |ws| && live(ws[k]) && forall j | 0 <= j < k :: !live(ws[j])
  }

  lemma FirstShifts(ws: seq<string>, live: string -> bool, l: nat)
    requires ws != [] && !live(ws[0]) && FirstIs(ws[1..], live, l)
    ensures FirstIs(ws, live, l + 1) && ws[l + 1] == ws[1..][l]
  {
    forall j | 0 <= j < l + 1 ensures !live(ws[j]) {
      assert j > 0 ==> ws[j] == ws[1..][j - 1];
    }
  }

  function Clicks(abc: Alphabet): string -> bool {
    (w: string) => Clickable(abc, w)
  }

  function Cores(abc: Alphabet): string -> string {
    (w: string) => Core(abc, w)
  }

  /** What the first live word holds. */
  function FirstMatch(ws: seq<string>, live: string -> bool, core: string -> string): Option<string> {
    if ws == [] then None else if live(ws[0]) then Some(core(ws[0])) else FirstMatch(ws[1..], live, core)
  }

  lemma {:induction false} ClickIsMatch(abc: Alphabet, ws: seq<string>)
    ensures FirstClickable(abc, ws) == FirstMatch(ws, Clicks(abc), Cores(abc))
  {
    if ws != [] {
      ClickIsMatch(abc, ws[1..]);
    }
  }

  lemma {:induction false} MatchAt(ws: seq<string>, live: string -> bool, core: string -> string) returns (k: nat)
    requires FirstMatch(ws, live, core).Some?
    ensures FirstIs(ws, live, k) && FirstMatch(ws, live, core) == Some(core(ws[k]))
  {
    if live(ws[0]) {
      k := 0;
    } else {
      k := MatchAt(ws[1..], live, core);
      FirstShifts(ws, live, k);
      k := k + 1;
    }
  }

  lemma FirstAt(abc: Alphabet, ws: seq<string>) returns (k: nat)
    requires FirstClickable(abc, ws).Some?
    ensures FirstIs(ws, Clicks(abc), k) && FirstClickable(abc, ws) == Some(Core(abc, ws[k]))
  {
    ClickIsMatch(abc, ws);
    k := MatchAt(ws, Clicks(abc), Cores(abc));
  }

  /** What it finds is the live token that the first such word wraps. */
  lemma GateFindsFirst(abc: Alphabet, text: string) returns (k: nat, lead: string, trail: string)
    requires FirstLinkableToken(abc, text).Some?
    ensures var ws, tok := Words(abc.space, text), FirstLinkableToken(abc, text).value;
      k < |ws| && Wraps(abc, ws[k], lead, tok, trail) && Live(tok) && forall j | 0 <= j < k :: !LiveWord(abc, ws[j])
  {
    var ws := Words(abc.space, text);
    k := FirstAt(abc, ws);
    assert Clicks(abc)(ws[k]);
    LiveWordIff(abc, ws[k]);
    var tok;
    lead, tok, trail :| Wraps(abc, ws[k], lead, tok, trail) && Live(tok);
    WrapsCore(abc, ws[k], lead, tok, trail);
    forall j | 0 <= j < k ensures !LiveWord(abc, ws[j]) {
      assert !Clicks(abc)(ws[j]);
      LiveWordIff(abc, ws[j]);
    }
  }

  /** The backstop leaves every word that wraps nothing live as it was. */
  lemma {:induction false} CleanWordsKept(abc: Alphabet, text: string, k: nat)
    requires Sane(abc) && Defanged(abc, text).Some? && k < |Words(abc.space, text)| && !LiveWord(abc, Words(abc.space, text)[k])
    ensures var after := Words(abc.space, Defanged(abc, text).value); k < |after| && after[k] == Words(abc.space, text)[k]
  {
    if FirstLinkableToken(abc, text).Some? {
      var before := Words(abc.space, text);
      FixedWords(abc, text);
      WordsAreWords(abc.space, text);
      assert before[k] in before;
      FixMeaning(abc, before[k]);
      LiveWordIff(abc, before[k]);
      KeptWord(abc, before[k]);
    }
  }

  lemma KeptWord(abc: Alphabet, w: string)
    requires !Bare(abc, w) && !Clickable(abc, w)
    ensures DefangWord(abc, w) == w
  {
  }

  lemma {:induction false} FixedWords(abc: Alphabet, text: string)
    requires Sane(abc) && Defanged(abc, text).Some? && FirstLinkableToken(abc, text).Some?
    ensures Fixed(Fix(abc), Words(abc.space, text), Words(abc.space, Defanged(abc, text).value))
    ensures forall w | w in Words(abc.space, text) :: !Bare(abc, w)
  {
    forall w | IsWord(abc.space, w) && Fix(abc)(w).Some? ensures IsWord(abc.space, Fix(abc)(w).value) {
      FixMeaning(abc, w);
      FixedWordInert(abc, w);
    }
    RewriteWords(abc.space, Fix(abc), text);
    DefangPanicsIff(abc, text);
  }

  // ── For instance ──

  lemma AcmeIsAddress()
    ensures Live("acme.com")
  {
    assert Dotted(["acme", "com"]) == "acme" + "." + "com" == "acme.com";
    assert "acme.com" == "" + "acme.com" + "" + "";
    assert AddressOf("acme.com", "", ["acme", "com"], "", "");
  }

  /** A live token standing as a word of its own, anywhere in the text, is not missed. */
  lemma LiveWordFound(abc: Alphabet, text: string, tok: string)
    requires tok in Words(abc.space, text) && Live(tok) && tok != "" && abc.alnum(tok[0]) && abc.alnum(tok[|tok| - 1])
    ensures FirstLinkableToken(abc, text).Some?
  {
    assert tok == "" + tok + "";
    assert Wraps(abc, tok, "", tok, "");
    assert LiveWord(abc, tok);
    GateMeaning(abc, text);
  }

  /** For instance, a bare domain in the middle of a sentence. */
  lemma BareDomainFound(abc: Alphabet)
    requires Sane(abc) && abc.space(' ')
    ensures FirstLinkableToken(abc, "see acme.com today").Some?
  {
    SentenceWords(abc);
    AcmeIsAddress();
    var tok := "acme.com";
    assert AsciiAlnum(tok[0]) && AsciiAlnum(tok[|tok| - 1]);
    LiveWordFound(abc, "see acme.com today", tok);
  }

  lemma SentenceWords(abc: Alphabet)
    requires Sane(abc) && abc.space(' ')
    ensures "acme.com" in Words(abc.space, "see acme.com today")
  {
    assert "see acme.com today" == "" + "see" + " acme.com today" && " acme.com today" == " " + "acme.com" + " today";
    assert forall c | c in "see" :: AsciiAlnum(c);
    assert forall c | c in "acme.com" :: AsciiAlnum(c) || c == '.';
    assert '.' in ".:/[]@-";
    WordsSplit(abc.space, "", "see", " acme.com today");
    WordsSplit(abc.space, " ", "acme.com", " today");
  }
}
