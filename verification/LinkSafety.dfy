/** Keeping clickable-looking text out of prose: the token test, the gate, and the rewriting backstop. */
module LinkSafety {
  import opened Ordering
  import opened Tokens

  /** The character classes the scanner asks about, beyond the ASCII ones. */
  datatype Alphabet = Alphabet(alnum: char -> bool, space: char -> bool)

  predicate AsciiLetter(c: char) {
    'a' <= c <= 'z' || 'A' <= c <= 'Z'
  }

  predicate AsciiAlnum(c: char) {
    AsciiLetter(c) || '0' <= c <= '9'
  }

  /** What the proofs need of the classes: the marks that shape a URL are neither letters nor spaces. */
  ghost predicate Sane(abc: Alphabet) {
    && (forall c | AsciiAlnum(c) :: abc.alnum(c))
    && (forall c | abc.alnum(c) :: !abc.space(c))
    && (forall c | c in ".:/[]@-" :: !abc.alnum(c) && !abc.space(c))
  }

  function Lower(c: char): char {
    if 'A' <= c <= 'Z' then c - 'A' + 'a' else c
  }

  // ── Strings ──

  /** Whether `p`, given in lower case, starts `s`, ignoring ASCII case. */
  predicate HasPrefix(s: string, p: string) {
    |s| >= |p| && forall k | 0 <= k < |p| :: Lower(s[k]) == p[k]
  }

  /** Everything before the first of `stops`. */
  function Before(s: string, stops: string): (r: string)
    ensures r <= s && (forall c | c in r :: c !in stops) && (r == s || s[|r|] in stops)
  {
    if s == "" || s[0] in stops then ""
    else
      assert s == [s[0]] + s[1..];
      [s[0]] + Before(s[1..], stops)
  }

  /** Everything after the last `mark`. */
  function AfterLast(s: string, mark: char): (r: string)
    ensures |r| <= |s| && r == s[|s| - |r|..]
  {
    if s == "" || s[|s| - 1] == mark then ""
    else
      assert s == s[..|s| - 1] + [s[|s| - 1]];
      AfterLast(s[..|s| - 1], mark) + [s[|s| - 1]]
  }

  // ── What looks clickable ──

  predicate GoodLabel(part: string) {
    part != "" && forall c | c in part :: AsciiAlnum(c) || c == '-'
  }

  predicate TldLike(part: string) {
    |part| >= 2 && forall c | c in part :: AsciiLetter(c)
  }

  /** The dot-separated labels of a host. */
  function Labels(host: string): (ls: seq<string>)
    ensures |ls| >= 1 && ls[0] == Before(host, ".")
  {
    var first := Before(host, ".");
    if first == host then [host] else [first] + Labels(host[|first| + 1..])
  }

  /** The authority without userinfo and port. */
  function Host(tok: string): string {
    Before(AfterLast(Before(tok, "/?#"), '@'), ":")
  }

  predicate LooksLikeHost(tok: string) {
    HostLabels(Labels(Host(tok)))
  }

  predicate IsLinkable(tok: string) {
    Contains(tok, "://") || HasPrefix(tok, "www.") || HasPrefix(tok, "mailto:") || LooksLikeHost(tok)
  }

  /** At least two labels, all well-formed, the last like a top-level domain. */
  predicate HostLabels(ls: seq<string>) {
    |ls| >= 2 && (forall l | l in ls :: GoodLabel(l)) && TldLike(ls[|ls| - 1])
  }

  /** The host test as it runs: one pass over the labels. */
  method CheckLabels(ls: seq<string>) returns (b: bool)
    ensures b == HostLabels(ls)
  {
    var count, last := 0, "";
    for k := 0 to |ls|
      invariant count == k && (forall l | l in ls[..k] :: GoodLabel(l)) && (k > 0 ==> last == ls[k - 1])
    {
      assert ls[..k + 1] == ls[..k] + [ls[k]];
      assert ls[k] in ls;
      if !GoodLabel(ls[k]) {
        return false;
      }
      count, last := count + 1, ls[k];
    }
    assert ls[..|ls|] == ls;
    b := count >= 2 && TldLike(last);
  }

  // ── Words and their cores ──

  function TrimStart(abc: Alphabet, w: string): (r: string)
    ensures |r| <= |w| && r == w[|w| - |r|..] && (r == "" || abc.alnum(r[0]))
    ensures forall k | 0 <= k < |w| - |r| :: !abc.alnum(w[k])
  {
    if w == "" || abc.alnum(w[0]) then w else TrimStart(abc, w[1..])
  }

  function TrimEnd(abc: Alphabet, w: string): (r: string)
    ensures r <= w && (r == "" || abc.alnum(r[|r| - 1]))
    ensures forall k | |r| <= k < |w| :: !abc.alnum(w[k])
  {
    if w == "" || abc.alnum(w[|w| - 1]) then w else TrimEnd(abc, w[..|w| - 1])
  }

  /** A word without its surrounding punctuation. */
  function Core(abc: Alphabet, w: string): string {
    TrimEnd(abc, TrimStart(abc, w))
  }

  predicate Clickable(abc: Alphabet, w: string) {
    Core(abc, w) != "" && IsLinkable(Core(abc, w))
  }

  /** A word made of punctuation alone. */
  predicate Bare(abc: Alphabet, w: string) {
    forall c | c in w :: !abc.alnum(c)
  }

  function FirstClickable(abc: Alphabet, ws: seq<string>): Option<string> {
    if ws == [] then None
    else if Clickable(abc, ws[0]) then Some(Core(abc, ws[0]))
    else FirstClickable(abc, ws[1..])
  }

  /** The gate: the first clickable-looking token of a text. */
  function FirstLinkableToken(abc: Alphabet, text: string): Option<string> {
    FirstClickable(abc, Words(abc.space, text))
  }

  // ── Rewriting ──

  function CageDots(s: string): string {
    if s == "" then "" else (if s[0] == '.' then "[.]" else [s[0]]) + CageDots(s[1..])
  }

  /** Breaks every scheme marker, left to right. */
  function CageSchemes(s: string): string
    decreases |s|
  {
    if s == "" then ""
    else if StartsWith(s, "://") then "[:]//" + CageSchemes(s[3..])
    else [s[0]] + CageSchemes(s[1..])
  }

  function CageMailto(s: string): string {
    if HasPrefix(s, "mailto:") then s[..6] + "[:]" + s[7..] else s
  }

  function Neutralize(core: string): string {
    CageMailto(CageSchemes(CageDots(core)))
  }

  /** A word with its core neutralized where it looks clickable, its surrounding punctuation kept. */
  function DefangWord(abc: Alphabet, w: string): string
    requires !Bare(abc, w)
  {
    var lead, trail := |w| - |TrimStart(abc, w)|, |w| - |TrimEnd(abc, w)|;
    CoreSlice(abc, w);
    if Clickable(abc, w) then w[..lead] + Neutralize(w[lead..|w| - trail]) + w[|w| - trail..] else w
  }

  lemma {:induction false} TrimEndOfSuffix(abc: Alphabet, w: string, lead: nat, k: nat)
    requires lead <= k < |w| && abc.alnum(w[k])
    ensures |TrimEnd(abc, w)| > k && TrimEnd(abc, w[lead..]) == TrimEnd(abc, w)[lead..]
  {
    var n := |w| - 1;
    if !abc.alnum(w[n]) {
      TrimEndOfSuffix(abc, w[..n], lead, k);
      assert w[lead..][..n - lead] == w[..n][lead..];
    }
  }

  /** `core` is what the two trim lengths leave of a word. */
  ghost predicate Between(w: string, s: string, e: string, core: string) {
    |s| <= |w| && |e| <= |w| && |w| - |s| < |e| && core == w[|w| - |s|..|e|]
  }

  lemma {:induction false} CoreAt(abc: Alphabet, w: string, s: string, e: string, k: nat)
    requires k < |w| && abc.alnum(w[k]) && s == TrimStart(abc, w) && e == TrimEnd(abc, w)
    ensures Between(w, s, e, TrimEnd(abc, s))
  {
    TrimEndOfSuffix(abc, w, |w| - |s|, k);
    SliceOf(w, e, |w| - |s|);
  }

  /** For a word with a letter or digit in it, the two trim lengths delimit its core. */
  lemma {:induction false} CoreSlice(abc: Alphabet, w: string)
    requires !Bare(abc, w)
    ensures var lead, trail := |w| - |TrimStart(abc, w)|, |w| - |TrimEnd(abc, w)|;
      lead < |w| - trail && Core(abc, w) == w[lead..|w| - trail]
  {
    var k := AlnumAt(abc, w);
    CoreAt(abc, w, TrimStart(abc, w), TrimEnd(abc, w), k);
  }

  lemma AlnumAt(abc: Alphabet, w: string) returns (k: nat)
    requires !Bare(abc, w)
    ensures k < |w| && abc.alnum(w[k])
  {
    var c :| c in w && abc.alnum(c);
    k :| k < |w| && w[k] == c;
  }

  lemma SliceOf(w: string, front: string, lead: nat)
    requires front <= w && lead <= |front|
    ensures front[lead..] == w[lead..|front|]
  {
  }

  /** A word with what stands between two positions neutralized, if that looks clickable. */
  function Splice(w: string, lead: nat, end: nat): string
    requires lead <= end <= |w|
  {
    var core := w[lead..end];
    if core != "" && IsLinkable(core) then w[..lead] + Neutralize(core) + w[end..] else w
  }

  /** What the loop does with one word. `None` is the panic of a slice whose start lies past its end. */
  function Fix(abc: Alphabet): string -> Option<string> {
    w =>
      var lead, trail := |w| - |TrimStart(abc, w)|, |w| - |TrimEnd(abc, w)|;
      if lead > |w| - trail then None else Some(Splice(w, lead, |w| - trail))
  }

  function Defanged(abc: Alphabet, text: string): Option<string> {
    if FirstLinkableToken(abc, text) == None then Some(text) else Rewrite(abc.space, Fix(abc), text)
  }

  /** The backstop. */
  method Defang(abc: Alphabet, text: string) returns (out: Option<string>)
    ensures out == Defanged(abc, text)
  {
    if FirstLinkableToken(abc, text) == None {
      return Some(text);
    }
    out := RewriteLoop(abc.space, Fix(abc), text);
  }
}
