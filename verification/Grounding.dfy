/** The grounding gate: a proposed entity passes only if its words stand, in order, within one field of the text. */
module Grounding {
  import opened Ordering
  import opened Tokens

  /** Unicode letters and digits, and their lower-case forms. */
  datatype Script = Script(alnum: char -> bool, lower: char -> string)

  predicate NoSpace(s: string) {
    forall c | c in s :: c != ' '
  }

  /** A space is no letter, and lower-casing a letter yields something without spaces. */
  ghost predicate Sane(sc: Script) {
    !sc.alnum(' ') && forall c | sc.alnum(c) :: sc.lower(c) != "" && NoSpace(sc.lower(c))
  }

  // ── Normalizing ──

  function Break(sc: Script): char -> bool {
    c => !sc.alnum(c)
  }

  function LowerAll(sc: Script, s: string): string {
    if s == "" then "" else sc.lower(s[0]) + LowerAll(sc, s[1..])
  }

  function LowerWords(sc: Script, ws: seq<string>): (r: seq<string>)
    ensures |r| == |ws|
  {
    if ws == [] then [] else [LowerAll(sc, ws[0])] + LowerWords(sc, ws[1..])
  }

  /** The lower-cased runs of letters and digits: what normalization keeps of a text. */
  function NormalWords(sc: Script, s: string): seq<string> {
    LowerWords(sc, Words(Break(sc), s))
  }

  function Join(ws: seq<string>): string {
    if ws == [] then "" else if |ws| == 1 then ws[0] else ws[0] + " " + Join(ws[1..])
  }

  /** What the rest of the text adds to the output, given whether a space was just written and whether anything was. */
  function NormFrom(sc: Script, s: string, prevSpace: bool, started: bool): string {
    if s == "" then ""
    else if sc.alnum(s[0]) then sc.lower(s[0]) + NormFrom(sc, s[1..], false, true)
    else if !prevSpace && started then " " + NormFrom(sc, s[1..], true, true)
    else NormFrom(sc, s[1..], prevSpace, started)
  }

  function TrimLast(s: string): string {
    if s != "" && s[|s| - 1] == ' ' then s[..|s| - 1] else s
  }

  /** Lower-cases, turns every run of other characters into one space, trims. */
  method NormalizeText(sc: Script, s: string) returns (r: string)
    requires Sane(sc)
    ensures r == TrimLast(NormFrom(sc, s, false, false))
  {
    var out, prevSpace := "", false;
    for k := 0 to |s|
      invariant out + NormFrom(sc, s[k..], prevSpace, out != "") == NormFrom(sc, s, false, false)
    {
      var c := s[k];
      NormStep(sc, out, s[k..], prevSpace);
      assert s[k..][1..] == s[k + 1..];
      if sc.alnum(c) {
        out := out + sc.lower(c);
        prevSpace := false;
      } else if !prevSpace && out != "" {
        out := out + " ";
        prevSpace := true;
      }
    }
    assert out + "" == out;
    r := TrimLast(out);
  }

  lemma NormStep(sc: Script, out: string, rest: string, prevSpace: bool)
    requires Sane(sc) && rest != ""
    ensures sc.alnum(rest[0]) ==>
      out + sc.lower(rest[0]) != "" && out + NormFrom(sc, rest, prevSpace, out != "") == out + sc.lower(rest[0]) + NormFrom(sc, rest[1..], false, true)
    ensures !sc.alnum(rest[0]) && !prevSpace && out != "" ==>
      out + NormFrom(sc, rest, prevSpace, out != "") == out + " " + NormFrom(sc, rest[1..], true, true)
    ensures !sc.alnum(rest[0]) && !(!prevSpace && out != "") ==>
      NormFrom(sc, rest, prevSpace, out != "") == NormFrom(sc, rest[1..], prevSpace, out != "")
  {
    if sc.alnum(rest[0]) {
      Regroup(out, sc.lower(rest[0]), NormFrom(sc, rest[1..], false, true));
    } else {
      Regroup(out, " ", NormFrom(sc, rest[1..], true, true));
    }
  }

  // ── Containment ──

  /** The value's text without a leading definite article; a bare "the" stays. */
  function StripArticle(s: string): string {
    if StartsWith(s, "the ") then s[4..] else s
  }

  function Padded(s: string): string {
    " " + s + " "
  }

  function Slug(s: string): string {
    if s == "" then "" else (if s[0] == ' ' then "-" else [s[0]]) + Slug(s[1..])
  }

  predicate FoundIn(haystacks: seq<string>, p: string) {
    exists h | h in haystacks :: Contains(h, p)
  }

  lemma {:induction false} FoundInSnoc(haystacks: seq<string>, h: string, p: string)
    ensures FoundIn(haystacks + [h], p) <==> FoundIn(haystacks, p) || Contains(h, p)
  {
    if x :| x in haystacks && Contains(x, p) {
      assert x in haystacks + [h];
    }
    assert h in haystacks + [h];
  }

  /** The token of a value whose needle stands in one of the padded haystacks. */
  function TokenOf(namespace: string, needle: string, haystacks: seq<string>): Option<string> {
    if needle != "" && FoundIn(haystacks, Padded(needle)) then Some(namespace + ":" + Slug(needle))
    else None
  }

  method GroundedToken(sc: Script, namespace: string, value: string, haystacks: seq<string>) returns (token: Option<string>)
    requires Sane(sc)
    ensures token == TokenOf(namespace, StripArticle(TrimLast(NormFrom(sc, value, false, false))), haystacks)
  {
    var normalized := NormalizeText(sc, value);
    var needle := StripArticle(normalized);
    if needle == "" {
      return None;
    }
    var found := false;
    for k := 0 to |haystacks|
      invariant found <==> FoundIn(haystacks[..k], Padded(needle))
    {
      FoundInSnoc(haystacks[..k], haystacks[k], Padded(needle));
      assert haystacks[..k + 1] == haystacks[..k] + [haystacks[k]];
      found := found || Contains(haystacks[k], Padded(needle));
    }
    assert haystacks[..|haystacks|] == haystacks;
    if !found {
      return None;
    }
    token := Some(namespace + ":" + Slug(needle));
  }

  // ── The gate over a whole proposal ──

  /** A namespace with the values proposed for it. */
  datatype Proposal = Proposal(namespace: string, values: seq<string>)

  function Normalized(sc: Script, s: string): string {
    TrimLast(NormFrom(sc, s, false, false))
  }

  /** Title and body stay separate, so nothing grounds across the two. */
  function Haystacks(sc: Script, title: string, body: Option<string>): seq<string> {
    [Padded(Normalized(sc, title))] + if body.Some? && body.value != "" then [Padded(Normalized(sc, body.value))] else []
  }

  /** Some of the values of a namespace yields the token. */
  ghost predicate ValuesYield(sc: Script, namespace: string, values: seq<string>, haystacks: seq<string>, token: string) {
    exists v | v in values :: TokenOf(namespace, StripArticle(Normalized(sc, v)), haystacks) == Some(token)
  }

  /** Some proposed value yields the token. */
  ghost predicate Yields(sc: Script, ps: seq<Proposal>, haystacks: seq<string>, token: string) {
    exists p | p in ps :: ValuesYield(sc, p.namespace, p.values, haystacks, token)
  }

  lemma ValuesYieldSnoc(sc: Script, namespace: string, values: seq<string>, v: string, haystacks: seq<string>, token: string)
    ensures ValuesYield(sc, namespace, values + [v], haystacks, token)
       <==> ValuesYield(sc, namespace, values, haystacks, token)
            || TokenOf(namespace, StripArticle(Normalized(sc, v)), haystacks) == Some(token)
  {
    if x :| x in values && TokenOf(namespace, StripArticle(Normalized(sc, x)), haystacks) == Some(token) {
      assert x in values + [v];
    }
    assert v in values + [v];
  }

  method GroundProposal(sc: Script, p: Proposal, haystacks: seq<string>) returns (out: seq<string>)
    requires Sane(sc)
    ensures forall t :: t in out <==> ValuesYield(sc, p.namespace, p.values, haystacks, t)
  {
    out := [];
    for k := 0 to |p.values|
      invariant forall t :: t in out <==> ValuesYield(sc, p.namespace, p.values[..k], haystacks, t)
    {
      var token := GroundedToken(sc, p.namespace, p.values[k], haystacks);
      forall t ensures ValuesYield(sc, p.namespace, p.values[..k + 1], haystacks, t)
        <==> ValuesYield(sc, p.namespace, p.values[..k], haystacks, t) || token == Some(t) {
        ValuesYieldSnoc(sc, p.namespace, p.values[..k], p.values[k], haystacks, t);
        assert p.values[..k + 1] == p.values[..k] + [p.values[k]];
      }
      if token.Some? {
        out := out + [token.value];
      }
    }
    assert p.values[..|p.values|] == p.values;
  }

  method GroundEntities(sc: Script, title: string, body: Option<string>, ps: seq<Proposal>) returns (out: seq<string>)
    requires Sane(sc)
    ensures Ascending(StringLe, out) && forall t :: t in out <==> Yields(sc, ps, Haystacks(sc, title, body), t)
  {
    var t := NormalizeText(sc, title);
    var haystacks := [Padded(t)];
    if body.Some? && body.value != "" {
      var b := NormalizeText(sc, body.value);
      haystacks := haystacks + [Padded(b)];
    }
    assert haystacks == Haystacks(sc, title, body);
    var found: seq<string> := [];
    for k := 0 to |ps|
      invariant forall t :: t in found <==> Yields(sc, ps[..k], haystacks, t)
    {
      var more := GroundProposal(sc, ps[k], haystacks);
      forall t ensures Yields(sc, ps[..k + 1], haystacks, t) <==> (Yields(sc, ps[..k], haystacks, t) || t in more) {
        YieldsNext(sc, ps, k, haystacks, t);
      }
      found := found + more;
    }
    assert ps[..|ps|] == ps;
    StringOrder();
    KeysAscending(StringLe, found);
    out := Keys(StringLe, found);
  }

  lemma YieldsNext(sc: Script, ps: seq<Proposal>, k: nat, haystacks: seq<string>, t: string)
    requires k < |ps|
    ensures Yields(sc, ps[..k + 1], haystacks, t) <==> Yields(sc, ps[..k], haystacks, t) || ValuesYield(sc, ps[k].namespace, ps[k].values, haystacks, t)
  {
    assert ps[..k + 1] == ps[..k] + [ps[k]];
    if p :| p in ps[..k] && ValuesYield(sc, p.namespace, p.values, haystacks, t) {
      assert p in ps[..k + 1];
    }
    assert ps[k] in ps[..k + 1];
  }
}
