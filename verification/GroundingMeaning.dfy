/** Which tokens an enrichment proposal yields, and what they look like. */
module GroundingMeaning {
  import opened Ordering
  import opened Grounding
  import opened GroundingLaws

  /** The words joined by hyphens. */
  function Hyphened(ws: seq<string>): string {
    if ws == [] then "" else if |ws| == 1 then ws[0] else ws[0] + "-" + Hyphened(ws[1..])
  }

  lemma {:induction false} SlugOfPlain(w: string)
    requires NoSpace(w)
    ensures Slug(w) == w
  {
    if w != "" {
      assert w[0] in w && forall c | c in w[1..] :: c in w;
      SlugOfPlain(w[1..]);
    }
  }

  lemma {:induction false} SlugAppend(a: string, b: string)
    ensures Slug(a + b) == Slug(a) + Slug(b)
  {
    if a == "" {
      assert a + b == b;
    } else {
      assert (a + b)[1..] == a[1..] + b;
      SlugAppend(a[1..], b);
    }
  }

  lemma SlugOfTwo(a: string, b: string)
    ensures Slug(a + " " + b) == Slug(a) + "-" + Slug(b)
  {
    SlugAppend(a + " ", b);
    SlugAppend(a, " ");
    assert " "[1..] == "";
  }

  lemma {:induction false} SlugOfJoin(ws: seq<string>)
    requires AllPlain(ws)
    ensures Slug(Join(ws)) == Hyphened(ws)
  {
    if ws != [] {
      assert ws[0] in ws && forall w | w in ws[1..] :: w in ws;
      SlugOfPlain(ws[0]);
      if |ws| > 1 {
        SlugOfJoin(ws[1..]);
        SlugOfTwo(ws[0], Join(ws[1..]));
      }
    }
  }

  /** A value's words stand together in the title, or in the body. */
  ghost predicate Grounded(sc: Script, value: string, title: string, body: Option<string>) {
    && NeedleWords(sc, value) != []
    && (StandsIn(NeedleWords(sc, value), NormalWords(sc, title))
        || (body.Some? && StandsIn(NeedleWords(sc, value), NormalWords(sc, body.value))))
  }

  /** A grounded value becomes its namespace, a colon, and its words with hyphens between; any other becomes nothing. */
  lemma TokenMeaning(sc: Script, namespace: string, value: string, title: string, body: Option<string>)
    requires Sane(sc)
    ensures TokenOf(namespace, StripArticle(Normalized(sc, value)), Haystacks(sc, title, body))
         == if Grounded(sc, value, title, body) then Some(namespace + ":" + Hyphened(NeedleWords(sc, value))) else None
  {
    GroundsIff(sc, namespace, value, title, body);
    NeedleIsJoin(sc, value);
    SlugOfJoin(NeedleWords(sc, value));
  }

  /** Some proposed value of some namespace is grounded and becomes the token. */
  ghost predicate Proposed(sc: Script, ps: seq<Proposal>, title: string, body: Option<string>, token: string) {
    exists p, v | p in ps && v in p.values ::
      Grounded(sc, v, title, body) && token == p.namespace + ":" + Hyphened(NeedleWords(sc, v))
  }

  /** What the gate lets through of a whole proposal. */
  lemma YieldsMeaning(sc: Script, ps: seq<Proposal>, title: string, body: Option<string>, token: string)
    requires Sane(sc)
    ensures Yields(sc, ps, Haystacks(sc, title, body), token) <==> Proposed(sc, ps, title, body, token)
  {
    var hs := Haystacks(sc, title, body);
    if Yields(sc, ps, hs, token) {
      var p :| p in ps && ValuesYield(sc, p.namespace, p.values, hs, token);
      var v :| v in p.values && TokenOf(p.namespace, StripArticle(Normalized(sc, v)), hs) == Some(token);
      TokenMeaning(sc, p.namespace, v, title, body);
    }
    if Proposed(sc, ps, title, body, token) {
      var p, v :| p in ps && v in p.values && Grounded(sc, v, title, body) && token == p.namespace + ":" + Hyphened(NeedleWords(sc, v));
      TokenMeaning(sc, p.namespace, v, title, body);
      assert ValuesYield(sc, p.namespace, p.values, hs, token);
    }
  }
}
