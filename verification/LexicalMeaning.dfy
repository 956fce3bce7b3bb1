/** Lexical similarity by words and by letter pairs. */
module LexicalMeaning {
  import opened Tokens
  import opened Lexical

  /** Spaces, hyphens, underscores and slashes come between words. */
  function Between(): char -> bool {
    (c: char) => c == ' ' || c == '-' || c == '_' || c == '/'
  }

  ghost function WordSet(s: string): set<string> {
    set w | w in Words(Between(), s)
  }

  lemma {:induction false} PieceFirst(space: char -> bool, piece: string, s: string)
    requires IsWord(space, piece) && (s == "" || space(s[0]))
    ensures Words(space, piece + s) == [piece] + Words(space, s)
  {
    assert "" + piece == piece;
    WordsSplit(space, "", piece, s);
  }

  lemma NoWords()
    ensures Words(Between(), "") == []
  {
  }

  lemma SetCons(x: string, ws: seq<string>)
    ensures (set w | w in [x] + ws) == {x} + set w | w in ws
  {
  }

  lemma LastPiece(piece: string)
    requires piece == "" || IsWord(Between(), piece)
    ensures WordSet(piece) == if piece == "" then {} else {piece}
  {
    NoWords();
    if piece != "" {
      PieceFirst(Between(), piece, "");
      assert piece + "" == piece;
      SetCons(piece, []);
    }
  }

  lemma PieceEnds(s: string, piece: string)
    requires (piece == "" || IsWord(Between(), piece)) && s != "" && Between()(s[0])
    ensures WordSet(piece + s) == (if piece == "" then {} else {piece}) + WordSet(s[1..])
  {
    LeadingSpace(Between(), s);
    if piece != "" {
      PieceFirst(Between(), piece, s);
      SetCons(piece, Words(Between(), s));
    } else {
      assert piece + s == s;
    }
  }

  /** Reading a piece at a time gathers the words. */
  lemma {:induction false} PiecesAreWords(s: string, piece: string)
    requires piece == "" || IsWord(Between(), piece)
    ensures Pieces(s, piece) == WordSet(piece + s)
    decreases |s|
  {
    if s == "" {
      assert piece + s == piece;
      LastPiece(piece);
    } else if Between()(s[0]) {
      PiecesAreWords(s[1..], "");
      assert "" + s[1..] == s[1..];
      PieceEnds(s, piece);
    } else {
      PiecesAreWords(s[1..], piece + [s[0]]);
      MoveFirst(piece, s);
    }
  }

  lemma MoveFirst(piece: string, s: string)
    requires s != ""
    ensures piece + [s[0]] + s[1..] == piece + s
  {
  }

  /** The adjacent pairs of letters of a token, as often as they occur. */
  function LetterPairs(s: string): multiset<(char, char)> {
    if |s| < 2 then multiset{} else multiset{(s[0], s[1])} + LetterPairs(s[1..])
  }

  lemma {:induction false} BigramsCons(s: string)
    requires |s| >= 2
    ensures Bigrams(s) == [(s[0], s[1])] + Bigrams(s[1..])
  {
  }

  lemma {:induction false} BigramsArePairs(s: string)
    ensures multiset(Bigrams(s)) == LetterPairs(s)
  {
    if |s| >= 2 {
      BigramsArePairs(s[1..]);
      BigramsCons(s);
    } else {
      assert Bigrams(s) == [];
    }
  }

  ghost function Share(part: int, whole: int): real {
    if whole == 0 then 0.0 else part as real / whole as real
  }

  /** Twice the shared letter pairs over all of them; nothing for a token too short to have any. */
  ghost function PairShare(a: string, b: string): real {
    if |a| < 2 || |b| < 2 then 0.0 else Share(2 * |LetterPairs(a) * LetterPairs(b)|, (|a| - 1) + (|b| - 1))
  }

  lemma DiceByPairs(a: string, b: string, x: multiset<(char, char)>, y: multiset<(char, char)>)
    requires x == multiset(Bigrams(a)) && y == multiset(Bigrams(b))
    ensures Dice(a, b) == if |a| < 2 || |b| < 2 then 0.0 else Share(2 * |x * y|, (|a| - 1) + (|b| - 1))
  {
  }

  lemma DiceIsPairShare(a: string, b: string)
    ensures Dice(a, b) == PairShare(a, b)
  {
    BigramsArePairs(a);
    BigramsArePairs(b);
    DiceByPairs(a, b, LetterPairs(a), LetterPairs(b));
  }

  lemma {:induction false} WordsOf(s: string)
    ensures Pieces(s, "") == WordSet(s)
  {
    PiecesAreWords(s, "");
    assert "" + s == s;
  }

  /** Shared words over all words when either token has several; shared letter pairs otherwise. */
  lemma SimilarityMeaning(a: string, b: string)
    ensures Similarity(a, b) ==
      if a == b then 1.0
      else if a == "" || b == "" then 0.0
      else if |WordSet(a)| > 1 || |WordSet(b)| > 1 then Share(|WordSet(a) * WordSet(b)|, |WordSet(a) + WordSet(b)|)
      else PairShare(a, b)
  {
    WordsOf(a);
    WordsOf(b);
    DiceIsPairShare(a, b);
  }
}
