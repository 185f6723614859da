/** A playing card: a (suit, rank) pair, its blackjack value and its display form
    (class Card of BlackJack.py). */
module Cards {
  import opened Wrappers

  /** Suits 0..3, in the order hearts, spades, diamonds, clubs. */
  type Suit = s: nat | s < 4

  /** Ranks 0..12: 0 is the Ace, 1..9 stand for the numerals 2..10, 10..12 for J, Q, K. */
  type Rank = r: nat | r < 13

  datatype Card = Card(suit: Suit, rank: Rank)

  predicate IsAce(c: Card) { c.rank == 0 }

  /** The value a card adds to a hand before any Ace is downgraded. */
  function Value(c: Card): (v: nat)
    ensures 2 <= v <= 11
    ensures v == 11 <==> IsAce(c)
    ensures c.rank >= 9 ==> v == 10
    ensures 1 <= c.rank <= 9 ==> v == c.rank + 1
  {
    if c.rank == 0 then 11
    else if c.rank <= 9 then c.rank + 1
    else 10
  }

  // ---------------------------------------------------------------------------
  // Display
  // ---------------------------------------------------------------------------

  function DigitChar(d: nat): char
    requires d < 10
  {
    ('0' as int + d) as char
  }

  predicate IsDigit(ch: char) { '0' <= ch <= '9' }

  function DigitOf(ch: char): nat
    requires IsDigit(ch)
  {
    ch as int - '0' as int
  }

  /** The decimal numeral of `n`, as Python's str() writes a non-negative int. */
  function Numeral(n: nat): (s: string)
    ensures |s| >= 1
    ensures forall i :: 0 <= i < |s| ==> IsDigit(s[i])
    ensures n < 10 <==> |s| == 1
  {
    if n < 10 then [DigitChar(n)] else Numeral(n / 10) + [DigitChar(n % 10)]
  }

  /** Reads a non-empty string of digits back as a number. */
  function NumeralValue(s: string): nat
    requires |s| >= 1
    requires forall i :: 0 <= i < |s| ==> IsDigit(s[i])
  {
    if |s| == 1 then DigitOf(s[0])
    else NumeralValue(s[..|s| - 1]) * 10 + DigitOf(s[|s| - 1])
  }

  lemma {:induction false} NumeralRoundTrip(n: nat)
    ensures NumeralValue(Numeral(n)) == n
  {
    if n >= 10 {
      var s := Numeral(n);
      assert s[..|s| - 1] == Numeral(n / 10);
      NumeralRoundTrip(n / 10);
    }
  }

  function RankSymbol(r: Rank): string {
    if r == 0 then "A"
    else if r < 10 then Numeral(r + 1)
    else ["J", "Q", "K"][r - 10]
  }

  function SuitGlyph(s: Suit): char {
    ['\U{2665}', '\U{2660}', '\U{2666}', '\U{2663}'][s]
  }

  /** The rank symbol followed by the suit glyph, e.g. "10" + spade or "A" + heart. */
  function Display(c: Card): (s: string)
    ensures |s| >= 2
    ensures s[|s| - 1] == SuitGlyph(c.suit)
    ensures s[..|s| - 1] == RankSymbol(c.rank)
  {
    RankSymbol(c.rank) + [SuitGlyph(c.suit)]
  }

  // ---------------------------------------------------------------------------
  // Reading a display form back: the inverse of Display
  // ---------------------------------------------------------------------------

  function SuitOf(g: char): Option<Suit> {
    if g == '\U{2665}' then Some(0)
    else if g == '\U{2660}' then Some(1)
    else if g == '\U{2666}' then Some(2)
    else if g == '\U{2663}' then Some(3)
    else None
  }

  function RankOf(sym: string): Option<Rank> {
    if sym == "A" then Some(0)
    else if sym == "J" then Some(10)
    else if sym == "Q" then Some(11)
    else if sym == "K" then Some(12)
    else if |sym| >= 1 && forall i :: 0 <= i < |sym| ==> IsDigit(sym[i]) then
      var n := NumeralValue(sym);
      if 2 <= n <= 10 then Some(n - 1) else None
    else None
  }

  function ParseCard(s: string): Option<Card> {
    if |s| < 2 then None
    else
      match (SuitOf(s[|s| - 1]), RankOf(s[..|s| - 1]))
      case (Some(suit), Some(rank)) => Some(Card(suit, rank))
      case _ => None
  }

  lemma RankRoundTrip(r: Rank)
    ensures RankOf(RankSymbol(r)) == Some(r)
  {
    if 1 <= r < 10 {
      var sym := Numeral(r + 1);
      NumeralRoundTrip(r + 1);
      assert sym[0] != 'A' && sym[0] != 'J' && sym[0] != 'Q' && sym[0] != 'K';
    }
  }

  /** Display loses nothing: every card is read back from its display form. */
  lemma DisplayRoundTrip(c: Card)
    ensures ParseCard(Display(c)) == Some(c)
  {
    var s := Display(c);
    RankRoundTrip(c.rank);
    assert SuitOf(s[|s| - 1]) == Some(c.suit);
  }

  /** Hence no two different cards look the same on screen. */
  lemma DisplayInjective(a: Card, b: Card)
    ensures Display(a) == Display(b) ==> a == b
  {
    DisplayRoundTrip(a);
    DisplayRoundTrip(b);
  }
}
