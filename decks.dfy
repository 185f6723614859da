/** The deck (class Deck of BlackJack.py): the canonical 52 cards, the shuffle and the
    draw from the end of the list. */
module Decks {
  import opened Wrappers
  import opened Cards

  /** No card occurs twice. */
  predicate Distinct(s: seq<Card>) {
    forall i, j :: 0 <= i < j < |s| ==> s[i] != s[j]
  }

  /** Where the nested construction loops put a card: suit-major, rank-minor. */
  function CardIndex(c: Card): (k: nat)
    ensures k < 52
  {
    13 * c.suit + c.rank
  }

  /** The 52 cards in the order the construction loops append them. */
  function StandardDeck(): (d: seq<Card>)
    ensures |d| == 52
    ensures forall c :: d[CardIndex(c)] == c
    ensures forall i :: 0 <= i < 52 ==> CardIndex(d[i]) == i
    ensures Distinct(d)
  {
    seq(52, i requires 0 <= i < 52 => Card(i / 13, i % 13))
  }

  /** Every card there is belongs to the standard deck. */
  lemma StandardDeckComplete(c: Card)
    ensures c in StandardDeck()
  {
    assert StandardDeck()[CardIndex(c)] == c;
  }

  /** Taking the last card of the list, or nothing when it is empty. */
  function Draw(deck: seq<Card>): (r: (Option<Card>, seq<Card>))
    ensures r.0.None? <==> deck == []
    ensures r.0.None? ==> r.1 == []
    ensures r.0.Some? ==> r.1 + [r.0.value] == deck
  {
    if |deck| > 0 then (Some(deck[|deck| - 1]), deck[..|deck| - 1]) else (None, deck)
  }

  function Swap(s: seq<Card>, i: nat, j: nat): (r: seq<Card>)
    requires i < |s| && j < |s|
    ensures |r| == |s|
    ensures multiset(r) == multiset(s)
  {
    s[i := s[j]][j := s[i]]
  }

  /** The random number drawn for position k; a source that has run out gives 0. */
  function Pick(draws: seq<nat>, k: nat): nat {
    if k < |draws| then draws[k] else 0
  }

  /** The Fisher-Yates shuffle over positions n-1 down to 1, as the library shuffle runs
      it: at position k it swaps with position Pick(draws, k) % (k + 1). `draws` stands for
      the random source. */
  function Shuffled(s: seq<Card>, draws: seq<nat>, n: nat): (r: seq<Card>)
    requires n <= |s|
    ensures |r| == |s|
    ensures multiset(r) == multiset(s)
    decreases n
  {
    if n <= 1 then s
    else Shuffled(Swap(s, n - 1, Pick(draws, n - 1) % n), draws, n - 1)
  }

  /** The list a deck holds. In BlackJack.py the list is a class attribute shared by
      every deck; the constructor receives what that list already held. */
  class Deck {
    var cards: seq<Card>

    /** Deck() as written: the 52 new cards are appended to the shared list. */
    constructor (shared: seq<Card>)
      ensures cards == shared + StandardDeck()
    {
      cards := shared;
      new;
      Fill();
    }

    /** A deck with a list of its own: exactly the 52 distinct cards. */
    constructor Fresh()
      ensures cards == StandardDeck()
      ensures |cards| == 52 && Distinct(cards)
    {
      cards := [];
      new;
      Fill();
    }

    /** The nested construction loops: every suit, then every rank. */
    method Fill()
      modifies this
      ensures cards == old(cards) + StandardDeck()
    {
      ghost var start := cards;
      for suit := 0 to 4
        invariant cards == start + StandardDeck()[..13 * suit]
      {
        for rank := 0 to 13
          invariant cards == start + StandardDeck()[..13 * suit + rank]
        {
          assert StandardDeck()[CardIndex(Card(suit, rank))] == Card(suit, rank);
          assert StandardDeck()[..13 * suit + rank + 1]
              == StandardDeck()[..13 * suit + rank] + [Card(suit, rank)];
          cards := cards + [Card(suit, rank)];
        }
      }
      assert StandardDeck()[..52] == StandardDeck();
    }

    /** random.shuffle(self.cards), with `draws` as its random numbers. */
    method Shuffle(draws: seq<nat>)
      modifies this
      ensures cards == Shuffled(old(cards), draws, |old(cards)|)
      ensures multiset(cards) == multiset(old(cards))
    {
      var n: nat := |cards|;
      while n > 1
        invariant n <= |cards| == |old(cards)|
        invariant Shuffled(cards, draws, n) == Shuffled(old(cards), draws, |old(cards)|)
      {
        var j := Pick(draws, n - 1) % n;
        cards := cards[n - 1 := cards[j]][j := cards[n - 1]];
        n := n - 1;
      }
    }

    /** Pops the last card; on an empty deck there is no card. */
    method GetNextCard() returns (c: Option<Card>)
      modifies this
      ensures (c, cards) == Draw(old(cards))
    {
      if |cards| > 0 {
        c := Some(cards[|cards| - 1]);
        cards := cards[..|cards| - 1];
      } else {
        c := None;
      }
    }
  }

  /** A sequence has no repeated card exactly when every card occurs in it at most once. */
  lemma {:induction false} DistinctIffSingleCounts(s: seq<Card>)
    ensures Distinct(s) <==> forall c :: multiset(s)[c] <= 1
  {
    if s != [] {
      var init, last := s[..|s| - 1], s[|s| - 1];
      assert s == init + [last];
      DistinctIffSingleCounts(init);
      if Distinct(s) {
        assert Distinct(init);
        forall i | 0 <= i < |init|
          ensures init[i] != last
        {
          assert s[i] == init[i];
        }
        assert last !in init;
      } else {
        var i, j :| 0 <= i < j < |s| && s[i] == s[j];
        if j < |s| - 1 {
          assert init[i] == init[j];
          assert !Distinct(init);
          var c :| multiset(init)[c] > 1;
          assert multiset(s)[c] >= multiset(init)[c];
        } else {
          assert s[i] in init;
          assert multiset(s)[last] == multiset(init)[last] + 1;
        }
      }
    }
  }

  /** Rearranging a sequence of distinct cards leaves them distinct. */
  lemma PermutationKeepsDistinct(a: seq<Card>, b: seq<Card>)
    requires multiset(a) == multiset(b)
    requires Distinct(a)
    ensures Distinct(b)
  {
    DistinctIffSingleCounts(a);
    DistinctIffSingleCounts(b);
  }

  /** The shared-list defect: as soon as the shared list is not empty, a new deck holds
      more than 52 cards and some card twice. */
  lemma SharedListDuplicates(shared: seq<Card>)
    requires shared != []
    ensures |shared + StandardDeck()| > 52
    ensures !Distinct(shared + StandardDeck())
  {
    var d := shared + StandardDeck();
    var c := shared[0];
    var j := |shared| + CardIndex(c);
    assert d[j] == StandardDeck()[CardIndex(c)] == c == d[0];
  }
}
