/** Hands, their score under the soft/hard Ace rule, and the two participants
    (classes Player, HumanPlayer and Dealer of BlackJack.py). */
module Players {
  import opened Wrappers
  import opened Cards

  // ---------------------------------------------------------------------------
  // Scoring specification
  // ---------------------------------------------------------------------------

  /** The total with every Ace counted as 11. */
  function SoftTotal(hand: seq<Card>): nat {
    if hand == [] then 0 else SoftTotal(hand[..|hand| - 1]) + Value(hand[|hand| - 1])
  }

  /** The number of Aces in a hand, counted as the loop counts them. */
  function AceCount(hand: seq<Card>): nat {
    if hand == [] then 0
    else AceCount(hand[..|hand| - 1]) + (if IsAce(hand[|hand| - 1]) then 1 else 0)
  }

  /** The positions of the hand that hold an Ace. */
  function AcePositions(hand: seq<Card>): set<nat> {
    set i: nat | i < |hand| && IsAce(hand[i])
  }

  /** The loop's Ace count is the number of positions holding an Ace. */
  lemma {:induction false} AceCountCounts(hand: seq<Card>)
    ensures AceCount(hand) == |AcePositions(hand)|
  {
    if hand != [] {
      var n := |hand| - 1;
      var init := hand[..n];
      AceCountCounts(init);
      assert n !in AcePositions(init);
      if IsAce(hand[n]) {
        assert AcePositions(hand) == AcePositions(init) + {n};
      } else {
        assert AcePositions(hand) == AcePositions(init);
      }
    }
  }

  function HardValue(c: Card): nat {
    if IsAce(c) then 1 else Value(c)
  }

  /** The total with every Ace counted as 1. */
  function HardTotal(hand: seq<Card>): nat {
    if hand == [] then 0 else HardTotal(hand[..|hand| - 1]) + HardValue(hand[|hand| - 1])
  }

  /** The total after `k` Aces have been counted as 1 instead of 11. */
  function Downgraded(soft: int, k: nat): int {
    soft - 10 * k
  }

  /** How many of `aces` Aces get downgraded: the fewest that bring the total to 21 or
      less, or all of them when even that is not enough. Above 21, (soft - 12) / 10 is the
      least k with soft - 10 * k <= 21. */
  function Downgrades(soft: int, aces: nat): (d: nat)
    ensures d <= aces
  {
    if soft <= 21 then 0
    else if (soft - 12) / 10 < aces then (soft - 12) / 10
    else aces
  }

  /** Downgrades stops at the first count that reaches 21 or less: every smaller count
      still busts, and only running out of Aces stops it above 21. */
  lemma DowngradesMinimal(soft: int, aces: nat)
    ensures forall k :: 0 <= k < Downgrades(soft, aces) ==> Downgraded(soft, k) > 21
    ensures var d := Downgrades(soft, aces); d == aces || Downgraded(soft, d) <= 21
  {
    if soft > 21 {
      var q := (soft - 12) / 10;
      assert soft - 12 == 10 * q + (soft - 12) % 10;
      forall k | 0 <= k < Downgrades(soft, aces)
        ensures Downgraded(soft, k) > 21
      {
        assert k <= q - 1;
      }
    }
  }

  /** The score of a hand. */
  function HandScore(hand: seq<Card>): int {
    Downgraded(SoftTotal(hand), Downgrades(SoftTotal(hand), AceCount(hand)))
  }

  lemma {:induction false} HardTotalIsSoftTotalLessAces(hand: seq<Card>)
    ensures HardTotal(hand) == SoftTotal(hand) - 10 * AceCount(hand)
  {
    if hand != [] {
      HardTotalIsSoftTotalLessAces(hand[..|hand| - 1]);
    }
  }

  /** The score lies between the hard and the soft total; it is a bust exactly when the
      hard total is, and then every Ace has been downgraded. */
  lemma ScoreBounds(hand: seq<Card>)
    ensures HardTotal(hand) <= HandScore(hand) <= SoftTotal(hand)
    ensures HandScore(hand) > 21 <==> HardTotal(hand) > 21
    ensures HandScore(hand) > 21 ==>
      Downgrades(SoftTotal(hand), AceCount(hand)) == AceCount(hand) && HandScore(hand) == HardTotal(hand)
  {
    HardTotalIsSoftTotalLessAces(hand);
    var soft, aces := SoftTotal(hand), AceCount(hand);
    DowngradesMinimal(soft, aces);
    var d := Downgrades(soft, aces);
    if d < aces {
      assert Downgraded(soft, d) <= 21;
      assert Downgraded(soft, aces) <= Downgraded(soft, d);
    }
  }

  /** No other choice of Aces to downgrade gives a better total of 21 or less. */
  lemma ScoreIsBest(hand: seq<Card>, k: nat)
    requires k <= AceCount(hand) && Downgraded(SoftTotal(hand), k) <= 21
    ensures Downgraded(SoftTotal(hand), k) <= HandScore(hand) <= 21
  {
    DowngradesMinimal(SoftTotal(hand), AceCount(hand));
  }

  /** The worked examples of the scoring rule: A+6 is 17, A+A+9 is 21 (one Ace
      downgraded), A+A+A+9 is 12 (two downgraded), 10+K is 20, K+Q+5 is 25 (a bust with no
      Ace to downgrade). */
  lemma ScoreExamples()
    ensures HandScore([Card(0, 0), Card(1, 5)]) == 17
    ensures HandScore([Card(0, 0), Card(1, 0), Card(2, 8)]) == 21
    ensures HandScore([Card(0, 0), Card(1, 0), Card(2, 0), Card(3, 8)]) == 12
    ensures HandScore([Card(0, 9), Card(1, 12)]) == 20
    ensures HandScore([Card(0, 12), Card(1, 11), Card(2, 4)]) == 25
  {
    ExampleAceSix();
    ExampleTwoAcesNine();
    ExampleThreeAcesNine();
    ExampleTenKing();
    ExampleKingQueenFive();
  }

  lemma ExampleAceSix()
    ensures HandScore([Card(0, 0), Card(1, 5)]) == 17
  {
    Totals([Card(0, 0), Card(1, 5)]);
  }

  lemma ExampleTwoAcesNine()
    ensures HandScore([Card(0, 0), Card(1, 0), Card(2, 8)]) == 21
  {
    Totals([Card(0, 0), Card(1, 0), Card(2, 8)]);
  }

  lemma ExampleThreeAcesNine()
    ensures HandScore([Card(0, 0), Card(1, 0), Card(2, 0), Card(3, 8)]) == 12
  {
    Totals([Card(0, 0), Card(1, 0), Card(2, 0), Card(3, 8)]);
  }

  lemma ExampleTenKing()
    ensures HandScore([Card(0, 9), Card(1, 12)]) == 20
  {
    Totals([Card(0, 9), Card(1, 12)]);
  }

  lemma ExampleKingQueenFive()
    ensures HandScore([Card(0, 12), Card(1, 11), Card(2, 4)]) == 25
  {
    Totals([Card(0, 12), Card(1, 11), Card(2, 4)]);
  }

  /** The soft total and the number of Aces, added up from the front. */
  function FrontSoft(hand: seq<Card>): nat {
    if hand == [] then 0 else Value(hand[0]) + FrontSoft(hand[1..])
  }

  function FrontAces(hand: seq<Card>): nat {
    if hand == [] then 0 else (if IsAce(hand[0]) then 1 else 0) + FrontAces(hand[1..])
  }

  lemma {:induction false} Totals(hand: seq<Card>)
    ensures SoftTotal(hand) == FrontSoft(hand) && AceCount(hand) == FrontAces(hand)
    decreases |hand|
  {
    if hand != [] {
      var init := hand[..|hand| - 1];
      var last := hand[|hand| - 1];
      if init == [] {
        assert hand == [last];
      } else {
        Totals(init);
        Totals(hand[1..]);
        Totals(init[1..]);
        assert hand[1..][..|hand| - 2] == init[1..];
      }
    }
  }

  // ---------------------------------------------------------------------------
  // Participants
  // ---------------------------------------------------------------------------

  /** A participant holding a hand; the dealer is a plain Player. */
  class Player {
    var hand: seq<Card>

    constructor ()
      ensures hand == []
    {
      hand := [];
    }

    method TakeCard(c: Card)
      modifies this
      ensures hand == old(hand) + [c]
    {
      hand := hand + [c];
    }

    method ThrowHand()
      modifies this
      ensures hand == []
    {
      hand := [];
    }

    /** Sums the cards with Aces as 11, then downgrades Aces one at a time while the
        total is above 21. */
    method Score() returns (score: int)
      ensures score == HandScore(hand)
    {
      score := 0;
      var aceCount := 0;
      for i := 0 to |hand|
        invariant score == SoftTotal(hand[..i])
        invariant aceCount == AceCount(hand[..i])
      {
        var card := hand[i];
        assert hand[..i + 1][..i] == hand[..i];
        if card.rank == 0 {
          score := score + 11;
          aceCount := aceCount + 1;
        } else if card.rank <= 9 {
          score := score + card.rank + 1;
        } else {
          score := score + 10;
        }
      }
      assert hand[..|hand|] == hand;
      ghost var soft := score;
      if score > 21 && aceCount > 0 {
        for x := 0 to aceCount
          invariant score == Downgraded(soft, x) > 21
          invariant Downgrades(soft, aceCount) == x + Downgrades(score, aceCount - x)
        {
          score := score - 10;
          if score <= 21 {
            break;
          }
        }
      }
    }
  }

  /** The balance a human player starts with. */
  const InitialBalance: real := 10000.0

  /** The human player: a seat at the table (its hand) and a balance. */
  class HumanPlayer {
    const seat: Player
    var balance: real

    constructor (initAmount: real)
      ensures fresh(seat) && seat.hand == []
      ensures balance == initAmount
    {
      seat := new Player();
      balance := initAmount;
    }

    /** HumanPlayer() with the default amount. */
    constructor Default()
      ensures fresh(seat) && seat.hand == []
      ensures balance == InitialBalance
    {
      seat := new Player();
      balance := InitialBalance;
    }

    method AddBalance(amount: real)
      modifies this
      ensures balance == old(balance) + amount
    {
      balance := balance + amount;
    }

    method ReduceBalance(amount: real)
      modifies this
      ensures balance == old(balance) - amount
    {
      balance := balance - amount;
    }
  }

  // ---------------------------------------------------------------------------
  // What the console prompts accept
  // ---------------------------------------------------------------------------

  function Abs(x: real): real {
    if x < 0.0 then -x else x
  }

  /** The bet an entered amount stands for: its absolute value, refused (and asked
      again) when it exceeds the balance. */
  function AcceptBet(entered: real, balance: real): (r: Option<real>)
    ensures r.Some? <==> Abs(entered) <= balance
    ensures r.Some? ==> 0.0 <= r.value <= balance && (r.value == entered || r.value == -entered)
  {
    var bet := Abs(entered);
    if bet > balance then None else Some(bet)
  }

  /** H or h is a hit, S or s a stand; anything else is asked again. */
  function ParseHit(choice: string): (r: Option<bool>)
    ensures r.Some? ==> |choice| == 1
    ensures r == Some(true) <==> choice == "H" || choice == "h"
    ensures r == Some(false) <==> choice == "S" || choice == "s"
  {
    if choice == "H" || choice == "h" then Some(true)
    else if choice == "S" || choice == "s" then Some(false)
    else None
  }

  function HitLetter(hit: bool): string {
    if hit then "H" else "S"
  }

  /** The letter of each decision is read back as that decision, in either case. */
  lemma HitLetterRoundTrip(hit: bool)
    ensures ParseHit(HitLetter(hit)) == Some(hit)
    ensures ParseHit(if hit then "h" else "s") == Some(hit)
  {
  }
}
