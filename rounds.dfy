/** One round of the game (the script at the end of BlackJack.py): the deal, the opening
    blackjack checks, the player's turns, the dealer's draws and the settlement. The pure
    functions give the rules; the methods run them on the deck and player objects. */
module Rounds {
  import opened Wrappers
  import opened Cards
  import opened Decks
  import opened Players

  /** The cards in play: what is left of the deck and the two hands. */
  datatype Table = Table(deck: seq<Card>, player: seq<Card>, dealer: seq<Card>)

  /** How a round ends. */
  datatype Outcome =
    | DealerBlackjack     // the dealer's first two cards score 21 (the player's do not)
    | PlayerBlackjack     // the player's first two cards score 21 (the dealer's do not)
    | BothBlackjack       // both score 21 on two cards; the player is paid
    | PlayerTwentyOne     // a hit brings the player to 21
    | PlayerBust          // a hit takes the player above 21
    | DealerTwentyOne     // a dealer draw reaches 21
    | DealerBust          // a dealer draw goes above 21
    | PlayerHigher        // after a stand, the player outscores the dealer
    | DealerHigherOrTie   // after a stand, the dealer scores at least as much
    | DeckExhausted       // a draw found the deck empty; the round stops

  /** A round in progress, or one that has ended. */
  datatype Step = Continue(table: Table) | Over(outcome: Outcome, table: Table)

  /** The player's decision to hit (true) or stand (false), given both hands. */
  type Strategy = (seq<Card>, seq<Card>) -> bool

  /** What is credited back to the player after the bet has been debited. */
  function Payout(o: Outcome, bet: real): real {
    match o
    case PlayerBlackjack | BothBlackjack | PlayerTwentyOne => bet * 3.0
    case DealerBust | PlayerHigher => bet * 2.0
    case _ => 0.0
  }

  /** Every card on the table, wherever it is. */
  function AllCards(t: Table): multiset<Card> {
    multiset(t.deck) + multiset(t.player) + multiset(t.dealer)
  }

  /** The last card of the deck goes to the player. */
  function ToPlayer(t: Table): (r: Step)
    ensures t.deck == [] ==> r == Over(DeckExhausted, t)
    ensures t.deck != [] ==> r == Continue(Table(t.deck[..|t.deck| - 1], t.player + [t.deck[|t.deck| - 1]], t.dealer))
  {
    match Draw(t.deck)
    case (None, _) => Over(DeckExhausted, t)
    case (Some(c), rest) => Continue(t.(deck := rest, player := t.player + [c]))
  }

  /** The last card of the deck goes to the dealer. */
  function ToDealer(t: Table): (r: Step)
    ensures t.deck == [] ==> r == Over(DeckExhausted, t)
    ensures t.deck != [] ==> r == Continue(Table(t.deck[..|t.deck| - 1], t.player, t.dealer + [t.deck[|t.deck| - 1]]))
  {
    match Draw(t.deck)
    case (None, _) => Over(DeckExhausted, t)
    case (Some(c), rest) => Continue(t.(deck := rest, dealer := t.dealer + [c]))
  }

  /** Player, dealer, player, dealer, each from the end of the deck. */
  function Deal(t: Table): (r: Step)
  {
    var s1 := ToPlayer(t);
    if s1.Over? then s1
    else
      var s2 := ToDealer(s1.table);
      if s2.Over? then s2
      else
        var s3 := ToPlayer(s2.table);
        if s3.Over? then s3 else ToDealer(s3.table)
  }

  /** The two independent blackjack checks on the dealt hands. */
  function Opening(t: Table): Step {
    var dealer21 := HandScore(t.dealer) == 21;
    var player21 := HandScore(t.player) == 21;
    if player21 then Over(if dealer21 then BothBlackjack else PlayerBlackjack, t)
    else if dealer21 then Over(DealerBlackjack, t)
    else Continue(t)
  }

  /** One dealer draw: a 21 or a bust ends the round. */
  function DealerDraw(t: Table): (r: Step)
    ensures r.table.player == t.player
    ensures |r.table.deck| < |t.deck| || r == Over(DeckExhausted, t)
  {
    var s := ToDealer(t);
    if s.Over? then s
    else
      var dealerScore := HandScore(s.table.dealer);
      if dealerScore == 21 then Over(DealerTwentyOne, s.table)
      else if dealerScore > 21 then Over(DealerBust, s.table)
      else s
  }

  /** The dealer's draws: while the dealer scores below `standsAt`, draw; after a hit
      only one card is drawn. */
  function DealerLoop(t: Table, standsAt: int, tookHit: bool): (r: Step)
    ensures r.table.player == t.player
    ensures |r.table.deck| <= |t.deck|
    decreases |t.deck|
  {
    if HandScore(t.dealer) >= standsAt then Continue(t)
    else
      var s := DealerDraw(t);
      if s.Over? || tookHit then s else DealerLoop(s.table, standsAt, tookHit)
  }

  /** The player's half of a turn: a hit draws a card, then a 21 or a bust ends the
      round. */
  function PlayerMove(t: Table, tookHit: bool): (r: Step)
    ensures r.Continue? ==> HandScore(r.table.player) < 21
    ensures r.Continue? && tookHit ==> |r.table.deck| < |t.deck|
    ensures r.Continue? && !tookHit ==> r.table == t
  {
    var s := if tookHit then ToPlayer(t) else Continue(t);
    if s.Over? then s
    else
      var playerScore := HandScore(s.table.player);
      if playerScore == 21 then Over(PlayerTwentyOne, s.table)
      else if playerScore > 21 then Over(PlayerBust, s.table)
      else s
  }

  /** The dealer's half of a turn: after a hit, at most one draw and only below 18; after
      a stand, draws until reaching the player's score, then the higher score wins. */
  function DealerTurn(t: Table, tookHit: bool): (r: Step)
    ensures r.Continue? ==> tookHit && |r.table.deck| <= |t.deck|
  {
    var standsAt := if tookHit then 18 else HandScore(t.player);
    var d := DealerLoop(t, standsAt, tookHit);
    if d.Over? || tookHit then d else Showdown(d.table)
  }

  /** After a stand and the dealer's draws, the higher score wins; a tie goes to the
      dealer. */
  function Showdown(t: Table): (r: Step)
  {
    if HandScore(t.player) > HandScore(t.dealer) then Over(PlayerHigher, t)
    else Over(DealerHigherOrTie, t)
  }

  /** One pass of the turn loop: the player hits or stands, then the dealer plays. */
  function Turn(t: Table, tookHit: bool): (r: Step)
    ensures r.Continue? ==> tookHit && |r.table.deck| < |t.deck|
  {
    var s := PlayerMove(t, tookHit);
    if s.Over? then s else DealerTurn(s.table, tookHit)
  }

  /** The turn loop, run until the round ends. */
  function Play(t: Table, hit: Strategy): (r: Step)
    ensures r.Over?
    decreases |t.deck|
  {
    var s := Turn(t, hit(t.player, t.dealer));
    if s.Over? then s else Play(s.table, hit)
  }

  /** The deal from empty hands followed by the blackjack checks. */
  function Start(deck: seq<Card>): Step {
    var s := Deal(Table(deck, [], []));
    if s.Over? then s else Opening(s.table)
  }

  /** A whole round on a shuffled deck, from empty hands. */
  function Round(deck: seq<Card>, hit: Strategy): (r: Step)
    ensures r.Over?
  {
    var s := Start(deck);
    if s.Over? then s else Play(s.table, hit)
  }

  /** The deal order: from the end of the deck, the player gets the 1st and 3rd cards,
      the dealer the 2nd and 4th; a deck of fewer than four cards runs out. */
  lemma DealOrder(deck: seq<Card>)
    ensures var n := |deck|;
      n >= 4 ==> Deal(Table(deck, [], [])) == Continue(Table(deck[..n - 4], [deck[n - 1], deck[n - 3]], [deck[n - 2], deck[n - 4]]))
  {
    var n := |deck|;
    if n >= 4 {
      var d1, d2, d3 := deck[..n - 1], deck[..n - 2], deck[..n - 3];
      assert d1[..n - 2] == d2;
      assert d2[..n - 3] == d3;
      assert d3[..n - 4] == deck[..n - 4];
      var t1 := Table(d1, [deck[n - 1]], []);
      var t2 := Table(d2, [deck[n - 1]], [deck[n - 2]]);
      var t3 := Table(d3, [deck[n - 1], deck[n - 3]], [deck[n - 2]]);
      assert ToPlayer(Table(deck, [], [])) == Continue(t1);
      assert ToDealer(t1) == Continue(t2);
      assert ToPlayer(t2) == Continue(t3);
    }
  }

  // ---------------------------------------------------------------------------
  // The round run on the objects
  // ---------------------------------------------------------------------------

  ghost function TableOf(deck: Deck, player: HumanPlayer, dealer: Player): Table
    reads deck, player.seat, dealer
  {
    Table(deck.cards, player.seat.hand, dealer.hand)
  }

  /** p.take_card(deck.get_next_card()), stopping when the deck has no card. */
  method DrawInto(deck: Deck, p: Player) returns (ok: bool)
    modifies deck, p
    ensures ok == (old(deck.cards) != [])
    ensures deck.cards == Draw(old(deck.cards)).1
    ensures p.hand == if ok then old(p.hand) + [Draw(old(deck.cards)).0.value] else old(p.hand)
  {
    var card := deck.GetNextCard();
    ok := card.Some?;
    if ok {
      p.TakeCard(card.value);
    }
  }

  /** One pass of the dealer's draw loop without its final hit check: draw, score, and
      end the round on a 21 or a bust; a dealer bust credits twice the bet.
      `outcome` means something only when winnerDecided is true; while the round goes on
      it holds an arbitrary placeholder. */
  method DealerDrawOnce(deck: Deck, player: HumanPlayer, dealer: Player, bet: real)
    returns (winnerDecided: bool, outcome: Outcome, dealerScore: int)
    requires player.seat != dealer
    modifies deck, dealer, player
    ensures (if winnerDecided then Over(outcome, TableOf(deck, player, dealer))
             else Continue(TableOf(deck, player, dealer)))
         == DealerDraw(old(TableOf(deck, player, dealer)))
    ensures dealerScore == HandScore(dealer.hand)
    ensures player.balance == old(player.balance) + (if winnerDecided then Payout(outcome, bet) else 0.0)
  {
    ghost var start := TableOf(deck, player, dealer);
    var drawn := DrawInto(deck, dealer);
    assert ToDealer(start) == if drawn then Continue(TableOf(deck, player, dealer)) else Over(DeckExhausted, start);
    dealerScore := dealer.Score();
    if !drawn {
      return true, DeckExhausted, dealerScore;
    }
    if dealerScore == 21 {
      winnerDecided, outcome := true, DealerTwentyOne;
    } else if dealerScore > 21 {
      player.AddBalance(bet * 2.0);
      winnerDecided, outcome := true, DealerBust;
    } else {
      winnerDecided, outcome := false, DeckExhausted;
    }
  }

  /** The dealer's draw loop of one turn.
      `outcome` means something only when winnerDecided is true; while the round goes on
      it holds an arbitrary placeholder. */
  method DealerDraws(deck: Deck, player: HumanPlayer, dealer: Player, standsAt: int, tookHit: bool, bet: real)
    returns (winnerDecided: bool, outcome: Outcome)
    requires player.seat != dealer
    modifies deck, dealer, player
    ensures (if winnerDecided then Over(outcome, TableOf(deck, player, dealer))
             else Continue(TableOf(deck, player, dealer)))
         == DealerLoop(old(TableOf(deck, player, dealer)), standsAt, tookHit)
    ensures player.balance == old(player.balance) + (if winnerDecided then Payout(outcome, bet) else 0.0)
  {
    ghost var result := DealerLoop(TableOf(deck, player, dealer), standsAt, tookHit);
    winnerDecided, outcome := false, DeckExhausted;
    var dealerScore := dealer.Score();
    while dealerScore < standsAt
      invariant dealerScore == HandScore(dealer.hand)
      invariant DealerLoop(TableOf(deck, player, dealer), standsAt, tookHit) == result
      invariant player.balance == old(player.balance)
      invariant !winnerDecided
      decreases |deck.cards|
    {
      winnerDecided, outcome, dealerScore := DealerDrawOnce(deck, player, dealer, bet);
      if winnerDecided || tookHit {
        break;
      }
    }
  }

  /** The player's half of one pass of the turn loop: hit or stand, score; a 21 credits
      three times the bet. gameOn is false when the round has ended.
      `outcome` means something only when gameOn is false; while the round goes on it
      holds an arbitrary placeholder. */
  method MovePlayer(deck: Deck, player: HumanPlayer, dealer: Player, tookHit: bool, bet: real)
    returns (gameOn: bool, outcome: Outcome, playerScore: int)
    requires player.seat != dealer
    modifies deck, player, player.seat
    ensures (if gameOn then Continue(TableOf(deck, player, dealer))
             else Over(outcome, TableOf(deck, player, dealer)))
         == PlayerMove(old(TableOf(deck, player, dealer)), tookHit)
    ensures playerScore == HandScore(player.seat.hand)
    ensures player.balance == old(player.balance) + (if gameOn then 0.0 else Payout(outcome, bet))
  {
    ghost var start := TableOf(deck, player, dealer);
    outcome := DeckExhausted;
    if tookHit {
      var drawn := DrawInto(deck, player.seat);
      assert ToPlayer(start) == if drawn then Continue(TableOf(deck, player, dealer)) else Over(DeckExhausted, start);
      if !drawn {
        playerScore := player.seat.Score();
        return false, DeckExhausted, playerScore;
      }
    }
    playerScore := player.seat.Score();
    gameOn := true;
    if playerScore == 21 {
      player.AddBalance(bet * 3.0);
      gameOn, outcome := false, PlayerTwentyOne;
    } else if playerScore > 21 {
      gameOn, outcome := false, PlayerBust;
    }
  }

  /** The comparison after a stand; a higher player score credits twice the bet. */
  method Compare(deck: Deck, player: HumanPlayer, dealer: Player, bet: real) returns (outcome: Outcome)
    modifies player
    ensures Over(outcome, TableOf(deck, player, dealer)) == Showdown(TableOf(deck, player, dealer))
    ensures player.balance == old(player.balance) + Payout(outcome, bet)
  {
    var playerScore := player.seat.Score();
    var dealerScore := dealer.Score();
    if playerScore > dealerScore {
      player.AddBalance(bet * 2.0);
      outcome := PlayerHigher;
    } else {
      outcome := DealerHigherOrTie;
    }
  }

  /** The dealer's half of one pass of the turn loop: the draws and, after a stand, the
      comparison, where a higher player score credits twice the bet.
      `outcome` means something only when gameOn is false; while the round goes on it
      holds an arbitrary placeholder. */
  method MoveDealer(deck: Deck, player: HumanPlayer, dealer: Player, tookHit: bool, playerScore: int, bet: real)
    returns (gameOn: bool, outcome: Outcome)
    requires player.seat != dealer
    requires playerScore == HandScore(player.seat.hand)
    modifies deck, player, dealer
    ensures (if gameOn then Continue(TableOf(deck, player, dealer))
             else Over(outcome, TableOf(deck, player, dealer)))
         == DealerTurn(old(TableOf(deck, player, dealer)), tookHit)
    ensures player.balance == old(player.balance) + (if gameOn then 0.0 else Payout(outcome, bet))
  {
    ghost var start := TableOf(deck, player, dealer);
    var standsAt := if tookHit then 18 else playerScore;
    var winnerDecided;
    winnerDecided, outcome := DealerDraws(deck, player, dealer, standsAt, tookHit, bet);
    ghost var d := DealerLoop(start, standsAt, tookHit);
    assert d == if winnerDecided then Over(outcome, TableOf(deck, player, dealer)) else Continue(TableOf(deck, player, dealer));
    if winnerDecided {
      return false, outcome;
    }
    gameOn := tookHit;
    if !tookHit {
      outcome := Compare(deck, player, dealer, bet);
    }
  }

  /** One pass of the turn loop: ask, then the player's and the dealer's halves.
      `outcome` means something only when gameOn is false; while the round goes on it
      holds an arbitrary placeholder. */
  method TakeTurn(deck: Deck, player: HumanPlayer, dealer: Player, hit: Strategy, bet: real)
    returns (gameOn: bool, outcome: Outcome)
    requires player.seat != dealer
    modifies deck, player, player.seat, dealer
    ensures (if gameOn then Continue(TableOf(deck, player, dealer))
             else Over(outcome, TableOf(deck, player, dealer)))
         == Turn(old(TableOf(deck, player, dealer)), hit(old(player.seat.hand), old(dealer.hand)))
    ensures player.balance == old(player.balance) + (if gameOn then 0.0 else Payout(outcome, bet))
  {
    var tookHit := hit(player.seat.hand, dealer.hand);
    var playerScore;
    gameOn, outcome, playerScore := MovePlayer(deck, player, dealer, tookHit, bet);
    if gameOn {
      gameOn, outcome := MoveDealer(deck, player, dealer, tookHit, playerScore, bet);
    }
  }

  /** The deal: player, dealer, player, dealer. */
  method DealCards(deck: Deck, player: HumanPlayer, dealer: Player) returns (dealt: bool)
    requires player.seat != dealer
    modifies deck, player.seat, dealer
    ensures (if dealt then Continue(TableOf(deck, player, dealer))
             else Over(DeckExhausted, TableOf(deck, player, dealer)))
         == Deal(old(TableOf(deck, player, dealer)))
  {
    ghost var dealing := Continue(TableOf(deck, player, dealer));
    dealt := DrawInto(deck, player.seat);
    assert ToPlayer(dealing.table) == if dealt then Continue(TableOf(deck, player, dealer)) else Over(DeckExhausted, dealing.table);
    dealing := ToPlayer(dealing.table);
    if dealt {
      dealt := DrawInto(deck, dealer);
      assert ToDealer(dealing.table) == if dealt then Continue(TableOf(deck, player, dealer)) else Over(DeckExhausted, dealing.table);
      dealing := ToDealer(dealing.table);
    }
    if dealt {
      dealt := DrawInto(deck, player.seat);
      assert ToPlayer(dealing.table) == if dealt then Continue(TableOf(deck, player, dealer)) else Over(DeckExhausted, dealing.table);
      dealing := ToPlayer(dealing.table);
    }
    if dealt {
      dealt := DrawInto(deck, dealer);
      assert ToDealer(dealing.table) == if dealt then Continue(TableOf(deck, player, dealer)) else Over(DeckExhausted, dealing.table);
      dealing := ToDealer(dealing.table);
    }
  }

  /** The two independent blackjack checks; a player blackjack credits three times the
      bet. gameOn is false when either check fired.
      `outcome` means something only when gameOn is false; while the round goes on it
      holds an arbitrary placeholder. */
  method OpeningChecks(deck: Deck, player: HumanPlayer, dealer: Player, bet: real)
    returns (gameOn: bool, outcome: Outcome)
    modifies player
    ensures (if gameOn then Continue(TableOf(deck, player, dealer))
             else Over(outcome, TableOf(deck, player, dealer)))
         == Opening(TableOf(deck, player, dealer))
    ensures player.balance == old(player.balance) + (if gameOn then 0.0 else Payout(outcome, bet))
  {
    gameOn, outcome := true, DeckExhausted;
    var dealerScore := dealer.Score();
    if dealerScore == 21 {
      outcome := DealerBlackjack;
      gameOn := false;
    }
    var playerScore := player.seat.Score();
    if playerScore == 21 {
      player.AddBalance(bet * 3.0);
      outcome := if gameOn then PlayerBlackjack else BothBlackjack;
      gameOn := false;
    }
  }

  /** The start of a round: debit the bet, deal, check for blackjacks.
      `outcome` means something only when gameOn is false; while the round goes on it
      holds an arbitrary placeholder. */
  method StartRound(deck: Deck, player: HumanPlayer, dealer: Player, bet: real)
    returns (gameOn: bool, outcome: Outcome)
    requires player.seat != dealer
    requires player.seat.hand == [] && dealer.hand == []
    modifies deck, player, player.seat, dealer
    ensures (if gameOn then Continue(TableOf(deck, player, dealer))
             else Over(outcome, TableOf(deck, player, dealer)))
         == Start(old(deck.cards))
    ensures player.balance == old(player.balance) - bet + (if gameOn then 0.0 else Payout(outcome, bet))
  {
    player.ReduceBalance(bet);
    var dealt := DealCards(deck, player, dealer);
    gameOn, outcome := dealt, DeckExhausted;
    if dealt {
      gameOn, outcome := OpeningChecks(deck, player, dealer, bet);
    }
  }

  /** The turn loop: one pass after another until the round ends. */
  method PlayTurns(deck: Deck, player: HumanPlayer, dealer: Player, hit: Strategy, bet: real)
    returns (outcome: Outcome)
    requires player.seat != dealer
    modifies deck, player, player.seat, dealer
    ensures Over(outcome, TableOf(deck, player, dealer)) == Play(old(TableOf(deck, player, dealer)), hit)
    ensures player.balance == old(player.balance) + Payout(outcome, bet)
  {
    ghost var final := Play(TableOf(deck, player, dealer), hit);
    var gameOn := true;
    outcome := DeckExhausted;
    while gameOn
      invariant gameOn ==> Play(TableOf(deck, player, dealer), hit) == final
      invariant !gameOn ==> final == Over(outcome, TableOf(deck, player, dealer))
      invariant player.balance == old(player.balance) + (if gameOn then 0.0 else Payout(outcome, bet))
      decreases |deck.cards| + (if gameOn then 1 else 0)
    {
      gameOn, outcome := TakeTurn(deck, player, dealer, hit, bet);
    }
  }

  /** The round proper: start it and run the turn loop. */
  method RunRound(deck: Deck, player: HumanPlayer, dealer: Player, bet: real, hit: Strategy)
    returns (outcome: Outcome)
    requires player.seat != dealer
    requires player.seat.hand == [] && dealer.hand == []
    modifies deck, player, player.seat, dealer
    ensures outcome == Round(old(deck.cards), hit).outcome
    ensures deck.cards == Round(old(deck.cards), hit).table.deck
    ensures player.seat.hand == Round(old(deck.cards), hit).table.player
    ensures dealer.hand == Round(old(deck.cards), hit).table.dealer
    ensures player.balance == old(player.balance) - bet + Payout(outcome, bet)
  {
    var gameOn;
    gameOn, outcome := StartRound(deck, player, dealer, bet);
    if gameOn {
      outcome := PlayTurns(deck, player, dealer, hit, bet);
    }
  }

  /** A round on an already built and shuffled deck: run it, then throw both hands
      away. */
  method PlayRound(deck: Deck, player: HumanPlayer, dealer: Player, bet: real, hit: Strategy)
    returns (outcome: Outcome)
    requires player.seat != dealer
    requires player.seat.hand == [] && dealer.hand == []
    requires 0.0 <= bet <= player.balance
    modifies deck, player, player.seat, dealer
    ensures outcome == Round(old(deck.cards), hit).outcome
    ensures deck.cards == Round(old(deck.cards), hit).table.deck
    ensures player.balance == old(player.balance) - bet + Payout(outcome, bet)
    ensures player.balance >= 0.0
    ensures player.seat.hand == [] && dealer.hand == []
  {
    outcome := RunRound(deck, player, dealer, bet, hit);
    PayoutNonNegative(outcome, bet);
    player.seat.ThrowHand();
    dealer.ThrowHand();
  }

  /** deck = Deck(); deck.shuffle(): the shared list's leftovers and 52 new cards, in the
      order the shuffle leaves them. */
  method NewRoundDeck(shared: seq<Card>, draws: seq<nat>) returns (deck: Deck)
    ensures fresh(deck)
    ensures deck.cards == Shuffled(shared + StandardDeck(), draws, |shared| + 52)
    ensures multiset(deck.cards) == multiset(shared) + multiset(StandardDeck())
  {
    deck := new Deck(shared);
    deck.Shuffle(draws);
  }

  /** The same two lines with a list of the deck's own: a shuffled deck of exactly the 52
      distinct cards. */
  method FreshRoundDeck(draws: seq<nat>) returns (deck: Deck)
    ensures fresh(deck)
    ensures deck.cards == Shuffled(StandardDeck(), draws, 52)
    ensures |deck.cards| == 52 && Distinct(deck.cards)
    ensures multiset(deck.cards) == multiset(StandardDeck())
  {
    deck := new Deck.Fresh();
    deck.Shuffle(draws);
    PermutationKeepsDistinct(StandardDeck(), deck.cards);
  }

  /** Y or y plays again, N or n stops; anything else is asked again. */
  function ParsePlayAgain(choice: string): (r: Option<bool>)
    ensures r.Some? ==> |choice| == 1
    ensures r == Some(true) <==> choice == "Y" || choice == "y"
    ensures r == Some(false) <==> choice == "N" || choice == "n"
  {
    if choice == "Y" || choice == "y" then Some(true)
    else if choice == "N" || choice == "n" then Some(false)
    else None
  }

  function PlayAgainLetter(again: bool): string {
    if again then "Y" else "N"
  }

  /** The letter of each answer is read back as that answer, in either case. */
  lemma PlayAgainLetterRoundTrip(again: bool)
    ensures ParsePlayAgain(PlayAgainLetter(again)) == Some(again)
    ensures ParsePlayAgain(if again then "y" else "n") == Some(again)
  {
  }

  /** The credit is nothing, twice or three times the bet; never negative. */
  lemma PayoutNonNegative(o: Outcome, bet: real)
    requires 0.0 <= bet
    ensures Payout(o, bet) >= 0.0
  {
  }
}
