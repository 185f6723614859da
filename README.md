# BlackJack.py in Dafny

A model of the one-file console blackjack game `BlackJack.py`. One human player plays
against an automated dealer. Each round builds a deck and shuffles it. Building appends 52
new cards to whatever earlier rounds left in the deck's shared list (see "## Findings").
The round then takes a bet and deals player, dealer, player, dealer from the end of the
deck. It checks both hands for a blackjack, then runs a loop of turns. In each turn the
player hits or stands. After a hit the dealer draws at most one card, and only below 18.
After a stand the dealer draws until reaching the player's score. At the end the round
pays back 0, 2 or 3 times the bet.

The model follows the program's structure:

- `Cards` (`cards.dfy`): the `Card` value, its blackjack value and its display string
  (for example `"10♥"`), with a parser for the display string.
- `Decks` (`decks.dfy`): the canonical 52-card order, drawing from the end of the list, and
  the shuffle. Class `Deck` has a `cards` field that the constructor, `Shuffle` and
  `GetNextCard` change in place.
- `Players` (`players.dfy`): the soft/hard Ace scoring rule as specification functions.
  Class `Player` holds a hand and has the accumulator loop `Score`, proved equal to the
  specification. Class `HumanPlayer` holds a seat (its `Player`) and a balance. The file
  also has the bet-acceptance rule and the H/S parser.
- `Rounds` (`rounds.dfy`): the module-level script.
  - Pure functions on a `Table` (deck, player's hand, dealer's hand) give the rules of one
    round as a sequence of `Step`s that ends in an `Outcome`.
  - Methods run the same round on the `Deck`, `HumanPlayer` and dealer objects.
  - Each method is proved to leave the objects as the matching function says, and to
    change the balance by the bet and the payout.
- `RoundFacts` (`roundfacts.dfy`): what the rules promise. This covers:
  - the deal order and the opening checks;
  - the hit path and the stand path;
  - the stand comparison never paying;
  - cards never being lost or duplicated;
  - what a round can pay.

Inputs the program reads from the console or from a random source become parameters:

- the player's hit/stand choice is a `Strategy`, a function from both hands to a decision;
- the shuffle's random numbers are a sequence `draws`;
- the bet is an entered amount that `AcceptBet` accepts or refuses.

When both two-card hands score 21, the player is credited three times the bet: the two
checks at `BlackJack.py:180-187` are independent `if`s, so the dealer's 21 keeps the turn loop
from starting but does not stop the player's 21 from paying. The model names this outcome `BothBlackjack`.

## Model

| member | source | states |
|---|---|---|
| Cards.Value | BlackJack.py:79-85 | an Ace adds 11, ranks 1..9 add rank + 1, J/Q/K add 10; a value is 11 exactly for an Ace |
| Cards.Numeral | BlackJack.py:22 | str() of a rank: a non-empty string of digits, one digit exactly below 10 |
| Cards.NumeralRoundTrip | BlackJack.py:22 | reading the numeral back gives the number |
| Cards.RankSymbol | BlackJack.py:19-25 | computes the rank part of the display: "A" for rank 0, the numeral of rank + 1 for ranks 1..9, "J", "Q", "K" for ranks 10..12; RankRoundTrip reads each back |
| Cards.SuitGlyph | BlackJack.py:27-28 | computes the suit part of the display: ♥, ♠, ♦, ♣ for suits 0..3; DisplayRoundTrip and DisplayInjective rely on the four being different |
| Cards.Display | BlackJack.py:18-30 | the display string is the rank's symbol followed by the suit's glyph, so both can be read back from it |
| Cards.RankRoundTrip | BlackJack.py:19-25 | each rank symbol is read back as its rank |
| Cards.DisplayRoundTrip | BlackJack.py:18-30 | parsing a card's display string gives the card back |
| Cards.DisplayInjective | BlackJack.py:18-30 | two different cards never display alike |
| Decks.CardIndex | BlackJack.py:38-40 | the construction loops put Card(s, r) at position 13·s + r, within 52 |
| Decks.StandardDeck | BlackJack.py:38-40 | 52 cards, Card(s, r) at index 13·s + r, every index holding the card of that index, no card twice |
| Decks.StandardDeckComplete | BlackJack.py:38-40 | every card occurs in the canonical deck |
| Decks.Draw | BlackJack.py:49-53 | an empty deck gives no card and stays empty; otherwise the card is the last one and the rest is the prefix |
| Decks.Swap | BlackJack.py:42-43 | one step of the shuffle keeps the length and the multiset of cards |
| Decks.Shuffled | BlackJack.py:42-43 | the whole shuffle keeps the length and the multiset of cards |
| Decks.Deck.constructor | BlackJack.py:35-40 | as written: the new deck's list is what the shared list held followed by the canonical 52 |
| Decks.Deck.Fresh | BlackJack.py:37-40 | corrected: a deck with its own list holds exactly the canonical 52, with no card twice |
| Decks.Deck.Fill | BlackJack.py:38-40 | the nested loops append the canonical 52 to whatever the list held |
| Decks.Deck.Shuffle | BlackJack.py:42-43 | the list becomes the shuffle of the old list for the given random numbers; same multiset |
| Decks.Deck.GetNextCard | BlackJack.py:49-53 | returns and removes the last card, or returns no card and changes nothing on an empty deck |
| Decks.SharedListDuplicates | BlackJack.py:35-40 | once the shared list holds a card, a new deck holds more than 52 cards and some card twice |
| Decks.DistinctIffSingleCounts | BlackJack.py:42-43 | no repeated card exactly when every card occurs at most once in the multiset |
| Decks.PermutationKeepsDistinct | BlackJack.py:42-43 | rearranging distinct cards leaves them distinct |
| Players.SoftTotal | BlackJack.py:78-85 | computes the first loop's total, every card at its Value and so every Ace at 11; Totals and HardTotalIsSoftTotalLessAces relate it to the other totals |
| Players.AceCount | BlackJack.py:77-82 | computes the first loop's ace_count; AceCountCounts says it is the number of Ace positions |
| Players.HardTotal | BlackJack.py:77-91 | computes the total with every Ace at 1; HardTotalIsSoftTotalLessAces and ScoreBounds relate it to the score |
| Players.HandScore | BlackJack.py:75-92 | computes what score() returns: the soft total less 10 for each of Downgrades Aces; DowngradesMinimal says that is the fewest downgrades reaching 21 or less (or all Aces), ScoreBounds and ScoreIsBest bound it, and Player.Score is proved equal to it |
| Players.AceCountCounts | BlackJack.py:77-82 | the loop's Ace count is the number of positions in the hand holding an Ace |
| Players.Downgrades | BlackJack.py:87-91 | the number of Aces downgraded never exceeds the Aces held |
| Players.DowngradesMinimal | BlackJack.py:87-91 | every smaller number of downgrades still leaves the total above 21; the chosen number stops at 21 or less unless the Aces run out |
| Players.HardTotalIsSoftTotalLessAces | BlackJack.py:77-91 | the total with every Ace as 1 is the soft total less 10 per Ace |
| Players.ScoreBounds | BlackJack.py:87-91 | hard total <= score <= soft total; the score is above 21 exactly when the hard total is, and then every Ace has been downgraded |
| Players.ScoreIsBest | BlackJack.py:87-91 | any choice of downgrades that reaches 21 or less gives at most the score, and the score is then at most 21 |
| Players.ScoreExamples | BlackJack.py:75-92 | A+6 = 17, A+A+9 = 21, A+A+A+9 = 12, 10+K = 20, K+Q+5 = 25 |
| Players.Totals | BlackJack.py:77-85 | the soft total and the Ace count agree with their front-to-back forms |
| Players.Player.constructor | BlackJack.py:60-61 | a new player's hand is empty |
| Players.Player.TakeCard | BlackJack.py:62-63 | the card is appended to the hand |
| Players.Player.ThrowHand | BlackJack.py:65-66 | the hand becomes empty |
| Players.Player.Score | BlackJack.py:75-92 | the accumulator loop and the early-exit downgrade loop return exactly HandScore of the hand |
| Players.HumanPlayer.constructor | BlackJack.py:99-101 | a new human player has an empty hand and the given balance |
| Players.HumanPlayer.Default | BlackJack.py:99-101 | HumanPlayer() without an amount: an empty hand and a balance of 10000 |
| Players.HumanPlayer.AddBalance | BlackJack.py:107-108 | the balance grows by the amount |
| Players.HumanPlayer.ReduceBalance | BlackJack.py:110-111 | the balance shrinks by the amount |
| Players.AcceptBet | BlackJack.py:119-126 | an amount is accepted exactly when its absolute value is at most the balance, and the bet is then that absolute value, between 0 and the balance |
| Players.ParseHit | BlackJack.py:130-138 | H or h is a hit and S or s a stand, each in both directions; anything accepted is one letter |
| Players.HitLetterRoundTrip | BlackJack.py:130-138 | the letter of each decision is read back as that decision |
| Rounds.Payout | BlackJack.py:184-241 | computes the credit of an outcome: 3 × bet for a player 21 (opening or after a hit), 2 × bet for a dealer bust or a higher player score, 0 otherwise; PayoutValues and PayoutNonNegative state its range, RoundPayout when 2 × bet is paid |
| Rounds.ToPlayer | BlackJack.py:192-195 | an empty deck ends the round; otherwise the last card moves to the end of the player's hand |
| Rounds.ToDealer | BlackJack.py:216-219 | an empty deck ends the round; otherwise the last card moves to the end of the dealer's hand |
| Rounds.Deal | BlackJack.py:170-173 | computes the deal: player, dealer, player, dealer, each taking the deck's last card, stopping at the first empty draw; DealOrder says which card goes where, ShortDeckRunsOut that a deck under 4 cards runs out, DealConserves that no card is lost |
| Rounds.Opening | BlackJack.py:180-187 | computes the two blackjack checks: player 21 ends the round (BothBlackjack when the dealer has 21 too, else PlayerBlackjack), dealer 21 alone ends it as DealerBlackjack, otherwise the round goes on; OpeningResolution states each case and its payout |
| Rounds.Start | BlackJack.py:170-187 | computes the deal from empty hands and then the blackjack checks; StartTable says the checks move no card, StartRound runs it on the objects |
| Rounds.DealerDraw | BlackJack.py:217-230 | a dealer draw never changes the player's hand and shortens the deck unless the deck was empty |
| Rounds.DealerLoop | BlackJack.py:216-232 | the dealer's draws never change the player's hand and never lengthen the deck |
| Rounds.PlayerMove | BlackJack.py:191-207 | the player's half only lets the round go on below 21, after a hit with a shorter deck, after a stand with the table unchanged |
| Rounds.DealerTurn | BlackJack.py:210-245 | the dealer's half only lets the round go on after a hit |
| Rounds.Showdown | BlackJack.py:238-245 | computes the comparison after a stand: PlayerHigher when the player's score is higher, DealerHigherOrTie otherwise; StandPath proves the first never happens after the dealer's draws |
| Rounds.Turn | BlackJack.py:189-245 | a turn only lets the round go on after a hit, with a shorter deck |
| Rounds.Play | BlackJack.py:189-245 | the turn loop always ends the round |
| Rounds.Round | BlackJack.py:168-245 | a round always ends |
| Rounds.DealOrder | BlackJack.py:170-173 | from the end of a deck of 4 or more cards, the player gets the 1st and 3rd cards and the dealer the 2nd and 4th |
| Rounds.DrawInto | BlackJack.py:170-173 | take_card(get_next_card()) moves the last card into the hand, or reports an empty deck and changes nothing |
| Rounds.DealCards | BlackJack.py:170-173 | the four draws leave the objects as Deal says |
| Rounds.OpeningChecks | BlackJack.py:178-187 | both checks leave the round as Opening says; a player 21 credits 3 × bet |
| Rounds.StartRound | BlackJack.py:167-187 | bet debited, cards dealt, blackjacks checked, as Start says |
| Rounds.DealerDrawOnce | BlackJack.py:217-230 | one dealer draw is DealerDraw on the objects; a dealer bust credits 2 × bet |
| Rounds.DealerDraws | BlackJack.py:215-232 | the dealer's draw loop leaves the objects as DealerLoop says, crediting only what its result pays |
| Rounds.MovePlayer | BlackJack.py:191-207 | the player's half on the objects is PlayerMove; a 21 credits 3 × bet |
| Rounds.Compare | BlackJack.py:238-245 | the comparison after a stand is Showdown; a higher player score credits 2 × bet |
| Rounds.MoveDealer | BlackJack.py:210-245 | the dealer's half on the objects is DealerTurn, crediting what its outcome pays |
| Rounds.TakeTurn | BlackJack.py:189-245 | one pass of the turn loop on the objects is Turn of the table and the player's decision |
| Rounds.PlayTurns | BlackJack.py:189-245 | the turn loop on the objects ends as Play says, crediting the outcome's payout |
| Rounds.RunRound | BlackJack.py:167-245 | a round's outcome, remaining deck, player's hand and dealer's hand are those of Round; the balance is start − bet + payout |
| Rounds.PlayRound | BlackJack.py:167-248 | as RunRound; the accepted bet keeps the balance at or above 0, and both hands are thrown away |
| Rounds.NewRoundDeck | BlackJack.py:163-164 | as written: a round's deck is the shared list's leftovers plus 52 new cards, shuffled; same multiset |
| Rounds.FreshRoundDeck | BlackJack.py:163-164 | corrected: a round's deck is exactly the 52 distinct cards, shuffled |
| Rounds.ParsePlayAgain | BlackJack.py:147-155 | Y or y plays again and N or n stops, each in both directions; anything accepted is one letter |
| Rounds.PlayAgainLetterRoundTrip | BlackJack.py:147-155 | the letter of each answer is read back as that answer |
| Rounds.PayoutNonNegative | BlackJack.py:184-241 | with a non-negative bet, no credit is negative |
| RoundFacts.ShortDeckRunsOut | BlackJack.py:170-173 | a deck of fewer than four cards runs out during the deal |
| RoundFacts.OpeningResolution | BlackJack.py:180-187 | a player 21 pays 3 × bet even when the dealer also has 21; a dealer 21 alone pays nothing; the loop runs exactly when neither has 21 |
| RoundFacts.DealerDrawCases | BlackJack.py:217-230 | the dealer takes the last card; a 21 ends the round as a dealer 21, above 21 as a dealer bust |
| RoundFacts.DealerReachesTarget | BlackJack.py:216 | after a stand, the dealer's draws stop short of the target only by ending the round |
| RoundFacts.DealerDrawsOnceAfterHit | BlackJack.py:210-232 | after a hit, the dealer draws nothing at or above the target and exactly one draw below it |
| RoundFacts.HitPath | BlackJack.py:192-232 | a hit to 21 pays 3 × bet, a hit over 21 pays nothing; otherwise the dealer draws once only when below 18 |
| RoundFacts.HitOutcomes | BlackJack.py:192-236 | a hit never ends in a comparison of scores |
| RoundFacts.DealerLoopOutcomes | BlackJack.py:216-232 | the dealer's draws end a round only with a dealer 21, a dealer bust or an empty deck |
| RoundFacts.StandPath | BlackJack.py:196-245 | a stand always ends the round, and never with the player outscoring the dealer; a dealer win by comparison has the dealer at or above the player's score |
| RoundFacts.TurnNeverPlayerHigher | BlackJack.py:189-245 | no turn ends with the player outscoring the dealer |
| RoundFacts.PlayNeverPlayerHigher | BlackJack.py:189-245 | the turn loop never ends with the player outscoring the dealer |
| RoundFacts.RoundNeverPlayerHigher | BlackJack.py:238-241 | no round reaches the 2 × bet branch of the comparison |
| RoundFacts.LastCardSplit | BlackJack.py:51 | a deck's multiset is its prefix's plus its last card |
| RoundFacts.ToPlayerConserves | BlackJack.py:192-195 | a deal or a hit to the player moves a card without losing or duplicating one |
| RoundFacts.ToDealerConserves | BlackJack.py:216-219 | a draw to the dealer moves a card without losing or duplicating one |
| RoundFacts.DealConserves | BlackJack.py:170-173 | the deal keeps every card on the table |
| RoundFacts.DealerDrawTable | BlackJack.py:217-230 | whatever the scores, a dealer draw leaves the table ToDealer leaves |
| RoundFacts.DealerLoopConserves | BlackJack.py:216-232 | the dealer's draws keep every card on the table |
| RoundFacts.PlayerMoveTable | BlackJack.py:191-207 | whatever the scores, the player's half leaves the table the hit leaves |
| RoundFacts.DealerTurnTable | BlackJack.py:210-245 | whatever the scores, the dealer's half leaves the table its draw loop leaves, with 18 as the threshold after a hit and the player's score after a stand |
| RoundFacts.TurnConserves | BlackJack.py:189-245 | a turn keeps every card on the table |
| RoundFacts.PlayConserves | BlackJack.py:189-245 | the turn loop keeps every card on the table |
| RoundFacts.StartTable | BlackJack.py:170-187 | the blackjack checks move no card: after the opening the table is the one the deal left |
| RoundFacts.RoundConserves | BlackJack.py:163-245 | at the end of a round, deck and hands hold exactly the cards the deck held at the start |
| RoundFacts.PayoutValues | BlackJack.py:184-241 | a round credits 0, 2 × bet or 3 × bet |
| RoundFacts.RoundPayout | BlackJack.py:226-241 | a round credits 2 × bet only after a dealer bust |

## Left out

- Console output is left out: `print`, `Deck.output` and both `show_stats` (BlackJack.py:45-47, 68-72, 103-105) only display.
- The input retry loops of `get_bet`, `get_hit` and `get_playing` and the exception handler
  of `get_bet` (BlackJack.py:113-155) are left out. These loops repeat until the answer is
  valid. The model keeps what each loop accepts: `AcceptBet`, `ParseHit` and
  `ParsePlayAgain`. It takes the decisions as a `Strategy` function.
- `random.shuffle` is library randomness. `Shuffle` is the Fisher-Yates algorithm the
  library runs, driven by a `draws` parameter; a source that runs out gives 0.
- Money is `real`, not a binary float. Rounding, NaN and infinity from `float(input())` are left out.
- The session loop (BlackJack.py:159-162, 249) is left out. PlayRound models one round.
  NewRoundDeck models the deck a later round starts from. The player's balance carries over
  in the `HumanPlayer` object.
- An empty deck during a draw is modelled as an `Option` result that ends the round with
  `DeckExhausted`. The Python program appends `None` to the hand and crashes at the next
  `score()`; the crash is not modelled.
- `HumanPlayer` and `Dealer` inherit from `Player` in Python. The model gives `HumanPlayer`
  a `seat: Player` holding its hand, and makes the dealer a plain `Player`. The `name`
  attributes only display.
- Players.AcceptBet: states the rule one entered amount is judged by, not the loop that asks again until an amount passes.

## Findings

| source | as written | input that shows it | evidently intended | confidence | as-written member | corrected member |
|---|---|---|---|---|---|---|
| BlackJack.py:35-40 | `cards = []` is a class attribute, so every `Deck()` appends 52 more cards to one list shared by all decks | the second round: the first round's leftover cards (at most 48) plus 52 new ones, a deck of more than 52 cards with repeated cards | each deck holds exactly the 52 distinct cards | high (not executed) | Decks.Deck.constructor, Decks.SharedListDuplicates, Rounds.NewRoundDeck | Decks.Deck.Fresh, Rounds.FreshRoundDeck |
