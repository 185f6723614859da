/** What the rules of a round promise: how the opening checks, a hit and a stand resolve,
    that the comparison after a stand never pays, that no card is lost or duplicated, and
    what a round can credit. */
module RoundFacts {
  import opened Wrappers
  import opened Cards
  import opened Decks
  import opened Players
  import opened Rounds

  // ---------------------------------------------------------------------------
  // The deal and the opening checks
  // ---------------------------------------------------------------------------

  /** A deck of fewer than four cards runs out during the deal. */
  lemma ShortDeckRunsOut(deck: seq<Card>)
    requires |deck| < 4
    ensures Deal(Table(deck, [], [])) == Over(DeckExhausted, Deal(Table(deck, [], [])).table)
  {
    var t0 := Table(deck, [], []);
    if deck != [] {
      var t1 := ToPlayer(t0).table;
      assert |t1.deck| == |deck| - 1;
      if t1.deck != [] {
        var t2 := ToDealer(t1).table;
        assert |t2.deck| == |deck| - 2;
        if t2.deck != [] {
          var t3 := ToPlayer(t2).table;
          assert t3.deck == [];
        }
      }
    }
  }

  /** The two checks are independent: a player 21 is paid three times the bet whether or
      not the dealer also has 21; a dealer 21 alone pays nothing; otherwise the turn loop
      starts on the same table. */
  lemma OpeningResolution(t: Table, bet: real)
    ensures Opening(t).table == t
    ensures HandScore(t.player) == 21 && HandScore(t.dealer) == 21 ==> Opening(t) == Over(BothBlackjack, t)
    ensures HandScore(t.player) == 21 && HandScore(t.dealer) != 21 ==> Opening(t) == Over(PlayerBlackjack, t)
    ensures HandScore(t.player) == 21 ==> Payout(Opening(t).outcome, bet) == bet * 3.0
    ensures HandScore(t.player) != 21 && HandScore(t.dealer) == 21 ==> Opening(t) == Over(DealerBlackjack, t)
    ensures HandScore(t.player) != 21 && HandScore(t.dealer) == 21 ==> Payout(Opening(t).outcome, bet) == 0.0
    ensures Opening(t).Continue? <==> HandScore(t.player) != 21 && HandScore(t.dealer) != 21
  {
  }

  // ---------------------------------------------------------------------------
  // The dealer's draws
  // ---------------------------------------------------------------------------

  /** One dealer draw: the last card of the deck goes to the dealer, and a 21 or a bust
      ends the round. */
  lemma DealerDrawCases(t: Table)
    requires t.deck != []
    ensures var n := |t.deck|;
      var t1 := Table(t.deck[..n - 1], t.player, t.dealer + [t.deck[n - 1]]);
      var s := HandScore(t1.dealer);
      DealerDraw(t) == (if s == 21 then Over(DealerTwentyOne, t1)
                        else if s > 21 then Over(DealerBust, t1)
                        else Continue(t1))
  {
  }

  /** After a stand, the dealer's draws only stop short of the target when the round
      ends. */
  lemma {:induction false} DealerReachesTarget(t: Table, standsAt: int)
    ensures var r := DealerLoop(t, standsAt, false);
      r.Continue? ==> HandScore(r.table.dealer) >= standsAt
    decreases |t.deck|
  {
    if HandScore(t.dealer) < standsAt {
      var s := DealerDraw(t);
      if s.Continue? {
        DealerReachesTarget(s.table, standsAt);
        assert DealerLoop(t, standsAt, false) == DealerLoop(s.table, standsAt, false);
      }
    }
  }

  /** After a hit, the dealer draws at most one card, and only when below the target. */
  lemma DealerDrawsOnceAfterHit(t: Table, standsAt: int)
    ensures HandScore(t.dealer) >= standsAt ==> DealerLoop(t, standsAt, true) == Continue(t)
    ensures HandScore(t.dealer) < standsAt ==> DealerLoop(t, standsAt, true) == DealerDraw(t)
    ensures |DealerLoop(t, standsAt, true).table.dealer| <= |t.dealer| + 1
  {
    if HandScore(t.dealer) < standsAt && t.deck != [] {
      DealerDrawCases(t);
    }
  }

  // ---------------------------------------------------------------------------
  // A turn
  // ---------------------------------------------------------------------------

  /** A hit: the player takes the last card; a 21 ends the round paying three times the
      bet, a bust ends it paying nothing; otherwise the dealer draws one card if below 18
      and the loop goes on unless that draw ended the round. */
  lemma HitPath(t: Table)
    requires t.deck != []
    ensures var n := |t.deck|;
      var t1 := Table(t.deck[..n - 1], t.player + [t.deck[n - 1]], t.dealer);
      var r := Turn(t, true);
      (HandScore(t1.player) == 21 ==> r == Over(PlayerTwentyOne, t1)) &&
      (HandScore(t1.player) > 21 ==> r == Over(PlayerBust, t1)) &&
      (HandScore(t1.player) < 21 && HandScore(t1.dealer) >= 18 ==> r == Continue(t1)) &&
      (HandScore(t1.player) < 21 && HandScore(t1.dealer) < 18 ==> r == DealerDraw(t1))
  {
    var n := |t.deck|;
    var t1 := Table(t.deck[..n - 1], t.player + [t.deck[n - 1]], t.dealer);
    assert PlayerMove(t, true) == if HandScore(t1.player) == 21 then Over(PlayerTwentyOne, t1)
      else if HandScore(t1.player) > 21 then Over(PlayerBust, t1) else Continue(t1);
    DealerDrawsOnceAfterHit(t1, 18);
  }

  /** What a hit can end with: never a comparison of scores. */
  lemma HitOutcomes(t: Table)
    ensures var r := Turn(t, true);
      r.Over? ==> r.outcome in {PlayerTwentyOne, PlayerBust, DealerTwentyOne, DealerBust, DeckExhausted}
  {
    var s := PlayerMove(t, true);
    if s.Continue? {
      DealerDrawsOnceAfterHit(s.table, 18);
      if HandScore(s.table.dealer) < 18 && s.table.deck != [] {
        DealerDrawCases(s.table);
      }
    }
  }

  /** The dealer's draws end a round only with a dealer 21, a dealer bust or an empty
      deck. */
  lemma {:induction false} DealerLoopOutcomes(t: Table, standsAt: int, tookHit: bool)
    ensures var r := DealerLoop(t, standsAt, tookHit);
      r.Over? ==> r.outcome == DealerTwentyOne || r.outcome == DealerBust || r.outcome == DeckExhausted
    decreases |t.deck|
  {
    if HandScore(t.dealer) < standsAt {
      var s := DealerDraw(t);
      if s.Continue? && !tookHit {
        DealerLoopOutcomes(s.table, standsAt, tookHit);
      }
    }
  }

  /** A stand always ends the round. A 21 or a bust is judged first; otherwise the dealer
      draws towards the player's score, and when neither a dealer 21 nor a dealer bust
      ends the round, the dealer has at least the player's score, so the comparison goes
      to the dealer and the twice-the-bet branch never pays. */
  lemma StandPath(t: Table)
    ensures Turn(t, false).Over?
    ensures HandScore(t.player) == 21 ==> Turn(t, false) == Over(PlayerTwentyOne, t)
    ensures HandScore(t.player) > 21 ==> Turn(t, false) == Over(PlayerBust, t)
    ensures Turn(t, false).outcome != PlayerHigher
    ensures Turn(t, false).outcome == DealerHigherOrTie ==>
      HandScore(Turn(t, false).table.dealer) >= HandScore(t.player)
  {
    if HandScore(t.player) < 21 {
      assert PlayerMove(t, false) == Continue(t);
      var d := DealerLoop(t, HandScore(t.player), false);
      DealerReachesTarget(t, HandScore(t.player));
      DealerLoopOutcomes(t, HandScore(t.player), false);
      if d.Continue? {
        assert d.table.player == t.player;
        assert Turn(t, false) == Showdown(d.table) == Over(DealerHigherOrTie, d.table);
      } else {
        assert Turn(t, false) == d;
      }
    }
  }

  /** No turn ends with the player outscoring the dealer. */
  lemma TurnNeverPlayerHigher(t: Table, tookHit: bool)
    ensures Turn(t, tookHit).Continue? || Turn(t, tookHit).outcome != PlayerHigher
  {
    if tookHit {
      HitOutcomes(t);
    } else {
      StandPath(t);
    }
  }

  /** Hence no round ends that way: the 2 x bet comparison branch is dead code. */
  lemma {:induction false} PlayNeverPlayerHigher(t: Table, hit: Strategy)
    ensures Play(t, hit).outcome != PlayerHigher
    decreases |t.deck|
  {
    var s := Turn(t, hit(t.player, t.dealer));
    TurnNeverPlayerHigher(t, hit(t.player, t.dealer));
    if s.Continue? {
      PlayNeverPlayerHigher(s.table, hit);
    }
  }

  lemma RoundNeverPlayerHigher(deck: seq<Card>, hit: Strategy)
    ensures Round(deck, hit).outcome != PlayerHigher
  {
    var s := Start(deck);
    if s.Continue? {
      PlayNeverPlayerHigher(s.table, hit);
    }
  }

  // ---------------------------------------------------------------------------
  // Cards are moved, never lost or duplicated
  // ---------------------------------------------------------------------------

  lemma LastCardSplit(deck: seq<Card>)
    requires deck != []
    ensures multiset(deck) == multiset(deck[..|deck| - 1]) + multiset{deck[|deck| - 1]}
  {
    assert deck == deck[..|deck| - 1] + [deck[|deck| - 1]];
  }

  lemma ToPlayerConserves(t: Table)
    ensures AllCards(ToPlayer(t).table) == AllCards(t)
  {
    if t.deck != [] {
      LastCardSplit(t.deck);
    }
  }

  lemma ToDealerConserves(t: Table)
    ensures AllCards(ToDealer(t).table) == AllCards(t)
  {
    if t.deck != [] {
      LastCardSplit(t.deck);
    }
  }

  lemma DealConserves(t: Table)
    ensures AllCards(Deal(t).table) == AllCards(t)
  {
    var s1 := ToPlayer(t);
    ToPlayerConserves(t);
    if s1.Continue? {
      var s2 := ToDealer(s1.table);
      ToDealerConserves(s1.table);
      if s2.Continue? {
        var s3 := ToPlayer(s2.table);
        ToPlayerConserves(s2.table);
        if s3.Continue? {
          ToDealerConserves(s3.table);
        }
      }
    }
  }

  /** Whatever the scores, a dealer draw leaves the table ToDealer leaves. */
  lemma DealerDrawTable(t: Table)
    ensures DealerDraw(t).table == ToDealer(t).table
  {
  }

  lemma {:induction false} DealerLoopConserves(t: Table, standsAt: int, tookHit: bool)
    ensures AllCards(DealerLoop(t, standsAt, tookHit).table) == AllCards(t)
    decreases |t.deck|
  {
    if HandScore(t.dealer) < standsAt {
      var s := DealerDraw(t);
      DealerDrawTable(t);
      ToDealerConserves(t);
      assert AllCards(s.table) == AllCards(t);
      if s.Continue? && !tookHit {
        DealerLoopConserves(s.table, standsAt, tookHit);
        assert DealerLoop(t, standsAt, tookHit) == DealerLoop(s.table, standsAt, tookHit);
      } else {
        assert DealerLoop(t, standsAt, tookHit) == s;
      }
    }
  }

  /** Whatever the scores, the player's half leaves the table the hit leaves. */
  lemma PlayerMoveTable(t: Table, tookHit: bool)
    ensures PlayerMove(t, tookHit).table == if tookHit then ToPlayer(t).table else t
  {
  }

  /** Whatever the scores, the dealer's half leaves the table its draw loop leaves, with
      18 as the threshold after a hit and the player's score after a stand. */
  lemma DealerTurnTable(t: Table, tookHit: bool)
    ensures DealerTurn(t, tookHit).table
         == DealerLoop(t, if tookHit then 18 else HandScore(t.player), tookHit).table
  {
  }

  lemma TurnConserves(t: Table, tookHit: bool)
    ensures AllCards(Turn(t, tookHit).table) == AllCards(t)
  {
    var s := PlayerMove(t, tookHit);
    PlayerMoveTable(t, tookHit);
    if tookHit {
      ToPlayerConserves(t);
    }
    assert AllCards(s.table) == AllCards(t);
    if s.Continue? {
      DealerTurnTable(s.table, tookHit);
      DealerLoopConserves(s.table, if tookHit then 18 else HandScore(s.table.player), tookHit);
    }
  }

  lemma {:induction false} PlayConserves(t: Table, hit: Strategy)
    ensures AllCards(Play(t, hit).table) == AllCards(t)
    decreases |t.deck|
  {
    var s := Turn(t, hit(t.player, t.dealer));
    TurnConserves(t, hit(t.player, t.dealer));
    if s.Continue? {
      PlayConserves(s.table, hit);
    }
  }

  /** At the end of a round, the deck and the two hands hold exactly the cards the deck
      held at the start. */
  lemma RoundConserves(deck: seq<Card>, hit: Strategy)
    ensures AllCards(Round(deck, hit).table) == multiset(deck)
  {
    var t := Table(deck, [], []);
    DealConserves(t);
    StartTable(deck);
    var s := Start(deck);
    assert AllCards(t) == multiset(deck);
    if s.Continue? {
      PlayConserves(s.table, hit);
      assert Round(deck, hit) == Play(s.table, hit);
    } else {
      assert Round(deck, hit) == s;
    }
  }

  /** The blackjack checks move no card: the table after Start is the one the deal left. */
  lemma StartTable(deck: seq<Card>)
    ensures Start(deck).table == Deal(Table(deck, [], [])).table
  {
    var s := Deal(Table(deck, [], []));
    if s.Continue? {
      assert Opening(s.table).table == s.table;
    }
  }

  // ---------------------------------------------------------------------------
  // Money
  // ---------------------------------------------------------------------------

  /** A round credits nothing, twice or three times the bet. */
  lemma PayoutValues(o: Outcome, bet: real)
    ensures Payout(o, bet) == 0.0 || Payout(o, bet) == bet * 2.0 || Payout(o, bet) == bet * 3.0
  {
  }

  /** What a whole round can credit: never the stand comparison's twice the bet, so
      twice the bet comes only from a dealer bust. */
  lemma RoundPayout(deck: seq<Card>, hit: Strategy, bet: real)
    requires bet > 0.0
    ensures var o := Round(deck, hit).outcome;
      Payout(o, bet) == bet * 2.0 ==> o == DealerBust
  {
    RoundNeverPlayerHigher(deck, hit);
  }
}
