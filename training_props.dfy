/**
 * What the older engine's rules guarantee: chips are neither created nor lost
 * by `step` or by a `reset` after a finished hand, the table invariant holds
 * throughout a match, a legal preflop raise always finds its target, the
 * all-in refund levels the street bets, and the showdown is idempotent.
 */
module TrainingProps {
  import opened Poker
  import opened TrainingRules

  predicate BetsNonNegative(t: Table)
    requires TwoSeats(t)
  {
    t.players[0].currentBet >= 0.0 && t.players[1].currentBet >= 0.0 && t.currentBet >= 0.0
  }

  /** The table invariant of a match. */
  predicate Inv(t: Table)
  {
    && Playable(t) && IsSeat(t.lastRaiser)
    && t.raises <= RAISE_LIMIT
    && IsBoardSize(|t.community|)
    && t.players[0].stack >= 0.0 && t.players[1].stack >= 0.0
    && (!t.done ==> && t.winnerInfo == None && BetsNonNegative(t)
                    && t.pot >= t.players[0].currentBet + t.players[1].currentBet)
    && (t.winnerInfo.Some? ==> t.done)
  }

  /** `reset` keeps the invariant, both when it reports the match over and when it starts a hand. */
  lemma ResetKeepsInv(t: Table, shuffled: seq<Card>, smallBlind: real, bigBlind: real)
    requires Inv(t) && |shuffled| == DECK_SIZE && 0.0 <= smallBlind && 0.0 <= bigBlind
    ensures Inv(Reset(t, shuffled, smallBlind, bigBlind).0)
  {
    if !SomeoneBroke(t) {
      var cleared := NewHand(t, shuffled);
      var sb, bb := cleared.button, 1 - cleared.button;
      var t1 := RecordAction(PlayerBet(cleared, sb, smallBlind), sb, "small_blind");
      var t2 := RecordAction(PlayerBet(t1, bb, bigBlind), bb, "big_blind");
      assert Reset(t, shuffled, smallBlind, bigBlind).0 == t2.(currentBet := bigBlind, lastRaiser := bb, currentPlayer := sb);
      assert t2.players[sb].currentBet == Min(smallBlind, t.players[sb].stack);
    }
  }

  /** A `reset` after a finished hand neither creates nor loses chips. */
  lemma ResetKeepsChips(t: Table, shuffled: seq<Card>, smallBlind: real, bigBlind: real)
    requires TwoSeats(t) && IsSeat(t.button) && |shuffled| >= 4 && t.done
    ensures Chips(Reset(t, shuffled, smallBlind, bigBlind).0) == Chips(t)
  {
  }

  /** A legal preflop raise always has a target: the counter is below 3 and the target is 4, 6 or 8. */
  lemma PreflopTargetInRange(t: Table)
    requires Inv(t) && !t.done && |t.community| == 0 && "raise" in LegalActions(t)
    ensures 0 <= t.raises < |PREFLOP_RAISE_TARGETS|
    ensures RaiseTarget(t) == 4.0 || RaiseTarget(t) == 6.0 || RaiseTarget(t) == 8.0
  {
  }

  /**
   * When the opponent has matched the table bet, a call leaves both street bets
   * equal: by matching it, or, for an all-in caller short of it, by the refund.
   */
  lemma CallLevelsBets(t: Table, i: int)
    requires TwoSeats(t) && IsSeat(i) && t.players[1 - i].currentBet == t.currentBet
    ensures var r := HandleCall(t, i);
      r.players[0].currentBet == r.players[1].currentBet && StackSum(r) + r.pot == StackSum(t) + t.pot
  {
    var t1 := PlayerBet(t, i, t.currentBet - t.players[i].currentBet);
    assert t1.players[i].currentBet <= t.currentBet;
    assert t1.players[1 - i] == t.players[1 - i];
  }

  /** An accepted action keeps every chip at the table until the street may close. */
  lemma ActionKeepsChips(t: Table, action: string)
    requires Inv(t) && !t.done && action in LegalActions(t)
    ensures var a := ApplyAction(t, t.currentPlayer, action);
      && TwoSeats(a) && Chips(a) == Chips(t)
      && a.community == t.community && a.deck == t.deck && a.button == t.button && a.history == t.history
      && (action != "fold" ==> !a.done && a.winnerInfo == None && IsSeat(a.currentPlayer) && IsSeat(a.lastRaiser))
  {
    assert IsActionName(action);
  }

  /** A legal action other than fold keeps the running part of the invariant. */
  lemma ActionKeepsInv(t: Table, action: string)
    requires Inv(t) && !t.done && action in LegalActions(t) && action != "fold"
    ensures var a := ApplyAction(t, t.currentPlayer, action);
      && Inv(a) && a.community == t.community && a.deck == t.deck && a.history == t.history
  {
    assert IsActionName(action);
    if action == "call" {
      CallKeepsInv(t);
    } else if action == "raise" {
      RaiseKeepsInv(t);
    }
  }

  /** A call in a running hand keeps the invariant: the caller's bet only grows and the pot grows with it. */
  lemma CallKeepsInv(t: Table)
    requires Inv(t) && !t.done
    ensures var a := HandleCall(t, t.currentPlayer);
      && Inv(a) && a.community == t.community && a.deck == t.deck && a.history == t.history
  {
    var p := t.currentPlayer;
    var t1 := PlayerBet(t, p, t.currentBet - t.players[p].currentBet);
    assert t1.players[p].currentBet >= 0.0;
    assert t1.pot >= t1.players[0].currentBet + t1.players[1].currentBet;
  }

  /** A raise below the cap keeps the invariant: its target is never negative. */
  lemma RaiseKeepsInv(t: Table)
    requires Inv(t) && !t.done && t.raises < RAISE_LIMIT
    ensures var a := HandleRaise(t, t.currentPlayer);
      && Inv(a) && a.community == t.community && a.deck == t.deck && a.history == t.history
  {
    assert RaiseTarget(t) >= 0.0;
  }

  /** Closing a street keeps the invariant and every chip. */
  lemma EndRoundKeepsInv(a: Table, evaluate: Evaluator)
    requires Inv(a) && !a.done
    ensures Inv(EndBettingRound(a, evaluate)) && Chips(EndBettingRound(a, evaluate)) == Chips(a)
  {
    var cleared := ClearStreet(a);
    assert StackSum(cleared) == StackSum(a);
    if a.players[0].isAllIn || a.players[1].isAllIn {
      var dealt := Deal(cleared, 5 - |a.community|);
      assert StackSum(dealt) == StackSum(a);
    }
  }

  /** Every accepted `step` keeps the invariant and every chip at the table. */
  lemma StepKeepsInvAndChips(t: Table, action: string, evaluate: Evaluator)
    requires Inv(t)
    ensures var r := Step(t, action, evaluate);
      r.Success? ==> Inv(r.value) && Chips(r.value) == Chips(t)
  {
    if t.done || action !in LegalActions(t) {
      return;
    }
    var p := t.currentPlayer;
    var a := ApplyAction(t, p, action);
    var rec := RecordAction(a, p, action);
    ActionKeepsChips(t, action);
    if action == "fold" {
      assert Step(t, action, evaluate).value == rec;
      return;
    }
    ActionKeepsInv(t, action);
    if IsBettingOver(rec) {
      EndRoundKeepsInv(rec, evaluate);
    }
  }

  /** `_showdown` a second time changes nothing. */
  lemma ShowdownIdempotent(t: Table, evaluate: Evaluator)
    requires TwoSeats(t)
    ensures Showdown(Showdown(t, evaluate), evaluate) == Showdown(t, evaluate)
  {
  }

  /** Dealing `m` cards and then `n` more is dealing `m + n`. */
  lemma DealAdds(t: Table, m: nat, n: nat)
    requires m + n <= |t.deck|
    ensures Deal(Deal(t, m), n) == Deal(t, m + n)
  {
    assert t.deck[..m] + t.deck[m..][..n] == t.deck[..m + n];
    assert t.deck[m..][n..] == t.deck[m + n..];
  }
}
