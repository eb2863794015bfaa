/**
 * What the canonical engine's rules guarantee: the table invariant that
 * `reset` establishes and every accepted `step` preserves (chip conservation,
 * the raise cap, the board sizes, balanced net results), the idempotence of
 * the showdown and the bounded length of a hand.
 */
module HulheProps {
  import opened Poker
  import opened HulheRules

  /** Neither seat has committed more this street than the table bet. */
  predicate BetsCovered(t: Table)
    requires TwoSeats(t)
  {
    t.players[0].currentBet <= t.currentBet && t.players[1].currentBet <= t.currentBet
  }

  /** A seat is flagged all-in exactly when its stack is empty. */
  predicate AllInExact(t: Table)
    requires TwoSeats(t)
  {
    (t.players[0].isAllIn <==> t.players[0].stack == 0.0)
    && (t.players[1].isAllIn <==> t.players[1].stack == 0.0)
  }

  predicate AnyAllIn(t: Table)
    requires TwoSeats(t)
  {
    t.players[0].isAllIn || t.players[1].isAllIn
  }

  /** The seat that made the last aggressive action has matched the table bet. */
  predicate LastRaiserMatched(t: Table)
    requires TwoSeats(t) && IsSeat(t.lastRaiser)
  {
    t.players[t.lastRaiser].currentBet == t.currentBet
  }

  /** The net results of a finished hand sum to zero. */
  predicate Balanced(res: HandResult)
  {
    |res.results| == 2 && res.results[0] + res.results[1] == 0.0
  }

  /**
   * The table invariant. While the hand is running the pot holds exactly what
   * the seats have put in since the hand started; once it is over the stacks
   * add up to what they added up to at the start.
   */
  predicate Inv(t: Table)
  {
    && Playable(t) && IsSeat(t.lastRaiser)
    && 0 <= t.raises <= RAISE_LIMIT
    && IsBoardSize(|t.community|)
    && t.players[0].stack >= 0.0 && t.players[1].stack >= 0.0
    && (!t.done ==> && t.pot == Committed(t) && t.pot >= 0.0 && t.winnerInfo == None
                    && BetsCovered(t) && AllInExact(t)
                    && (!AnyAllIn(t) ==> LastRaiserMatched(t)))
    && (t.done ==> StackSum(t) == StartSum(t))
    && (t.winnerInfo.Some? ==> t.done && Balanced(t.winnerInfo.value))
  }

  /** `reset` starts a hand in which the invariant holds. */
  lemma ResetEstablishesInv(t: Table, shuffled: seq<Card>, randomize: bool, p0Stack: int, totalStack: int,
                            smallBlind: real, bigBlind: real)
    requires TwoSeats(t) && IsSeat(t.button) && |shuffled| == DECK_SIZE
    requires randomize ==> 10 <= p0Stack <= totalStack - 10
    requires totalStack >= 0 && 0.0 <= smallBlind <= bigBlind
    ensures Inv(Reset(t, shuffled, randomize, p0Stack, totalStack, smallBlind, bigBlind))
  {
    var r := Reset(t, shuffled, randomize, p0Stack, totalStack, smallBlind, bigBlind);
    var stacks := StartStacks(randomize, p0Stack, totalStack);
    assert stacks.0 >= 0.0 && stacks.1 >= 0.0;
    var cleared := NewHand(t, shuffled, randomize, p0Stack, totalStack);
    assert r == PostBlinds(cleared, smallBlind, bigBlind);
    assert AllInExact(r) && BetsCovered(r);
  }

  /** The running-hand part of the invariant, as it stands after an action and before the street may close. */
  predicate Running(a: Table)
  {
    && Playable(a) && IsSeat(a.lastRaiser) && !a.done && a.winnerInfo == None
    && 0 <= a.raises <= RAISE_LIMIT && IsBoardSize(|a.community|)
    && a.players[0].stack >= 0.0 && a.players[1].stack >= 0.0
    && a.pot == Committed(a) && a.pot >= 0.0 && AllInExact(a)
    && (!AnyAllIn(a) ==> BetsCovered(a) && LastRaiserMatched(a))
  }

  /** A legal action other than fold keeps the running hand's ledger. */
  lemma ActionKeepsLedger(t: Table, action: string, smallBet: real, bigBet: real)
    requires Inv(t) && !t.done && action in LegalActions(t) && action != "fold"
    requires 0.0 <= smallBet && 0.0 <= bigBet
    ensures var a := ApplyAction(t, t.currentPlayer, action, smallBet, bigBet);
      && Running(a) && a.community == t.community && a.deck == t.deck && a.button == t.button
      && a.history == t.history
      && ((action == "check" || action == "call") && !AnyAllIn(a) ==>
            a.players[t.currentPlayer].currentBet == a.currentBet && a.raises == t.raises
            && a.lastRaiser == t.lastRaiser && a.currentPlayer == 1 - t.currentPlayer)
      && (action == "raise" ==> a.raises == t.raises + 1 && a.currentPlayer != a.lastRaiser)
  {
    var p := t.currentPlayer;
    var a := ApplyAction(t, p, action, smallBet, bigBet);
    assert IsActionName(action);
    if action == "call" {
      assert t.players[p].currentBet < t.currentBet;
      assert a == HandleCall(t);
      if AnyAllIn(t) {
        assert AnyAllIn(a);
      }
    } else if action == "raise" {
      assert t.raises < RAISE_LIMIT;
      assert a == HandleRaise(t, p, smallBet, bigBet);
    } else {
      assert action == "check";
      assert a == HandleCheck(t, p);
      assert t.players[p].currentBet == t.currentBet;
    }
  }

  /** A fold ends the hand with the stacks back to their starting total. */
  lemma FoldEndsHand(t: Table)
    requires Inv(t) && !t.done
    ensures var f := HandleFold(t, t.currentPlayer);
      && f.done && StackSum(f) == StartSum(f) && f.winnerInfo.Some? && Balanced(f.winnerInfo.value)
  {
    var p := t.currentPlayer;
    var o := 1 - p;
    var paid := t.(players := t.players[o := t.players[o].(stack := t.players[o].stack + t.pot)], done := true);
    assert StackSum(paid) == StackSum(t) + t.pot;
    assert StartSum(paid) == StartSum(t);
  }

  /** A showdown of a running hand pays the whole pot and balances the results. */
  lemma ShowdownEndsHand(t: Table, evaluate: Evaluator)
    requires TwoSeats(t) && !t.done && t.pot == Committed(t)
    ensures var s := Showdown(t, evaluate);
      && s.done && StackSum(s) == StartSum(s) && s.winnerInfo.Some? && Balanced(s.winnerInfo.value)
  {
    var s := Showdown(t, evaluate);
    assert StartSum(s) == StartSum(t);
  }

  /** Closing a street of a running hand restores the invariant. */
  lemma EndRoundKeepsInv(a: Table, evaluate: Evaluator)
    requires Running(a)
    ensures Inv(EndBettingRound(a, evaluate))
  {
    var cleared := ClearStreet(a);
    assert StartSum(cleared) == StartSum(a) && StackSum(cleared) == StackSum(a);
    if AnyAllIn(a) {
      var dealt := Deal(cleared, 5 - |a.community|);
      ShowdownEndsHand(dealt, evaluate);
    } else if |a.community| == 5 {
      ShowdownEndsHand(cleared, evaluate);
    } else {
      assert AllInExact(cleared);
    }
  }

  /** Every accepted `step` preserves the invariant. */
  lemma StepPreservesInv(t: Table, action: string, smallBet: real, bigBet: real, evaluate: Evaluator)
    requires Inv(t) && 0.0 <= smallBet && 0.0 <= bigBet
    ensures Step(t, action, smallBet, bigBet, evaluate).Success? ==>
              Inv(Step(t, action, smallBet, bigBet, evaluate).value)
  {
    if t.done || action !in LegalActions(t) {
      return;
    }
    var p := t.currentPlayer;
    var a := ApplyAction(t, p, action, smallBet, bigBet);
    var rec := RecordAction(a, p, action);
    if action == "fold" {
      FoldEndsHand(t);
      RecordKeepsEnded(a, p, action);
      assert Step(t, action, smallBet, bigBet, evaluate).value == rec;
      return;
    }
    ActionKeepsLedger(t, action, smallBet, bigBet);
    RecordKeepsRunning(a, p, action);
    CloseOrContinue(rec, evaluate);
  }

  /** Recording an action after a fold keeps the finished hand's part of the invariant. */
  lemma RecordKeepsEnded(f: Table, i: int, action: string)
    requires TwoSeats(f) && f.done && StackSum(f) == StartSum(f) && f.winnerInfo.Some? && Balanced(f.winnerInfo.value)
    requires Playable(f) && IsSeat(f.lastRaiser) && 0 <= f.raises <= RAISE_LIMIT && IsBoardSize(|f.community|)
    requires f.players[0].stack >= 0.0 && f.players[1].stack >= 0.0
    ensures Inv(RecordAction(f, i, action))
  {
  }

  /** Recording an action leaves the running-hand ledger as it is. */
  lemma RecordKeepsRunning(a: Table, i: int, action: string)
    requires Running(a)
    ensures Running(RecordAction(a, i, action))
  {
  }

  /** After an accepted check, call or raise, the table either stays running with the street open or closes the street. */
  lemma CloseOrContinue(rec: Table, evaluate: Evaluator)
    requires Running(rec)
    ensures Inv(if IsBettingOver(rec) then EndBettingRound(rec, evaluate) else rec)
  {
    if IsBettingOver(rec) {
      EndRoundKeepsInv(rec, evaluate);
    }
  }

  /** `_showdown` a second time changes nothing. */
  lemma ShowdownIdempotent(t: Table, evaluate: Evaluator)
    requires TwoSeats(t)
    ensures Showdown(Showdown(t, evaluate), evaluate) == Showdown(t, evaluate)
  {
  }

  /** Once the raise counter reaches the limit, raise is no longer offered, and it never exceeds it. */
  lemma RaiseCapHolds(t: Table)
    requires Inv(t)
    ensures t.raises <= RAISE_LIMIT
    ensures !t.done ==> ("raise" in LegalActions(t) <==> t.raises < RAISE_LIMIT)
  {
  }

  /** The street number of a board size: preflop 0, flop 1, turn 2, river 3. */
  function StreetIndex(boardSize: int): int
  {
    if boardSize == 0 then 0 else boardSize - 2
  }

  /**
   * An upper bound on the actions left in the hand: 20 per street still to come,
   * 3 per raise still allowed on this street, and 2 or 1 for the checks or calls
   * that can still close it.
   */
  function ActionBudget(t: Table): nat
    requires Inv(t)
  {
    20 * (3 - StreetIndex(|t.community|)) + 3 * (RAISE_LIMIT - t.raises)
    + (if t.currentPlayer == t.lastRaiser then 2 else 1)
  }

  /** A hand starts with at most 80 actions ahead of it. */
  lemma BudgetBounded(t: Table)
    requires Inv(t)
    ensures 1 <= ActionBudget(t) <= 80
  {
  }

  /** Every accepted `step` that does not end the hand uses up part of the budget, so every hand ends. */
  lemma StepShortensHand(t: Table, action: string, smallBet: real, bigBet: real, evaluate: Evaluator)
    requires Inv(t) && 0.0 <= smallBet && 0.0 <= bigBet
    requires Step(t, action, smallBet, bigBet, evaluate).Success?
    ensures var r := Step(t, action, smallBet, bigBet, evaluate).value;
      Inv(r) && (!r.done ==> ActionBudget(r) < ActionBudget(t))
  {
    StepPreservesInv(t, action, smallBet, bigBet, evaluate);
    var p := t.currentPlayer;
    var a := ApplyAction(t, p, action, smallBet, bigBet);
    var rec := RecordAction(a, p, action);
    var r := Step(t, action, smallBet, bigBet, evaluate).value;
    if action == "fold" {
      assert r == rec;
      return;
    }
    ActionKeepsLedger(t, action, smallBet, bigBet);
    if IsBettingOver(rec) {
      assert r == EndBettingRound(rec, evaluate);
      if !r.done {
        assert !AnyAllIn(rec) && |rec.community| < 5;
        assert StreetIndex(|r.community|) == StreetIndex(|t.community|) + 1;
      }
    } else {
      assert r == rec;
      assert !AnyAllIn(a);
      if action != "raise" {
        assert a.currentPlayer != a.lastRaiser;
      }
    }
  }

  /** Dealing `m` cards and then `n` more is dealing `m + n`. */
  lemma DealAdds(t: Table, m: nat, n: nat)
    requires m + n <= |t.deck|
    ensures Deal(Deal(t, m), n) == Deal(t, m + n)
  {
    assert t.deck[..m] + t.deck[m..][..n] == t.deck[..m + n];
    assert t.deck[m..][n..] == t.deck[m + n..];
  }
}
