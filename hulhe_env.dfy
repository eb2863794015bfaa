/**
 * The canonical `PokerEnv` object (HULHE_env/environment.py) with its state
 * held in fields that its methods update in place. Every method is proved to
 * leave the object in the state the matching function of `HulheRules` computes
 * from the state before the call; `reset` and `step` also keep the table
 * invariant of `HulheProps`.
 */
module HulheEnv {
  import opened Poker
  import opened HulheRules
  import HulheProps

  class PokerEnv {
    // configuration, fixed at construction
    const initialTotalStack: nat
    const bigBlind: nat
    const smallBlind: nat
    const smallBet: nat
    const bigBet: nat
    const evaluator: Evaluator

    // the two seats, updated in place
    const players: array<Player>

    // the hand in progress
    var deck: seq<Card>
    var buttonPlayer: int
    var communityCards: seq<Card>
    var pot: real
    var raisesThisRound: int
    var done: bool
    var winnerInfo: Option<HandResult>
    var actionHistory: seq<Entry>
    var currentBet: real
    var lastRaiser: int
    var currentPlayer: int

    /** The object's state as a value of the rules module. */
    ghost function Abs(): Table
      reads this, players
    {
      Table(players[..], deck, buttonPlayer, communityCards, pot, raisesThisRound, done,
            winnerInfo, actionHistory, currentBet, lastRaiser, currentPlayer)
    }

    /** The blinds and bet sizes derived from the big blind, and the table invariant. */
    ghost predicate Valid()
      reads this, players
    {
      && players.Length == 2
      && smallBlind == bigBlind / 2 && smallBet == bigBlind && bigBet == 2 * bigBlind
      && HulheProps.Inv(Abs())
    }

    /**
     * `__init__`: empty seats, a full deck and the button drawn at random
     * (`button` is that draw). No hand is in progress until `Reset`.
     */
    constructor (initialTotalStack: nat, bigBlind: nat, evaluate: Evaluator, freshDeck: seq<Card>, button: int)
      requires |freshDeck| == DECK_SIZE && IsSeat(button)
      ensures Valid() && fresh(players)
      ensures this.initialTotalStack == initialTotalStack && this.bigBlind == bigBlind
      ensures smallBlind == bigBlind / 2 && smallBet == bigBlind && bigBet == 2 * bigBlind
      ensures evaluator == evaluate && buttonPlayer == button && deck == freshDeck && done
    {
      var seat := Player(0.0, [], 0.0, false, 0.0);
      this.initialTotalStack := initialTotalStack;
      this.bigBlind := bigBlind;
      smallBlind := bigBlind / 2;
      smallBet := bigBlind;
      bigBet := 2 * bigBlind;
      evaluator := evaluate;
      players := new Player[2] [seat, seat];
      deck := freshDeck;
      buttonPlayer := button;
      communityCards := [];
      pot := 0.0;
      raisesThisRound := 0;
      done := true;
      winnerInfo := None;
      actionHistory := [];
      currentBet := 0.0;
      lastRaiser := 0;
      currentPlayer := 0;
    }

    /** `deck.draw(n)`: take the top `n` cards. */
    method Draw(n: nat) returns (cards: seq<Card>)
      requires n <= |deck|
      modifies this`deck
      ensures cards == old(deck)[..n] && deck == old(deck)[n..]
      ensures old(deck) == cards + deck
    {
      cards := deck[..n];
      deck := deck[n..];
    }

    /**
     * `reset`: start a new hand from the freshly shuffled deck `shuffled`;
     * `p0Stack` is seat 0's randomly drawn stack when `randomize` holds.
     */
    method Reset(randomize: bool, shuffled: seq<Card>, p0Stack: int)
      requires Valid() && |shuffled| == DECK_SIZE
      requires randomize ==> 10 <= p0Stack <= initialTotalStack - 10
      modifies this, players
      ensures Valid()
      ensures Abs() == HulheRules.Reset(old(Abs()), shuffled, randomize, p0Stack, initialTotalStack,
                                        smallBlind as real, bigBlind as real)
    {
      HulheProps.ResetEstablishesInv(Abs(), shuffled, randomize, p0Stack, initialTotalStack,
                                     smallBlind as real, bigBlind as real);
      StartHand(randomize, shuffled, p0Stack);
      PostBlinds();
    }

    /** The part of `reset` before the blinds: clear the hand, give out the stacks and deal the hole cards. */
    method StartHand(randomize: bool, shuffled: seq<Card>, p0Stack: int)
      requires players.Length == 2 && IsSeat(buttonPlayer) && |shuffled| == DECK_SIZE
      modifies this, players
      ensures Abs() == NewHand(old(Abs()), shuffled, randomize, p0Stack, initialTotalStack)
    {
      ClearHand(shuffled);
      var stacks := StartStacks(randomize, p0Stack, initialTotalStack);
      players[0] := players[0].(stack := stacks.0);
      players[1] := players[1].(stack := stacks.1);
      DealHoleCards();
      assert players[..] == [Player(stacks.0, shuffled[..2], 0.0, false, stacks.0),
                             Player(stacks.1, shuffled[2..4], 0.0, false, stacks.1)];
    }

    /** The assignments at the head of `reset`: move the button, take the shuffled deck and clear the hand. */
    method ClearHand(shuffled: seq<Card>)
      modifies this
      ensures Abs() == old(Abs()).(button := 1 - old(buttonPlayer), deck := shuffled, community := [], pot := 0.0,
                                   raises := 0, done := false, winnerInfo := None, history := [])
    {
      buttonPlayer := 1 - buttonPlayer;
      deck := shuffled;
      communityCards := [];
      pot := 0.0;
      raisesThisRound := 0;
      done := false;
      winnerInfo := None;
      actionHistory := [];
    }

    /** The loop of `reset` over the seats: two cards each, a fresh bet and the hand's starting stack. */
    method DealHoleCards()
      requires players.Length == 2 && |deck| >= 4
      modifies this`deck, players
      ensures deck == old(deck)[4..]
      ensures forall k | 0 <= k < 2 :: players[k] == old(players[k]).(hand := old(deck)[2 * k..2 * k + 2],
                currentBet := 0.0, isAllIn := false, initialHandStack := old(players[k]).stack)
    {
      for i := 0 to 2
        invariant deck == old(deck)[2 * i..]
        invariant forall k | 0 <= k < i :: players[k] == old(players[k]).(hand := old(deck)[2 * k..2 * k + 2],
                    currentBet := 0.0, isAllIn := false, initialHandStack := old(players[k]).stack)
        invariant forall k | i <= k < 2 :: players[k] == old(players[k])
      {
        var hand := Draw(2);
        players[i] := players[i].(hand := hand, currentBet := 0.0, isAllIn := false, initialHandStack := players[i].stack);
      }
    }

    /** `_post_blinds`. */
    method PostBlinds()
      requires players.Length == 2 && IsSeat(buttonPlayer)
      modifies this, players
      ensures Abs() == HulheRules.PostBlinds(old(Abs()), smallBlind as real, bigBlind as real)
    {
      var sbIdx, bbIdx := buttonPlayer, 1 - buttonPlayer;
      PostBlind(sbIdx, smallBlind as real, "small_blind");
      PostBlind(bbIdx, bigBlind as real, "big_blind");
      ghost var t2 := Abs();
      currentBet := bigBlind as real;
      lastRaiser := bbIdx;
      currentPlayer := sbIdx;
      assert Abs() == t2.(currentBet := bigBlind as real, lastRaiser := bbIdx, currentPlayer := sbIdx);
    }

    /** One blind of `_post_blinds`: the seat bets the blind and the history records it. */
    method PostBlind(playerIdx: int, amount: real, name: string)
      requires players.Length == 2 && IsSeat(playerIdx)
      modifies players, `pot, `actionHistory
      ensures Abs() == HulheRules.RecordAction(HulheRules.PlayerBet(old(Abs()), playerIdx, amount), playerIdx, name)
    {
      var _ := PlayerBet(playerIdx, amount);
      RecordAction(playerIdx, name);
    }

    /**
     * `step`: refuse the action, leaving the state alone, when the hand is over
     * or the action is not legal; otherwise play it.
     */
    method Step(action: string) returns (err: Option<StepError>)
      requires Valid()
      modifies this, players
      ensures Valid()
      ensures var r := HulheRules.Step(old(Abs()), action, smallBet as real, bigBet as real, evaluator);
        && (r.Failure? ==> err == Some(r.error) && Abs() == old(Abs()))
        && (r.Success? ==> err == None && Abs() == r.value)
    {
      HulheProps.StepPreservesInv(Abs(), action, smallBet as real, bigBet as real, evaluator);
      if done {
        return Some(GameOver);
      }
      var playerIdx := currentPlayer;
      var legal := GetLegalActions();
      if action !in legal {
        return Some(IllegalAction(action, playerIdx));
      }
      Play(action);
      err := None;
    }

    /** The body of `step` once the action has been accepted. */
    method Play(action: string)
      requires players.Length == 2 && Playable(Abs()) && !done && action in LegalActions(Abs())
      modifies this, players
      ensures Abs() == HulheRules.Step(old(Abs()), action, smallBet as real, bigBet as real, evaluator).value
    {
      ghost var t := Abs();
      var playerIdx := currentPlayer;
      if action == "fold" {
        HandleFold(playerIdx);
      } else if action == "check" {
        HandleCheck(playerIdx);
      } else if action == "call" {
        HandleCall(playerIdx);
      } else if action == "raise" {
        HandleRaise(playerIdx);
      }
      assert Abs() == ApplyAction(t, playerIdx, action, smallBet as real, bigBet as real);
      RecordAction(playerIdx, action);
      if !done {
        var over := IsBettingOver();
        if over {
          EndBettingRound();
        }
      }
    }

    /** `get_legal_actions`. */
    method GetLegalActions() returns (actions: seq<string>)
      requires players.Length == 2 && IsSeat(currentPlayer)
      ensures actions == LegalActions(Abs())
    {
      if done {
        return [];
      }
      actions := ["fold"];
      var player := players[currentPlayer];
      if player.currentBet < currentBet {
        actions := actions + ["call"];
      } else {
        actions := actions + ["check"];
      }
      if raisesThisRound < RAISE_LIMIT {
        actions := actions + ["raise"];
      }
    }

    /** `_handle_fold`. */
    method HandleFold(playerIdx: int)
      requires players.Length == 2 && IsSeat(playerIdx)
      modifies this, players
      ensures Abs() == HulheRules.HandleFold(old(Abs()), playerIdx)
    {
      var oppIdx := 1 - playerIdx;
      players[oppIdx] := players[oppIdx].(stack := players[oppIdx].stack + pot);
      done := true;
      FinalizeHand(oppIdx, ByFold);
    }

    /** `_handle_check`. */
    method HandleCheck(playerIdx: int)
      requires players.Length == 2
      modifies this
      ensures Abs() == HulheRules.HandleCheck(old(Abs()), playerIdx)
    {
      currentPlayer := 1 - playerIdx;
    }

    /** `_handle_call`: the amount is taken for the seat to act, whatever `playerIdx` says. */
    method HandleCall(playerIdx: int)
      requires players.Length == 2 && IsSeat(currentPlayer)
      modifies this, players
      ensures Abs() == HulheRules.HandleCall(old(Abs()))
    {
      var amountToCall := currentBet - players[currentPlayer].currentBet;
      var _ := PlayerBet(currentPlayer, amountToCall);
      currentPlayer := 1 - currentPlayer;
    }

    /** `_handle_raise`. */
    method HandleRaise(playerIdx: int)
      requires players.Length == 2 && IsSeat(playerIdx)
      modifies this, players
      ensures Abs() == HulheRules.HandleRaise(old(Abs()), playerIdx, smallBet as real, bigBet as real)
    {
      var betSize := if |communityCards| <= 3 then smallBet as real else bigBet as real;
      var targetBet := currentBet + betSize;
      var amountToRaise := targetBet - players[playerIdx].currentBet;
      var _ := PlayerBet(playerIdx, amountToRaise);
      currentBet := players[playerIdx].currentBet;
      raisesThisRound := raisesThisRound + 1;
      lastRaiser := playerIdx;
      currentPlayer := 1 - playerIdx;
    }

    /** `_is_betting_over`. */
    method IsBettingOver() returns (over: bool)
      requires players.Length == 2
      ensures over == HulheRules.IsBettingOver(Abs())
    {
      var p0, p1 := players[0], players[1];
      if p0.isAllIn || p1.isAllIn {
        return true;
      }
      return p0.currentBet == p1.currentBet && currentPlayer == lastRaiser;
    }

    /** `_player_bet`: returns the amount actually committed. */
    method PlayerBet(playerIdx: int, amount: real) returns (betAmount: real)
      requires players.Length == 2 && IsSeat(playerIdx)
      modifies players, `pot
      ensures betAmount == Min(amount, old(players[playerIdx].stack))
      ensures Abs() == HulheRules.PlayerBet(old(Abs()), playerIdx, amount)
    {
      var player := players[playerIdx];
      betAmount := Min(amount, player.stack);
      player := player.(stack := player.stack - betAmount);
      player := player.(currentBet := player.currentBet + betAmount);
      pot := pot + betAmount;
      if player.stack == 0.0 {
        player := player.(isAllIn := true);
      }
      players[playerIdx] := player;
    }

    /** `_end_betting_round`. */
    method EndBettingRound()
      requires players.Length == 2 && IsSeat(buttonPlayer)
      requires |communityCards| <= 5 && |communityCards| + |deck| >= 5
      modifies this, players
      ensures Abs() == HulheRules.EndBettingRound(old(Abs()), evaluator)
    {
      ghost var t := Abs();
      ClearStreetFields();
      DealNextStreet(t);
    }

    /** The head of `_end_betting_round`: street bets, table bet and raise counter back to 0, the big blind to act. */
    method ClearStreetFields()
      requires players.Length == 2 && IsSeat(buttonPlayer)
      modifies this, players
      ensures Abs() == ClearStreet(old(Abs()))
    {
      players[0] := players[0].(currentBet := 0.0);
      players[1] := players[1].(currentBet := 0.0);
      currentBet := 0.0;
      raisesThisRound := 0;
      var bbIdx := 1 - buttonPlayer;
      currentPlayer := bbIdx;
      lastRaiser := bbIdx;
      assert players[..] == [players[0], players[1]];
    }

    /** The rest of `_end_betting_round`: run out and show down after an all-in, else the next street. */
    method DealNextStreet(ghost t: Table)
      requires players.Length == 2 && TwoSeats(t) && IsSeat(t.button)
      requires |t.community| <= 5 && |t.community| + |t.deck| >= 5 && Abs() == ClearStreet(t)
      modifies this, players
      ensures Abs() == HulheRules.EndBettingRound(t, evaluator)
    {
      assert communityCards == t.community && deck == t.deck;
      assert players[0].isAllIn == t.players[0].isAllIn && players[1].isAllIn == t.players[1].isAllIn;
      if players[0].isAllIn || players[1].isAllIn {
        RunOut();
        Showdown();
        return;
      }
      if |communityCards| == 0 {
        DealCards(3);
      } else if |communityCards| == 3 {
        DealCards(1);
      } else if |communityCards| == 4 {
        DealCards(1);
      } else {
        Showdown();
      }
    }

    /** `community_cards.extend(deck.draw(n))`. */
    method DealCards(n: nat)
      requires n <= |deck|
      modifies this
      ensures Abs() == Deal(old(Abs()), n)
    {
      var cards := Draw(n);
      communityCards := communityCards + cards;
    }

    /** The all-in runout of `_end_betting_round`: one card at a time until the board holds five. */
    method RunOut()
      requires |communityCards| <= 5 && |communityCards| + |deck| >= 5
      modifies this
      ensures Abs() == Deal(old(Abs()), 5 - old(|communityCards|))
    {
      ghost var t := Abs();
      ghost var dealt := 0;
      while |communityCards| < 5
        invariant |t.community| + dealt <= 5 && dealt <= |t.deck| && Abs() == Deal(t, dealt)
        invariant |communityCards| == |t.community| + dealt
        decreases 5 - |communityCards|
      {
        DealCards(1);
        HulheProps.DealAdds(t, dealt, 1);
        dealt := dealt + 1;
      }
    }

    /** `_showdown`. */
    method Showdown()
      requires players.Length == 2
      modifies this, players
      ensures Abs() == HulheRules.Showdown(old(Abs()), evaluator)
    {
      if done {
        return;
      }
      done := true;
      var score0 := evaluator(players[0].hand, communityCards);
      var score1 := evaluator(players[1].hand, communityCards);
      var winner := -1;
      if score0 < score1 {
        winner := 0;
      } else if score1 < score0 {
        winner := 1;
      }
      if winner != -1 {
        players[winner] := players[winner].(stack := players[winner].stack + pot);
      } else {
        players[0] := players[0].(stack := players[0].stack + pot / 2.0);
        players[1] := players[1].(stack := players[1].stack + pot / 2.0);
      }
      FinalizeHand(winner, ByShowdown);
    }

    /** `_finalize_hand`. */
    method FinalizeHand(winner: int, reason: Reason)
      requires players.Length == 2
      modifies this
      ensures Abs() == HulheRules.FinalizeHand(old(Abs()), winner, reason)
    {
      var p0Net := players[0].stack - players[0].initialHandStack;
      var p1Net := players[1].stack - players[1].initialHandStack;
      winnerInfo := Some(HandResult(winner, pot, reason, [p0Net, p1Net]));
    }

    /** `_record_action`. */
    method RecordAction(playerIdx: int, action: string)
      requires players.Length == 2
      modifies `actionHistory
      ensures Abs() == HulheRules.RecordAction(old(Abs()), playerIdx, action)
    {
      var snapshot := Snapshot((players[0].stack, players[1].stack),
                               (players[0].currentBet, players[1].currentBet), pot);
      actionHistory := actionHistory + [Entry(RoundName(|communityCards|), playerIdx, action, snapshot)];
    }
  }
}
