/**
 * The betting rules of the canonical heads-up fixed-limit engine
 * (HULHE_env/environment.py), one pure function per method of `PokerEnv`.
 * Each function maps the table before the call to the table after it; the
 * class in hulhe_env.dfy performs the same updates in place and is proved
 * to agree with these functions.
 */
module HulheRules {
  import opened Poker

  /** One bet and three raises per street. */
  const RAISE_LIMIT := 3

  /** A seat: its stack, hole cards, chips committed this street, all-in flag and stack at hand start. */
  datatype Player = Player(stack: real, hand: seq<Card>, currentBet: real, isAllIn: bool, initialHandStack: real)

  /** `winner_info`: winner seat (-1 for a tie), pot, reason, and each seat's net result. */
  datatype HandResult = HandResult(winner: int, pot: real, reason: Reason, results: seq<real>)

  /** Every field of `PokerEnv` that changes during play. */
  datatype Table = Table(
    players: seq<Player>,
    deck: seq<Card>,
    button: int,
    community: seq<Card>,
    pot: real,
    raises: int,
    done: bool,
    winnerInfo: Option<HandResult>,
    history: seq<Entry>,
    currentBet: real,
    lastRaiser: int,
    currentPlayer: int)

  predicate TwoSeats(t: Table) { |t.players| == 2 }

  function StackSum(t: Table): real
    requires TwoSeats(t)
  {
    t.players[0].stack + t.players[1].stack
  }

  function StartSum(t: Table): real
    requires TwoSeats(t)
  {
    t.players[0].initialHandStack + t.players[1].initialHandStack
  }

  /** What both seats have put in since the hand started. */
  function Committed(t: Table): real
    requires TwoSeats(t)
  {
    StartSum(t) - StackSum(t)
  }

  /** `_player_bet`: seat `i` commits `amount`, clamped to its stack. */
  function PlayerBet(t: Table, i: int, amount: real): (r: Table)
    requires TwoSeats(t) && IsSeat(i)
    ensures TwoSeats(r)
    ensures t.players[i].stack - r.players[i].stack == Min(amount, t.players[i].stack)
    ensures r.players[i].currentBet - t.players[i].currentBet == Min(amount, t.players[i].stack)
    ensures r.pot - t.pot == Min(amount, t.players[i].stack)
    ensures StackSum(r) + r.pot == StackSum(t) + t.pot
    ensures t.players[i].stack >= 0.0 ==> r.players[i].stack >= 0.0
    ensures r.players[i].isAllIn <==> t.players[i].isAllIn || r.players[i].stack == 0.0
    ensures r.players[1 - i] == t.players[1 - i]
    ensures r.players[i].hand == t.players[i].hand
    ensures r.players[i].initialHandStack == t.players[i].initialHandStack
    ensures r == t.(players := r.players, pot := r.pot)
  {
    var p := t.players[i];
    var b := Min(amount, p.stack);
    var stack := p.stack - b;
    var p' := p.(stack := stack, currentBet := p.currentBet + b, isAllIn := if stack == 0.0 then true else p.isAllIn);
    t.(players := t.players[i := p'], pot := t.pot + b)
  }

  /** The numeric state stored with each history entry. */
  function Snap(t: Table): Snapshot
    requires TwoSeats(t)
  {
    Snapshot((t.players[0].stack, t.players[1].stack),
             (t.players[0].currentBet, t.players[1].currentBet),
             t.pot)
  }

  /** `_record_action`: append one entry to the action history. */
  function RecordAction(t: Table, i: int, action: string): (r: Table)
    requires TwoSeats(t)
    ensures |r.history| == |t.history| + 1 && r.history[..|t.history|] == t.history
    ensures r.history[|t.history|].player == i && r.history[|t.history|].action == action
    ensures r.history[|t.history|].round == RoundName(|t.community|)
    ensures r.history[|t.history|].after ==
      Snapshot((t.players[0].stack, t.players[1].stack), (t.players[0].currentBet, t.players[1].currentBet), t.pot)
    ensures r == t.(history := r.history)
  {
    t.(history := t.history + [Entry(RoundName(|t.community|), i, action, Snap(t))])
  }

  /** `_post_blinds`: the button posts the small blind and the other seat the big blind. */
  function PostBlinds(t: Table, smallBlind: real, bigBlind: real): (r: Table)
    requires TwoSeats(t) && IsSeat(t.button)
    ensures TwoSeats(r)
    ensures var sb, bb := t.button, 1 - t.button;
      var sbPaid, bbPaid := Min(smallBlind, t.players[sb].stack), Min(bigBlind, t.players[bb].stack);
      && r.players[sb].currentBet == t.players[sb].currentBet + sbPaid && r.players[sb].stack == t.players[sb].stack - sbPaid
      && r.players[bb].currentBet == t.players[bb].currentBet + bbPaid && r.players[bb].stack == t.players[bb].stack - bbPaid
      && r.pot == t.pot + sbPaid + bbPaid
    ensures forall k | 0 <= k < 2 ::
      && r.players[k].hand == t.players[k].hand && r.players[k].initialHandStack == t.players[k].initialHandStack
      && (r.players[k].isAllIn <==> t.players[k].isAllIn || r.players[k].stack == 0.0)
    ensures r.currentBet == bigBlind && r.lastRaiser == 1 - t.button && r.currentPlayer == t.button
    ensures |r.history| == |t.history| + 2 && r.history[..|t.history|] == t.history
    ensures r.history[|t.history|] ==
      Entry(RoundName(|t.community|), t.button, "small_blind", Snap(PlayerBet(t, t.button, smallBlind)))
    ensures r.history[|t.history| + 1] == Entry(RoundName(|t.community|), 1 - t.button, "big_blind", Snap(r))
    ensures r == t.(players := r.players, pot := r.pot, history := r.history,
                    currentBet := bigBlind, lastRaiser := 1 - t.button, currentPlayer := t.button)
  {
    var sb, bb := t.button, 1 - t.button;
    var t1 := RecordAction(PlayerBet(t, sb, smallBlind), sb, "small_blind");
    var t2 := RecordAction(PlayerBet(t1, bb, bigBlind), bb, "big_blind");
    t2.(currentBet := bigBlind, lastRaiser := bb, currentPlayer := sb)
  }

  /** The stacks `reset` hands out: the drawn split, or half of the total each. */
  function StartStacks(randomize: bool, p0Stack: int, totalStack: int): (s: (real, real))
    ensures s.0 + s.1 == totalStack as real
    ensures randomize ==> s.0 == p0Stack as real
    ensures !randomize ==> s.0 == s.1
  {
    if randomize then (p0Stack as real, (totalStack - p0Stack) as real)
    else (totalStack as real / 2.0, totalStack as real / 2.0)
  }

  /**
   * The first part of `reset`: flip the button, take the freshly shuffled deck,
   * clear the hand, give out the stacks and deal two cards to each seat.
   */
  function NewHand(t: Table, shuffled: seq<Card>, randomize: bool, p0Stack: int, totalStack: int): (r: Table)
    requires IsSeat(t.button) && |shuffled| >= 4
    ensures TwoSeats(r) && r.button == 1 - t.button
    ensures r.players[0].stack == StartStacks(randomize, p0Stack, totalStack).0
    ensures r.players[1].stack == StartStacks(randomize, p0Stack, totalStack).1
    ensures r.players[0].hand == shuffled[..2] && r.players[1].hand == shuffled[2..4] && r.deck == shuffled[4..]
    ensures forall k | 0 <= k < 2 :: r.players[k].currentBet == 0.0 && !r.players[k].isAllIn
                                     && r.players[k].initialHandStack == r.players[k].stack
    ensures r.community == [] && r.pot == 0.0 && r.raises == 0 && !r.done && r.winnerInfo == None && r.history == []
    ensures r.currentBet == t.currentBet && r.lastRaiser == t.lastRaiser && r.currentPlayer == t.currentPlayer
  {
    var stacks := StartStacks(randomize, p0Stack, totalStack);
    var p0 := Player(stacks.0, shuffled[..2], 0.0, false, stacks.0);
    var p1 := Player(stacks.1, shuffled[2..4], 0.0, false, stacks.1);
    t.(button := 1 - t.button, deck := shuffled[4..], community := [], pot := 0.0,
       raises := 0, done := false, winnerInfo := None, history := [], players := [p0, p1])
  }

  /** `reset`: start a new hand and post the blinds. */
  function Reset(t: Table, shuffled: seq<Card>, randomize: bool, p0Stack: int, totalStack: int,
                 smallBlind: real, bigBlind: real): (r: Table)
    requires TwoSeats(t) && IsSeat(t.button) && |shuffled| >= 4
    ensures TwoSeats(r) && IsSeat(r.button) && r.button == 1 - t.button
    ensures r.players[0].initialHandStack == StartStacks(randomize, p0Stack, totalStack).0
    ensures r.players[1].initialHandStack == StartStacks(randomize, p0Stack, totalStack).1
    ensures r.players[r.button].currentBet == Min(smallBlind, r.players[r.button].initialHandStack)
    ensures r.players[1 - r.button].currentBet == Min(bigBlind, r.players[1 - r.button].initialHandStack)
    ensures forall k | 0 <= k < 2 ::
      && r.players[k].stack == r.players[k].initialHandStack - r.players[k].currentBet
      && (r.players[k].isAllIn <==> r.players[k].stack == 0.0)
    ensures r.pot == r.players[0].currentBet + r.players[1].currentBet
    ensures r.currentBet == bigBlind && r.lastRaiser == 1 - r.button && r.currentPlayer == r.button
    ensures |r.history| == 2
    ensures r.history[0].player == r.button && r.history[0].action == "small_blind"
    ensures r.history[1].player == 1 - r.button && r.history[1].action == "big_blind"
    ensures r.players[0].hand == shuffled[..2] && r.players[1].hand == shuffled[2..4] && r.deck == shuffled[4..]
    ensures !r.done && r.winnerInfo == None && r.community == [] && r.raises == 0
  {
    PostBlinds(NewHand(t, shuffled, randomize, p0Stack, totalStack), smallBlind, bigBlind)
  }

  /** `get_legal_actions` for the seat to act. */
  function LegalActions(t: Table): seq<string>
    requires TwoSeats(t) && IsSeat(t.currentPlayer)
  {
    LegalActionsOf(t.done, t.players[t.currentPlayer].currentBet, t.currentBet, t.raises, RAISE_LIMIT)
  }

  /** `_finalize_hand`: record the winner, pot, reason and each seat's net result. */
  function FinalizeHand(t: Table, winner: int, reason: Reason): (r: Table)
    requires TwoSeats(t)
    ensures r.winnerInfo.Some? && r.winnerInfo.value.winner == winner
    ensures r.winnerInfo.value.pot == t.pot && r.winnerInfo.value.reason == reason
    ensures |r.winnerInfo.value.results| == 2
    ensures r.winnerInfo.value.results[0] == t.players[0].stack - t.players[0].initialHandStack
    ensures r.winnerInfo.value.results[1] == t.players[1].stack - t.players[1].initialHandStack
    ensures r.winnerInfo.value.results[0] + r.winnerInfo.value.results[1] == StackSum(t) - StartSum(t)
    ensures r == t.(winnerInfo := r.winnerInfo)
  {
    var p0Net := t.players[0].stack - t.players[0].initialHandStack;
    var p1Net := t.players[1].stack - t.players[1].initialHandStack;
    t.(winnerInfo := Some(HandResult(winner, t.pot, reason, [p0Net, p1Net])))
  }

  /** `_handle_fold`: the opponent of the folding seat takes the whole pot. */
  function HandleFold(t: Table, i: int): (r: Table)
    requires TwoSeats(t) && IsSeat(i)
    ensures TwoSeats(r) && r.done
    ensures r.players[1 - i].stack == t.players[1 - i].stack + t.pot
    ensures r.players[1 - i] == t.players[1 - i].(stack := r.players[1 - i].stack)
    ensures r.players[i] == t.players[i]
    ensures r.winnerInfo.Some? && r.winnerInfo.value.winner == 1 - i
    ensures r.winnerInfo.value.reason == ByFold && r.winnerInfo.value.pot == t.pot
    ensures StackSum(r) == StackSum(t) + t.pot
    ensures r == t.(players := r.players, done := true, winnerInfo := r.winnerInfo)
  {
    var o := 1 - i;
    var paid := t.(players := t.players[o := t.players[o].(stack := t.players[o].stack + t.pot)], done := true);
    FinalizeHand(paid, o, ByFold)
  }

  /** `_handle_check`: the turn passes, no chips move. */
  function HandleCheck(t: Table, i: int): Table
  {
    t.(currentPlayer := 1 - i)
  }

  /** `_handle_call`: the seat to act matches the table bet, as far as its stack allows. */
  function HandleCall(t: Table): (r: Table)
    requires TwoSeats(t) && IsSeat(t.currentPlayer)
    ensures TwoSeats(r) && r.currentPlayer == 1 - t.currentPlayer
    ensures r.players[t.currentPlayer].stack != 0.0 ==> r.players[t.currentPlayer].currentBet == t.currentBet
    ensures var p := t.currentPlayer; var paid := Min(t.currentBet - t.players[p].currentBet, t.players[p].stack);
      && r.players[p].currentBet == t.players[p].currentBet + paid
      && r.players[p].stack == t.players[p].stack - paid && r.pot == t.pot + paid
      && (r.players[p].stack == 0.0 ==> r.players[p].currentBet == t.players[p].currentBet + t.players[p].stack)
      && (r.players[p].isAllIn <==> t.players[p].isAllIn || r.players[p].stack == 0.0)
      && r.players[p].hand == t.players[p].hand && r.players[p].initialHandStack == t.players[p].initialHandStack
    ensures r.players[1 - t.currentPlayer] == t.players[1 - t.currentPlayer]
    ensures StackSum(r) + r.pot == StackSum(t) + t.pot
    ensures r == t.(players := r.players, pot := r.pot, currentPlayer := r.currentPlayer)
  {
    var p := t.currentPlayer;
    var t1 := PlayerBet(t, p, t.currentBet - t.players[p].currentBet);
    t1.(currentPlayer := 1 - t1.currentPlayer)
  }

  /** The raise size for the street: the small bet up to the flop, the big bet on the turn and river. */
  function BetSize(boardSize: int, smallBet: real, bigBet: real): real
  {
    if boardSize <= 3 then smallBet else bigBet
  }

  /** `_handle_raise`: raise the table bet by one bet of the street's size. */
  function HandleRaise(t: Table, i: int, smallBet: real, bigBet: real): (r: Table)
    requires TwoSeats(t) && IsSeat(i)
    ensures TwoSeats(r)
    ensures r.raises == t.raises + 1 && r.lastRaiser == i && r.currentPlayer == 1 - i
    ensures r.currentBet == r.players[i].currentBet
    ensures r.players[i].stack != 0.0 ==> r.currentBet == t.currentBet + BetSize(|t.community|, smallBet, bigBet)
    ensures var paid := Min(t.currentBet + BetSize(|t.community|, smallBet, bigBet) - t.players[i].currentBet,
                            t.players[i].stack);
      && r.players[i].currentBet == t.players[i].currentBet + paid
      && r.players[i].stack == t.players[i].stack - paid && r.pot == t.pot + paid
      && (r.players[i].stack == 0.0 ==> r.players[i].currentBet == t.players[i].currentBet + t.players[i].stack)
      && (r.players[i].isAllIn <==> t.players[i].isAllIn || r.players[i].stack == 0.0)
      && r.players[i].hand == t.players[i].hand && r.players[i].initialHandStack == t.players[i].initialHandStack
    ensures r.players[1 - i] == t.players[1 - i]
    ensures StackSum(r) + r.pot == StackSum(t) + t.pot
    ensures r == t.(players := r.players, pot := r.pot, currentBet := r.currentBet, raises := r.raises,
                    lastRaiser := i, currentPlayer := 1 - i)
  {
    var betSize := BetSize(|t.community|, smallBet, bigBet);
    var targetBet := t.currentBet + betSize;
    var t1 := PlayerBet(t, i, targetBet - t.players[i].currentBet);
    t1.(currentBet := t1.players[i].currentBet, raises := t1.raises + 1, lastRaiser := i, currentPlayer := 1 - i)
  }

  /** `_is_betting_over`. */
  predicate IsBettingOver(t: Table)
    requires TwoSeats(t)
  {
    t.players[0].isAllIn || t.players[1].isAllIn
    || (t.players[0].currentBet == t.players[1].currentBet && t.currentPlayer == t.lastRaiser)
  }

  /** `_showdown`: score both hands, pay the pot (split on a tie) and finalize. A no-op once done. */
  function Showdown(t: Table, evaluate: Evaluator): (r: Table)
    requires TwoSeats(t)
    ensures TwoSeats(r)
    ensures t.done ==> r == t
    ensures !t.done ==> r.done && r.winnerInfo.Some? && r.winnerInfo.value.reason == ByShowdown
    ensures !t.done ==> r.winnerInfo.value.pot == t.pot
    ensures !t.done ==>
      var s0, s1 := evaluate(t.players[0].hand, t.community), evaluate(t.players[1].hand, t.community);
      && (s0 < s1 ==> r.winnerInfo.value.winner == 0 && r.players[0].stack == t.players[0].stack + t.pot
                        && r.players[1] == t.players[1])
      && (s1 < s0 ==> r.winnerInfo.value.winner == 1 && r.players[1].stack == t.players[1].stack + t.pot
                        && r.players[0] == t.players[0])
      && (s0 == s1 ==> r.winnerInfo.value.winner == -1
                        && r.players[0].stack == t.players[0].stack + t.pot / 2.0
                        && r.players[1].stack == t.players[1].stack + t.pot / 2.0)
    ensures !t.done ==> StackSum(r) == StackSum(t) + t.pot
    ensures forall k | 0 <= k < 2 :: r.players[k].initialHandStack == t.players[k].initialHandStack
    ensures r == t.(players := r.players, done := r.done, winnerInfo := r.winnerInfo)
  {
    if t.done then t
    else
      var score0 := evaluate(t.players[0].hand, t.community);
      var score1 := evaluate(t.players[1].hand, t.community);
      var winner := ShowdownWinner(score0, score1);
      var paid :=
        if winner != -1 then t.players[winner := t.players[winner].(stack := t.players[winner].stack + t.pot)]
        else [t.players[0].(stack := t.players[0].stack + t.pot / 2.0),
              t.players[1].(stack := t.players[1].stack + t.pot / 2.0)];
      FinalizeHand(t.(done := true, players := paid), winner, ByShowdown)
  }

  /** Move the top `n` cards of the deck onto the board. */
  function Deal(t: Table, n: nat): (r: Table)
    requires n <= |t.deck|
    ensures |r.community| == |t.community| + n && r.community[..|t.community|] == t.community
    ensures r.community + r.deck == t.community + t.deck
    ensures r == t.(community := r.community, deck := r.deck)
  {
    t.(community := t.community + t.deck[..n], deck := t.deck[n..])
  }

  /** `_end_betting_round` up to its dealing step: the per-street fields start afresh. */
  function ClearStreet(t: Table): (r: Table)
    requires TwoSeats(t) && IsSeat(t.button)
    ensures r.players == [t.players[0].(currentBet := 0.0), t.players[1].(currentBet := 0.0)]
    ensures r == t.(players := r.players, currentBet := 0.0, raises := 0,
                    currentPlayer := 1 - t.button, lastRaiser := 1 - t.button)
  {
    var bb := 1 - t.button;
    t.(players := [t.players[0].(currentBet := 0.0), t.players[1].(currentBet := 0.0)],
       currentBet := 0.0, raises := 0, currentPlayer := bb, lastRaiser := bb)
  }

  /**
   * `_end_betting_round`: clear the street, then run the board out to five cards
   * and show down if a seat is all-in, else deal the flop, turn or river, else
   * (five cards out) show down.
   */
  function EndBettingRound(t: Table, evaluate: Evaluator): (r: Table)
    requires TwoSeats(t) && IsSeat(t.button) && |t.community| <= 5 && |t.community| + |t.deck| >= 5
    ensures TwoSeats(r)
    ensures r.raises == 0 && r.currentBet == 0.0
    ensures r.players[0].currentBet == 0.0 && r.players[1].currentBet == 0.0
    ensures r.currentPlayer == 1 - t.button && r.lastRaiser == 1 - t.button
    ensures r.community + r.deck == t.community + t.deck
    ensures |t.community| <= |r.community| && r.community[..|t.community|] == t.community
    ensures IsBoardSize(|t.community|) ==> IsBoardSize(|r.community|)
    ensures (t.players[0].isAllIn || t.players[1].isAllIn) ==>
      |r.community| == 5 && r == Showdown(Deal(ClearStreet(t), 5 - |t.community|), evaluate)
    ensures !(t.players[0].isAllIn || t.players[1].isAllIn) ==>
      && (|t.community| == 0 ==> |r.community| == 3 && r.done == t.done)
      && (|t.community| == 3 ==> |r.community| == 4 && r.done == t.done)
      && (|t.community| == 4 ==> |r.community| == 5 && r.done == t.done)
      && (|t.community| == 5 ==> r == Showdown(ClearStreet(t), evaluate))
      && (|t.community| == 0 || |t.community| == 3 || |t.community| == 4 ==>
            r.players == [t.players[0].(currentBet := 0.0), t.players[1].(currentBet := 0.0)])
    ensures r.button == t.button && r.history == t.history && r.pot == t.pot
    ensures !t.done ==> r.done || |r.community| > |t.community|
  {
    var cleared := ClearStreet(t);
    if t.players[0].isAllIn || t.players[1].isAllIn then
      Showdown(Deal(cleared, 5 - |t.community|), evaluate)
    else if |t.community| == 0 then Deal(cleared, 3)
    else if |t.community| == 3 then Deal(cleared, 1)
    else if |t.community| == 4 then Deal(cleared, 1)
    else Showdown(cleared, evaluate)
  }

  /** The preconditions every call of `step` meets (implied by the class invariant). */
  predicate Playable(t: Table)
  {
    TwoSeats(t) && IsSeat(t.currentPlayer) && IsSeat(t.button)
    && |t.community| <= 5 && |t.community| + |t.deck| >= 5
  }

  /** Apply one legal action for seat `i`. */
  function ApplyAction(t: Table, i: int, action: string, smallBet: real, bigBet: real): Table
    requires TwoSeats(t) && IsSeat(i) && t.currentPlayer == i
  {
    if action == "fold" then HandleFold(t, i)
    else if action == "check" then HandleCheck(t, i)
    else if action == "call" then HandleCall(t)
    else if action == "raise" then HandleRaise(t, i, smallBet, bigBet)
    else t
  }

  /**
   * `step`: refuse the action when the hand is over or the action is not legal;
   * otherwise apply it, record it and close the street if betting is over.
   */
  function Step(t: Table, action: string, smallBet: real, bigBet: real, evaluate: Evaluator): (r: Result<Table, StepError>)
    requires Playable(t)
    ensures t.done ==> r == Failure(GameOver)
    ensures !t.done && action !in LegalActions(t) ==> r == Failure(IllegalAction(action, t.currentPlayer))
    ensures !t.done && action in LegalActions(t) ==>
      && r.Success? && |r.value.history| == |t.history| + 1 && r.value.history[..|t.history|] == t.history
      && r.value.history[|t.history|].player == t.currentPlayer && r.value.history[|t.history|].action == action
    ensures !t.done && action in LegalActions(t) ==>
      var p := t.currentPlayer;
      var acted := ApplyAction(t, p, action, smallBet, bigBet);
      var closes := !acted.done && IsBettingOver(acted);
      && r.Success? && TwoSeats(r.value)
      && r.value.history[|t.history|].after == Snap(acted)
      && (action == "fold" ==> && r.value.done && r.value.winnerInfo.Some?
                               && r.value.winnerInfo.value.winner == 1 - p && r.value.winnerInfo.value.reason == ByFold)
      && (!closes ==> r.value == acted.(history := r.value.history))
      && (closes ==> && r.value.raises == 0 && r.value.currentBet == 0.0
                     && r.value.players[0].currentBet == 0.0 && r.value.players[1].currentBet == 0.0
                     && r.value.currentPlayer == 1 - t.button && r.value.pot == acted.pot
                     && (r.value.done || |r.value.community| > |t.community|))
  {
    if t.done then Failure(GameOver)
    else if action !in LegalActions(t) then Failure(IllegalAction(action, t.currentPlayer))
    else
      var p := t.currentPlayer;
      var acted := ApplyAction(t, p, action, smallBet, bigBet);
      var recorded := RecordAction(acted, p, action);
      if !recorded.done && IsBettingOver(recorded) then Success(EndBettingRound(recorded, evaluate))
      else Success(recorded)
  }
}
