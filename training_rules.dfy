/**
 * The betting rules of the older engine in start_training.py, one pure
 * function per method of its `PokerEnv`. It differs from the canonical engine
 * in four ways: stacks carry over from hand to hand and `reset` reports the
 * match over once a seat is broke; preflop raises go to the fixed targets
 * 4, 6 and 8 and postflop raises add 4; a call that leaves the caller all-in
 * short of the opponent's bet refunds the uncalled excess; and a finished hand
 * records only the winner, pot and reason.
 */
module TrainingRules {
  import opened Poker

  /** One bet and three raises per street. */
  const RAISE_LIMIT := 3

  /** The table bet a preflop raise goes to, by the number of raises so far. */
  const PREFLOP_RAISE_TARGETS: seq<real> := [4.0, 6.0, 8.0]

  /** What a postflop raise adds to the table bet. */
  const POSTFLOP_BET_SIZE := 4.0

  /** A seat: its stack, hole cards, chips committed this street and all-in flag. */
  datatype Player = Player(stack: real, hand: seq<Card>, currentBet: real, isAllIn: bool)

  /** `winner_info`: winner seat (-1 for a tie), pot and reason. */
  datatype Outcome = Outcome(winner: int, pot: real, reason: Reason)

  /** Every field of this `PokerEnv` that changes during play. */
  datatype Table = Table(
    players: seq<Player>,
    deck: seq<Card>,
    button: int,
    community: seq<Card>,
    pot: real,
    raises: int,
    done: bool,
    winnerInfo: Option<Outcome>,
    history: seq<Entry>,
    currentBet: real,
    lastRaiser: int,
    currentPlayer: int)

  predicate TwoSeats(t: Table) { |t.players| == 2 }

  function StackSum(t: Table): real
    requires TwoSeats(t)
  {
    t.players[0].stack + t.players[1].stack
  }

  /** All chips at the table: the stacks, plus the pot while it has not been paid out. */
  function Chips(t: Table): real
    requires TwoSeats(t)
  {
    StackSum(t) + (if t.done then 0.0 else t.pot)
  }

  /** `_player_bet`: seat `i` commits `amount`, clamped to its stack. */
  function PlayerBet(t: Table, i: int, amount: real): (r: Table)
    requires TwoSeats(t) && IsSeat(i)
    ensures TwoSeats(r)
    ensures t.players[i].stack - r.players[i].stack == Min(amount, t.players[i].stack)
    ensures r.players[i].currentBet - t.players[i].currentBet == Min(amount, t.players[i].stack)
    ensures r.pot - t.pot == Min(amount, t.players[i].stack)
    ensures StackSum(r) + r.pot == StackSum(t) + t.pot
    ensures t.players[i].stack >= 0.0 ==> r.players[i].stack >= 0.0
    ensures r.players[i].isAllIn <==> t.players[i].isAllIn || r.players[i].stack == 0.0
    ensures r.players[1 - i] == t.players[1 - i] && r.players[i].hand == t.players[i].hand
    ensures r == t.(players := r.players, pot := r.pot)
  {
    var p := t.players[i];
    var b := Min(amount, p.stack);
    var stack := p.stack - b;
    var p' := p.(stack := stack, currentBet := p.currentBet + b, isAllIn := if stack == 0.0 then true else p.isAllIn);
    t.(players := t.players[i := p'], pot := t.pot + b)
  }

  /** The numeric state stored with each history entry. */
  function Snap(t: Table): Snapshot
    requires TwoSeats(t)
  {
    Snapshot((t.players[0].stack, t.players[1].stack),
             (t.players[0].currentBet, t.players[1].currentBet),
             t.pot)
  }

  /** `_record_action`: append one entry to the action history. */
  function RecordAction(t: Table, i: int, action: string): (r: Table)
    requires TwoSeats(t)
    ensures |r.history| == |t.history| + 1 && r.history[..|t.history|] == t.history
    ensures r.history[|t.history|].player == i && r.history[|t.history|].action == action
    ensures r.history[|t.history|].round == RoundName(|t.community|)
    ensures r.history[|t.history|].after ==
      Snapshot((t.players[0].stack, t.players[1].stack), (t.players[0].currentBet, t.players[1].currentBet), t.pot)
    ensures r == t.(history := r.history)
  {
    t.(history := t.history + [Entry(RoundName(|t.community|), i, action, Snap(t))])
  }

  /** `_post_blinds`: the button posts the small blind and the other seat the big blind. */
  function PostBlinds(t: Table, smallBlind: real, bigBlind: real): (r: Table)
    requires TwoSeats(t) && IsSeat(t.button)
    ensures TwoSeats(r)
    ensures var sb, bb := t.button, 1 - t.button;
      var sbPaid, bbPaid := Min(smallBlind, t.players[sb].stack), Min(bigBlind, t.players[bb].stack);
      && r.players[sb].currentBet == t.players[sb].currentBet + sbPaid && r.players[sb].stack == t.players[sb].stack - sbPaid
      && r.players[bb].currentBet == t.players[bb].currentBet + bbPaid && r.players[bb].stack == t.players[bb].stack - bbPaid
      && r.pot == t.pot + sbPaid + bbPaid
    ensures forall k | 0 <= k < 2 ::
      && r.players[k].hand == t.players[k].hand
      && (r.players[k].isAllIn <==> t.players[k].isAllIn || r.players[k].stack == 0.0)
    ensures r.currentBet == bigBlind && r.lastRaiser == 1 - t.button && r.currentPlayer == t.button
    ensures |r.history| == |t.history| + 2 && r.history[..|t.history|] == t.history
    ensures r.history[|t.history|] ==
      Entry(RoundName(|t.community|), t.button, "small_blind", Snap(PlayerBet(t, t.button, smallBlind)))
    ensures r.history[|t.history| + 1] == Entry(RoundName(|t.community|), 1 - t.button, "big_blind", Snap(r))
    ensures r == t.(players := r.players, pot := r.pot, history := r.history,
                    currentBet := bigBlind, lastRaiser := 1 - t.button, currentPlayer := t.button)
  {
    var sb, bb := t.button, 1 - t.button;
    var t1 := RecordAction(PlayerBet(t, sb, smallBlind), sb, "small_blind");
    var t2 := RecordAction(PlayerBet(t1, bb, bigBlind), bb, "big_blind");
    t2.(currentBet := bigBlind, lastRaiser := bb, currentPlayer := sb)
  }

  /** The part of `reset` after the broke check: flip the button, clear the hand and deal the hole cards. */
  function NewHand(t: Table, shuffled: seq<Card>): (r: Table)
    requires TwoSeats(t) && |shuffled| >= 4
    ensures TwoSeats(r) && r.button == 1 - t.button
    ensures r.players[0].hand == shuffled[..2] && r.players[1].hand == shuffled[2..4] && r.deck == shuffled[4..]
    ensures forall k | 0 <= k < 2 ::
      r.players[k].stack == t.players[k].stack && r.players[k].currentBet == 0.0 && !r.players[k].isAllIn
    ensures r.community == [] && r.pot == 0.0 && r.raises == 0 && !r.done && r.winnerInfo == None && r.history == []
    ensures r.currentBet == t.currentBet && r.lastRaiser == t.lastRaiser && r.currentPlayer == t.currentPlayer
  {
    var p0 := t.players[0].(hand := shuffled[..2], currentBet := 0.0, isAllIn := false);
    var p1 := t.players[1].(hand := shuffled[2..4], currentBet := 0.0, isAllIn := false);
    t.(button := 1 - t.button, deck := shuffled[4..], community := [], pot := 0.0,
       raises := 0, done := false, winnerInfo := None, history := [], players := [p0, p1])
  }

  /** A seat is broke once its stack is zero or below. */
  predicate SomeoneBroke(t: Table)
    requires TwoSeats(t)
  {
    t.players[0].stack <= 0.0 || t.players[1].stack <= 0.0
  }

  /**
   * `reset`: when a seat is broke, report the match over and change nothing;
   * otherwise start a new hand with the carried-over stacks and post the
   * blinds. The flag is the second value `reset` returns.
   */
  function Reset(t: Table, shuffled: seq<Card>, smallBlind: real, bigBlind: real): (r: (Table, bool))
    requires TwoSeats(t) && IsSeat(t.button) && |shuffled| >= 4
    ensures TwoSeats(r.0)
    ensures r.1 <==> SomeoneBroke(t)
    ensures r.1 ==> r.0 == t
    ensures !r.1 ==>
      && r.0.button == 1 - t.button && !r.0.done && r.0.winnerInfo == None
      && r.0.community == [] && r.0.raises == 0 && r.0.deck == shuffled[4..]
      && r.0.players[0].hand == shuffled[..2] && r.0.players[1].hand == shuffled[2..4]
      && r.0.players[r.0.button].currentBet == Min(smallBlind, t.players[r.0.button].stack)
      && r.0.players[1 - r.0.button].currentBet == Min(bigBlind, t.players[1 - r.0.button].stack)
      && (forall k | 0 <= k < 2 ::
            && r.0.players[k].stack == t.players[k].stack - r.0.players[k].currentBet
            && (r.0.players[k].isAllIn <==> r.0.players[k].stack == 0.0))
      && r.0.pot == r.0.players[0].currentBet + r.0.players[1].currentBet
      && StackSum(r.0) + r.0.pot == StackSum(t)
      && r.0.currentBet == bigBlind && r.0.lastRaiser == 1 - r.0.button && r.0.currentPlayer == r.0.button
      && |r.0.history| == 2
      && r.0.history[0].player == r.0.button && r.0.history[0].action == "small_blind"
      && r.0.history[1].player == 1 - r.0.button && r.0.history[1].action == "big_blind"
  {
    if SomeoneBroke(t) then (t, true)
    else (PostBlinds(NewHand(t, shuffled), smallBlind, bigBlind), false)
  }

  /** `get_legal_actions` for the seat to act. */
  function LegalActions(t: Table): seq<string>
    requires TwoSeats(t) && IsSeat(t.currentPlayer)
  {
    LegalActionsOf(t.done, t.players[t.currentPlayer].currentBet, t.currentBet, t.raises, RAISE_LIMIT)
  }

  /** `_handle_fold`: the opponent of the folding seat takes the whole pot. */
  function HandleFold(t: Table, i: int): (r: Table)
    requires TwoSeats(t) && IsSeat(i)
    ensures TwoSeats(r) && r.done
    ensures r.players[1 - i] == t.players[1 - i].(stack := t.players[1 - i].stack + t.pot)
    ensures r.players[i] == t.players[i]
    ensures r.winnerInfo == Some(Outcome(1 - i, t.pot, ByFold))
    ensures StackSum(r) == StackSum(t) + t.pot
    ensures r == t.(players := r.players, done := true, winnerInfo := r.winnerInfo)
  {
    var o := 1 - i;
    t.(players := t.players[o := t.players[o].(stack := t.players[o].stack + t.pot)], done := true,
       winnerInfo := Some(Outcome(o, t.pot, ByFold)))
  }

  /** `_handle_check`: the turn passes, no chips move. */
  function HandleCheck(t: Table, i: int): Table
  {
    t.(currentPlayer := 1 - i)
  }

  /**
   * The refund step of `_handle_call`: when the caller `i` is all-in with less
   * committed than the opponent, the excess goes back from the pot to the
   * opponent's stack and comes off the opponent's street bet.
   */
  function Refund(t: Table, i: int): (r: Table)
    requires TwoSeats(t) && IsSeat(i)
    ensures TwoSeats(r)
    ensures StackSum(r) + r.pot == StackSum(t) + t.pot
    ensures r.players[i] == t.players[i]
    ensures t.players[i].isAllIn && t.players[1 - i].currentBet > t.players[i].currentBet ==>
      && r.players[1 - i].currentBet == t.players[i].currentBet
      && r.players[1 - i].stack == t.players[1 - i].stack + (t.players[1 - i].currentBet - t.players[i].currentBet)
      && r.pot == t.pot - (t.players[1 - i].currentBet - t.players[i].currentBet)
    ensures !(t.players[i].isAllIn && t.players[1 - i].currentBet > t.players[i].currentBet) ==> r == t
    ensures r == t.(players := r.players, pot := r.pot)
  {
    var o := 1 - i;
    var oppBet := t.players[o].currentBet;
    var playerTotalBet := t.players[i].currentBet;
    if t.players[i].isAllIn && oppBet > playerTotalBet then
      var refund := oppBet - playerTotalBet;
      t.(players := t.players[o := t.players[o].(stack := t.players[o].stack + refund, currentBet := oppBet - refund)],
         pot := t.pot - refund)
    else t
  }

  /** `_handle_call`: match the table bet as far as the stack allows, refund any uncalled excess, pass the turn. */
  function HandleCall(t: Table, i: int): (r: Table)
    requires TwoSeats(t) && IsSeat(i)
    ensures TwoSeats(r) && r.currentPlayer == 1 - i
    ensures StackSum(r) + r.pot == StackSum(t) + t.pot
    ensures r.players[i].stack != 0.0 ==> r.players[i].currentBet == t.currentBet
    ensures r.players[i].isAllIn ==> r.players[1 - i].currentBet <= r.players[i].currentBet
    ensures var paid := Min(t.currentBet - t.players[i].currentBet, t.players[i].stack);
      && r.players[i].currentBet == t.players[i].currentBet + paid
      && r.players[i].stack == t.players[i].stack - paid
      && (r.players[i].stack == 0.0 ==> r.players[i].currentBet == t.players[i].currentBet + t.players[i].stack)
      && (r.players[i].isAllIn <==> t.players[i].isAllIn || r.players[i].stack == 0.0)
      && r.players[i].hand == t.players[i].hand
    ensures var paid := Min(t.currentBet - t.players[i].currentBet, t.players[i].stack);
      var refunds := r.players[i].isAllIn && t.players[1 - i].currentBet > r.players[i].currentBet;
      var excess := t.players[1 - i].currentBet - r.players[i].currentBet;
      && (!refunds ==> r.players[1 - i] == t.players[1 - i] && r.pot == t.pot + paid)
      && (refunds ==> && r.pot == t.pot + paid - excess
                      && r.players[1 - i] == t.players[1 - i].(stack := t.players[1 - i].stack + excess,
                                                                currentBet := r.players[i].currentBet))
    ensures r == t.(players := r.players, pot := r.pot, currentPlayer := 1 - i)
  {
    var t1 := PlayerBet(t, i, t.currentBet - t.players[i].currentBet);
    Refund(t1, i).(currentPlayer := 1 - i)
  }

  /** The table bet a raise goes to: the preflop target for this raise, or the table bet plus 4 after the flop. */
  function RaiseTarget(t: Table): (target: real)
    requires |t.community| == 0 ==> 0 <= t.raises < |PREFLOP_RAISE_TARGETS|
    ensures |t.community| == 0 ==> target == 4.0 + 2.0 * t.raises as real
    ensures |t.community| != 0 ==> target == t.currentBet + POSTFLOP_BET_SIZE
  {
    if |t.community| == 0 then PREFLOP_RAISE_TARGETS[t.raises] else t.currentBet + POSTFLOP_BET_SIZE
  }

  /** `_handle_raise`: raise to the target, as far as the stack allows. */
  function HandleRaise(t: Table, i: int): (r: Table)
    requires TwoSeats(t) && IsSeat(i)
    requires |t.community| == 0 ==> 0 <= t.raises < |PREFLOP_RAISE_TARGETS|
    ensures TwoSeats(r)
    ensures r.raises == t.raises + 1 && r.lastRaiser == i && r.currentPlayer == 1 - i
    ensures r.currentBet == r.players[i].currentBet
    ensures r.players[i].stack != 0.0 ==> r.currentBet == RaiseTarget(t)
    ensures var paid := Min(RaiseTarget(t) - t.players[i].currentBet, t.players[i].stack);
      && r.players[i].currentBet == t.players[i].currentBet + paid
      && r.players[i].stack == t.players[i].stack - paid && r.pot == t.pot + paid
      && (r.players[i].stack == 0.0 ==> r.players[i].currentBet == t.players[i].currentBet + t.players[i].stack)
      && (r.players[i].isAllIn <==> t.players[i].isAllIn || r.players[i].stack == 0.0)
      && r.players[i].hand == t.players[i].hand
    ensures r.players[1 - i] == t.players[1 - i]
    ensures StackSum(r) + r.pot == StackSum(t) + t.pot
    ensures r == t.(players := r.players, pot := r.pot, currentBet := r.currentBet, raises := r.raises,
                    lastRaiser := i, currentPlayer := 1 - i)
  {
    var targetBet := RaiseTarget(t);
    var t1 := PlayerBet(t, i, targetBet - t.players[i].currentBet);
    t1.(currentBet := t1.players[i].currentBet, raises := t1.raises + 1, lastRaiser := i, currentPlayer := 1 - i)
  }

  /** `_is_betting_over`. */
  predicate IsBettingOver(t: Table)
    requires TwoSeats(t)
  {
    t.players[0].isAllIn || t.players[1].isAllIn
    || (t.players[0].currentBet == t.players[1].currentBet && t.currentPlayer == t.lastRaiser)
  }

  /** `_showdown`: score both hands and pay the pot, split on a tie. A no-op once done. */
  function Showdown(t: Table, evaluate: Evaluator): (r: Table)
    requires TwoSeats(t)
    ensures TwoSeats(r)
    ensures t.done ==> r == t
    ensures !t.done ==>
      var s0, s1 := evaluate(t.players[0].hand, t.community), evaluate(t.players[1].hand, t.community);
      && r.done && r.winnerInfo == Some(Outcome(ShowdownWinner(s0, s1), t.pot, ByShowdown))
      && (s0 < s1 ==> r.players[0].stack == t.players[0].stack + t.pot && r.players[1] == t.players[1])
      && (s1 < s0 ==> r.players[1].stack == t.players[1].stack + t.pot && r.players[0] == t.players[0])
      && (s0 == s1 ==>
            r.players[0].stack == t.players[0].stack + t.pot / 2.0
            && r.players[1].stack == t.players[1].stack + t.pot / 2.0)
    ensures !t.done ==> StackSum(r) == StackSum(t) + t.pot
    ensures forall k | 0 <= k < 2 :: r.players[k] == t.players[k].(stack := r.players[k].stack)
    ensures r == t.(players := r.players, done := r.done, winnerInfo := r.winnerInfo)
  {
    if t.done then t
    else
      var score0 := evaluate(t.players[0].hand, t.community);
      var score1 := evaluate(t.players[1].hand, t.community);
      var winner := ShowdownWinner(score0, score1);
      var paid :=
        if winner != -1 then t.players[winner := t.players[winner].(stack := t.players[winner].stack + t.pot)]
        else [t.players[0].(stack := t.players[0].stack + t.pot / 2.0),
              t.players[1].(stack := t.players[1].stack + t.pot / 2.0)];
      t.(done := true, players := paid, winnerInfo := Some(Outcome(winner, t.pot, ByShowdown)))
  }

  /** Move the top `n` cards of the deck onto the board. */
  function Deal(t: Table, n: nat): (r: Table)
    requires n <= |t.deck|
    ensures |r.community| == |t.community| + n && r.community[..|t.community|] == t.community
    ensures r.community + r.deck == t.community + t.deck
    ensures r == t.(community := r.community, deck := r.deck)
  {
    t.(community := t.community + t.deck[..n], deck := t.deck[n..])
  }

  /** `_end_betting_round` up to its dealing step: the per-street fields start afresh. */
  function ClearStreet(t: Table): (r: Table)
    requires TwoSeats(t) && IsSeat(t.button)
    ensures r.players == [t.players[0].(currentBet := 0.0), t.players[1].(currentBet := 0.0)]
    ensures r == t.(players := r.players, currentBet := 0.0, raises := 0,
                    currentPlayer := 1 - t.button, lastRaiser := 1 - t.button)
  {
    var bb := 1 - t.button;
    t.(players := [t.players[0].(currentBet := 0.0), t.players[1].(currentBet := 0.0)],
       currentBet := 0.0, raises := 0, currentPlayer := bb, lastRaiser := bb)
  }

  /**
   * `_end_betting_round`: clear the street, then run the board out to five cards
   * and show down if a seat is all-in, else deal the flop, turn or river, else
   * (five cards out) show down.
   */
  function EndBettingRound(t: Table, evaluate: Evaluator): (r: Table)
    requires TwoSeats(t) && IsSeat(t.button) && |t.community| <= 5 && |t.community| + |t.deck| >= 5
    ensures TwoSeats(r)
    ensures r.raises == 0 && r.currentBet == 0.0
    ensures r.players[0].currentBet == 0.0 && r.players[1].currentBet == 0.0
    ensures r.currentPlayer == 1 - t.button && r.lastRaiser == 1 - t.button
    ensures r.community + r.deck == t.community + t.deck
    ensures |t.community| <= |r.community| && r.community[..|t.community|] == t.community
    ensures IsBoardSize(|t.community|) ==> IsBoardSize(|r.community|)
    ensures (t.players[0].isAllIn || t.players[1].isAllIn) ==>
      |r.community| == 5 && r == Showdown(Deal(ClearStreet(t), 5 - |t.community|), evaluate)
    ensures !(t.players[0].isAllIn || t.players[1].isAllIn) ==>
      && (|t.community| == 0 ==> |r.community| == 3 && r.done == t.done)
      && (|t.community| == 3 ==> |r.community| == 4 && r.done == t.done)
      && (|t.community| == 4 ==> |r.community| == 5 && r.done == t.done)
      && (|t.community| == 5 ==> r == Showdown(ClearStreet(t), evaluate))
      && (|t.community| == 0 || |t.community| == 3 || |t.community| == 4 ==>
            r.players == [t.players[0].(currentBet := 0.0), t.players[1].(currentBet := 0.0)])
    ensures r.button == t.button && r.history == t.history && r.pot == t.pot
    ensures !t.done ==> r.done || |r.community| > |t.community|
  {
    var cleared := ClearStreet(t);
    if t.players[0].isAllIn || t.players[1].isAllIn then
      Showdown(Deal(cleared, 5 - |t.community|), evaluate)
    else if |t.community| == 0 then Deal(cleared, 3)
    else if |t.community| == 3 then Deal(cleared, 1)
    else if |t.community| == 4 then Deal(cleared, 1)
    else Showdown(cleared, evaluate)
  }

  /** The preconditions every call of `step` meets (implied by the invariant). */
  predicate Playable(t: Table)
  {
    TwoSeats(t) && IsSeat(t.currentPlayer) && IsSeat(t.button) && 0 <= t.raises
    && |t.community| <= 5 && |t.community| + |t.deck| >= 5
  }

  /** Apply one legal action for seat `i`. */
  function ApplyAction(t: Table, i: int, action: string): Table
    requires TwoSeats(t) && IsSeat(i) && 0 <= t.raises
    requires action == "raise" ==> t.raises < RAISE_LIMIT
  {
    if action == "fold" then HandleFold(t, i)
    else if action == "check" then HandleCheck(t, i)
    else if action == "call" then HandleCall(t, i)
    else if action == "raise" then HandleRaise(t, i)
    else t
  }

  /**
   * `step`: refuse the action when the hand is over or the action is not legal;
   * otherwise apply it, record it and close the street if betting is over.
   * The reward `step` returns alongside is always 0.
   */
  function Step(t: Table, action: string, evaluate: Evaluator): (r: Result<Table, StepError>)
    requires Playable(t)
    ensures t.done ==> r == Failure(GameOver)
    ensures !t.done && action !in LegalActions(t) ==> r == Failure(IllegalAction(action, t.currentPlayer))
    ensures !t.done && action in LegalActions(t) ==>
      && r.Success? && |r.value.history| == |t.history| + 1 && r.value.history[..|t.history|] == t.history
      && r.value.history[|t.history|].player == t.currentPlayer && r.value.history[|t.history|].action == action
    ensures !t.done && action in LegalActions(t) ==>
      var p := t.currentPlayer;
      var acted := ApplyAction(t, p, action);
      var closes := !acted.done && IsBettingOver(acted);
      && r.Success? && TwoSeats(r.value)
      && r.value.history[|t.history|].after == Snap(acted)
      && (action == "fold" ==> r.value.done && r.value.winnerInfo == Some(Outcome(1 - p, t.pot, ByFold)))
      && (!closes ==> r.value == acted.(history := r.value.history))
      && (closes ==> && r.value.raises == 0 && r.value.currentBet == 0.0
                     && r.value.players[0].currentBet == 0.0 && r.value.players[1].currentBet == 0.0
                     && r.value.currentPlayer == 1 - t.button && r.value.pot == acted.pot
                     && (r.value.done || |r.value.community| > |t.community|))
  {
    if t.done then Failure(GameOver)
    else if action !in LegalActions(t) then Failure(IllegalAction(action, t.currentPlayer))
    else
      var p := t.currentPlayer;
      var acted := ApplyAction(t, p, action);
      var recorded := RecordAction(acted, p, action);
      if !recorded.done && IsBettingOver(recorded) then Success(EndBettingRound(recorded, evaluate))
      else Success(recorded)
  }
}
