# Heads-up limit Texas Hold'em engine, encoders and agents, in Dafny

This project models PokerAI's rule engine for heads-up fixed-limit Texas
Hold'em, in two versions, and proves properties of each:

- the canonical environment, `HULHE_env/environment.py`;
- the older copy embedded in `start_training.py`.

It also models the two feature encoders that turn a game state into a
fixed-length vector, and the priority agents that play against the engine.

The canonical engine runs one hand at a time:

- `reset` moves the button and shuffles the deck.
- It chooses the stacks: a random split of the table total, or an even one.
- It deals two hole cards to each seat and posts the blinds. The button posts
  the small blind and acts first preflop.
- `step` checks the action against `get_legal_actions`: fold, then call or
  check, then raise while fewer than three raises have been made this street.
- It applies the action and records it in the action history.
- When the street's betting is over, it either deals the next street or runs
  out the board and goes to showdown.
- A fold or a showdown pays the pot and records the winner, the pot and each
  seat's net result.

The training copy differs from the canonical engine in its own ways:

- it keeps stacks from hand to hand, and `reset` reports the match over once a
  seat is broke;
- its preflop raises go to fixed targets of 4, 6 and 8, and postflop raises
  add 4;
- a call that puts the caller all-in refunds the opponent's uncalled excess;
- it records no net results.

Each engine is modelled twice:

- as a `class PokerEnv` whose methods update its fields in place, with the
  seats in an `array`;
- as pure rule functions over a `Table` value.

Every method's postcondition ties its new state to the rule function of the
old state (`Abs() == Rules.X(old(Abs()), …)`). The properties are proved of
the rule functions:

- the table invariant holds throughout a hand, in both engines;
- in the canonical engine, the pot holds exactly what the seats have put in
  since the hand started; the training copy's invariant only has the pot at
  least the two street bets;
- every finished hand's net results sum to zero (canonical engine);
- the training copy neither creates nor loses a chip;
- every canonical hand ends: a bounded budget of remaining actions strictly
  decreases with each step (no such lemma is stated for the training copy);
- at most three raises are made per street;
- a showdown is idempotent;
- the refund levels the street bets.

Both encoders (`utils/encoder.py`, 301 entries, and the copy in
`start_training.py`, 244 entries) are modelled as functions. The history loop
becomes a method that fills a 4 x 5 x w `array3` and is proved to produce
exactly the function's value. Card encoding has a proved decoding inverse.
The agents' priority choice is proved always legal, and always accepted by
both engines while a hand is running.

Modules:

- `Poker`: shared values, the legal-action list and the round names.
- `HulheRules`, `HulheProps`, `HulheEnv`: the canonical engine.
- `TrainingRules`, `TrainingProps`, `TrainingEnv`: the training copy.
- `Encoder`, `TrainingEncoder`: the two encoders.
- `Agents`: the priority agents.

Behaviour of the code as written, kept in the model:

- The canonical engine refunds no uncalled part of a bet.
- When the small blind completes preflop, the big blind is the last raiser, so
  the street closes at once and the big blind gets no option.
- A card character outside `23456789TJQKA` or `shdc` makes `str.find` return
  -1, and numpy then sets the last slot. The model writes that slot (`Encoder.Slot`).
- In the training encoder's action map, the blind entries are never looked up,
  because blinds are renamed to `call` first (`TrainingEncoder.ActionMapsAgree`).

## Model

| member | source | states |
|---|---|---|
| Poker.Min | HULHE_env/environment.py:118 | the smaller of the two amounts; bet amounts are capped by the stack |
| Poker.ShowdownWinner | HULHE_env/environment.py:146-148 | seat 0 iff its score is lower, seat 1 iff the other score is lower, -1 on a tie |
| Poker.RoundName | HULHE_env/environment.py:158-162 | preflop, flop, turn and river exactly for 0, 3, 4 and 5 board cards, and no round otherwise |
| Poker.LegalActionsOf | HULHE_env/environment.py:78-85 | empty once the hand is over; otherwise fold first, call iff the actor is behind the table bet, check iff not, raise iff fewer than the limit of raises |
| HulheRules.PlayerBet | HULHE_env/environment.py:116-123 | the seat pays min(amount, stack) from stack into street bet and pot; chips are conserved; all-in iff the stack reaches 0; the opponent is unchanged |
| HulheRules.RecordAction | HULHE_env/environment.py:164-181 | appends exactly one entry with the actor, the action, the round of the current board size and the snapshot of both stacks, both street bets and the pot, leaving everything else |
| HulheRules.PostBlinds | HULHE_env/environment.py:54-62 | the button commits the small blind and the other seat the big blind, each capped by its stack and taken off it, both into the pot; all-in flags set iff a stack empties; table bet is the big blind, the big blind is last raiser, the button acts; two entries with their snapshots are appended; nothing else changes |
| HulheRules.StartStacks | HULHE_env/environment.py:37-43 | the two start stacks sum to the table total; the random split gives seat 0 the drawn stack, the even split equal halves |
| HulheRules.NewHand | HULHE_env/environment.py:27-50 | the button moves; the stacks handed out are the start stacks; the hands are the first four cards of the shuffle and the deck the rest; street bets are 0, no seat is all-in, each seat's starting stack is its stack; board, pot, raise counter, result and history are cleared |
| HulheRules.Reset | HULHE_env/environment.py:27-52 | new button; the random or the even stack split; hole cards are the first four cards of the shuffle; blinds are capped by the stacks, each stack is its start stack minus its blind, all-in iff empty, and the blinds are the whole pot; table bet is the big blind; the big blind is the last raiser; the button acts; history is the two blinds |
| HulheRules.FinalizeHand | HULHE_env/environment.py:153-156 | records winner, pot, reason and each seat's stack minus its starting stack; the results sum to the change of the stack total |
| HulheRules.HandleFold | HULHE_env/environment.py:87-91 | the opponent wins the whole pot, the hand is over, and the result names the opponent and the fold |
| HulheRules.HandleCall | HULHE_env/environment.py:96-99 | the actor commits the call amount capped by its stack, taken off its stack and added to the pot, so it matches the table bet unless all-in, and an all-in caller commits its whole stack; the opponent is untouched and acts next |
| HulheRules.HandleRaise | HULHE_env/environment.py:101-109 | the raiser commits up to one small or big bet above the table bet, capped by its stack, taken off its stack and added to the pot; its bet becomes the table bet; one more raise is counted; the raiser is the last raiser and the opponent acts |
| HulheRules.Showdown | HULHE_env/environment.py:141-151 | a finished hand is left alone; otherwise the lower score takes the whole pot, or a tie splits it, and the result records the showdown |
| HulheRules.Deal | HULHE_env/environment.py:133-138 | moves the next n cards from the deck to the board in order |
| HulheRules.ClearStreet | HULHE_env/environment.py:126-131 | only the street fields change: both street bets, the table bet and the raise counter are 0, and the big blind acts and counts as last raiser |
| HulheRules.EndBettingRound | HULHE_env/environment.py:125-139 | street bets, table bet and raise counter are 0; the big blind acts and is last raiser; after an all-in the board runs out to five and the hand is shown down; otherwise flop, turn or river are dealt with stacks, hands and all-in flags unchanged, or the hand is shown down after the river; a running hand either gains a card or ends |
| HulheRules.Step | HULHE_env/environment.py:64-76 | a finished hand is an error; an action not offered is an error naming the actor; a legal action is recorded as one more entry whose snapshot is the table after the handler; a fold ends the hand won by the opponent; if betting is not over the result is the handler's table with that entry, otherwise the street is closed (bets, table bet and raise counter 0, the big blind acts, pot kept) and a card is dealt or the hand ends |
| HulheProps.ResetEstablishesInv | HULHE_env/environment.py:27-62 | after reset the table invariant holds: the pot is what the seats have put in, bets are covered, all-in means an empty stack |
| HulheProps.ActionKeepsLedger | HULHE_env/environment.py:93-123 | a legal check, call or raise keeps the running ledger; check and call leave the actor matched; a raise adds one raise and passes the action away from the raiser |
| HulheProps.FoldEndsHand | HULHE_env/environment.py:87-91 | after a fold the stacks add up to their starting total and the net results sum to zero |
| HulheProps.ShowdownEndsHand | HULHE_env/environment.py:141-156 | a showdown of a running hand pays the whole pot, so stacks add up to the starting total and net results sum to zero |
| HulheProps.EndRoundKeepsInv | HULHE_env/environment.py:125-139 | closing a street of a running hand keeps the table invariant |
| HulheProps.StepPreservesInv | HULHE_env/environment.py:64-76 | every accepted step keeps the table invariant |
| HulheProps.CloseOrContinue | HULHE_env/environment.py:74-75 | after a recorded action of a running hand, closing the street when betting is over, or not, leaves the invariant holding |
| HulheProps.RaiseCapHolds | HULHE_env/environment.py:14 | the raise counter never exceeds 3, and raise is offered iff the counter is below it |
| HulheProps.BudgetBounded | HULHE_env/environment.py:14 | a hand in progress has between 1 and 80 actions left in its budget |
| HulheProps.StepShortensHand | HULHE_env/environment.py:64-76 | an accepted step that leaves the hand running strictly lowers the action budget, so every hand ends |
| HulheProps.ShowdownIdempotent | HULHE_env/environment.py:142 | a second showdown changes nothing |
| HulheProps.DealAdds | HULHE_env/environment.py:133 | dealing m cards and then n is dealing m + n, so the run-out loop deals the rest of the board |
| HulheEnv.PokerEnv.constructor | HULHE_env/environment.py:16-25 | stores the table total and the blinds, with small blind = big blind div 2, small bet = big blind, big bet = twice it |
| HulheEnv.PokerEnv.Draw | HULHE_env/environment.py:46 | returns the first n cards of the deck and removes them |
| HulheEnv.PokerEnv.Reset | HULHE_env/environment.py:27-52 | the new state is the reset rule applied to the old one, and the class invariant holds |
| HulheEnv.PokerEnv.StartHand | HULHE_env/environment.py:28-50 | the new state is the new-hand rule of the old one |
| HulheEnv.PokerEnv.ClearHand | HULHE_env/environment.py:28-35 | the button moves to the other seat, the shuffled deck is in place and the board, pot, raise counter, done flag, result and history start afresh, nothing else changes |
| HulheEnv.PokerEnv.DealHoleCards | HULHE_env/environment.py:45-49 | each seat takes the next two cards in seat order; bets are cleared and each stack is recorded |
| HulheEnv.PokerEnv.PostBlinds | HULHE_env/environment.py:54-62 | the new state is the blinds rule of the old one |
| HulheEnv.PokerEnv.PostBlind | HULHE_env/environment.py:56-59 | the seat bets the blind and the history gains its entry |
| HulheEnv.PokerEnv.Step | HULHE_env/environment.py:64-76 | reports the same error as the step rule, or takes its successful state; the class invariant holds |
| HulheEnv.PokerEnv.Play | HULHE_env/environment.py:69-75 | applies a legal action exactly as the step rule does |
| HulheEnv.PokerEnv.GetLegalActions | HULHE_env/environment.py:78-85 | returns the legal-action list of the current state |
| HulheEnv.PokerEnv.HandleFold | HULHE_env/environment.py:87-91 | the new state is the fold rule of the old one |
| HulheEnv.PokerEnv.HandleCheck | HULHE_env/environment.py:93-94 | passes the action to the opponent |
| HulheEnv.PokerEnv.HandleCall | HULHE_env/environment.py:96-99 | the new state is the call rule of the old one |
| HulheEnv.PokerEnv.HandleRaise | HULHE_env/environment.py:101-109 | the new state is the raise rule of the old one |
| HulheEnv.PokerEnv.IsBettingOver | HULHE_env/environment.py:111-114 | true iff a seat is all-in, or the bets are level and the action is back to the last raiser |
| HulheEnv.PokerEnv.PlayerBet | HULHE_env/environment.py:116-123 | returns min(amount, stack), and the new state is the bet rule |
| HulheEnv.PokerEnv.EndBettingRound | HULHE_env/environment.py:125-139 | the new state is the end-of-street rule of the old one |
| HulheEnv.PokerEnv.ClearStreetFields | HULHE_env/environment.py:126-131 | the street bets, table bet and raise counter are zero and the big blind acts and counts as last raiser |
| HulheEnv.PokerEnv.DealNextStreet | HULHE_env/environment.py:132-139 | from a cleared street, the all-in runout and showdown, the next street's cards, or the showdown give the end-of-street rule of the state before clearing |
| HulheEnv.PokerEnv.DealCards | HULHE_env/environment.py:136-138 | the next n cards go from the deck onto the board |
| HulheEnv.PokerEnv.RunOut | HULHE_env/environment.py:133 | one card at a time until the board holds five; the result is dealing the missing cards at once |
| HulheEnv.PokerEnv.Showdown | HULHE_env/environment.py:141-151 | the new state is the showdown rule of the old one |
| HulheEnv.PokerEnv.FinalizeHand | HULHE_env/environment.py:153-156 | the new state is the finalize rule of the old one |
| HulheEnv.PokerEnv.RecordAction | HULHE_env/environment.py:164-181 | appends the history entry of the record rule |
| TrainingRules.PlayerBet | start_training.py:206-213 | the seat pays min(amount, stack) into street bet and pot; chips are conserved; all-in iff the stack reaches 0 |
| TrainingRules.RecordAction | start_training.py:232-245 | appends one entry with the actor, the action, the round and the snapshot of both stacks, both street bets and the pot, leaving everything else |
| TrainingRules.PostBlinds | start_training.py:114-122 | the button commits the small blind and the other seat the big blind, each capped by its stack and taken off it, both into the pot; all-in flags set iff a stack empties; table bet is the big blind, the big blind is last raiser, the button acts; two entries with their snapshots are appended; nothing else changes |
| TrainingRules.NewHand | start_training.py:99-110 | the button moves; the hands are the first four cards of the shuffle and the deck the rest; the stacks carry over; street bets are 0 and no seat is all-in; board, pot, raise counter, result and history are cleared |
| TrainingRules.Reset | start_training.py:96-112 | reports the match over iff a stack is at most 0 and then changes nothing; otherwise new button, four hole cards from the shuffle, each seat's stack is its carried stack minus its blind (capped by that stack), all-in iff empty, the blinds form the pot, chips are conserved, and the history is the two blinds |
| TrainingRules.HandleFold | start_training.py:163-167 | the opponent wins the pot; the result is the opponent, the pot and fold |
| TrainingRules.Refund | start_training.py:176-183 | an all-in caller short of the opponent's bet gets the excess returned to the opponent, so the bets level and chips are conserved; otherwise nothing changes |
| TrainingRules.HandleCall | start_training.py:172-184 | the caller commits the call amount capped by its stack; without a refund the opponent is untouched and the pot grows by that amount; with one, the opponent gets back the excess over the all-in caller's bet, which leaves the pot, and the two bets are level; chips are conserved |
| TrainingRules.RaiseTarget | start_training.py:188-192 | preflop the target is 4, 6 or 8 for raise count 0, 1, 2; postflop it is the table bet plus 4 |
| TrainingRules.HandleRaise | start_training.py:186-199 | the raiser commits up to the raise target, capped by its stack, taken off its stack and added to the pot; its bet becomes the table bet; one more raise; the opponent acts |
| TrainingRules.Showdown | start_training.py:215-224 | a finished hand is left alone; otherwise the lower score takes the pot, a tie splits it, and the outcome records the showdown |
| TrainingRules.Deal | start_training.py:146-151 | moves the next n cards from the deck to the board in order |
| TrainingRules.ClearStreet | start_training.py:139-144 | only the street fields change: both street bets, the table bet and the raise counter are 0, and the big blind acts and counts as last raiser |
| TrainingRules.EndBettingRound | start_training.py:138-152 | clears the street, then runs out and shows down after an all-in, or deals the flop, turn or river with stacks, hands and all-in flags unchanged, or shows down after the river; a running hand either gains a card or ends |
| TrainingRules.Step | start_training.py:124-136 | a finished hand is an error; an action not offered is an error naming the actor; a legal action is recorded as one more entry whose snapshot is the table after the handler; a fold ends the hand with the opponent taking the pot; if betting is not over the result is the handler's table with that entry, otherwise the street is closed (bets, table bet and raise counter 0, the big blind acts, pot kept) and a card is dealt or the hand ends |
| TrainingProps.ResetKeepsInv | start_training.py:96-122 | reset keeps the table invariant, whether or not it reports the match over |
| TrainingProps.ResetKeepsChips | start_training.py:96-112 | a reset after a finished hand neither creates nor loses chips |
| TrainingProps.PreflopTargetInRange | start_training.py:188-189 | a legal preflop raise indexes the target table within bounds, and the target is 4, 6 or 8 |
| TrainingProps.CallLevelsBets | start_training.py:172-184 | when the opponent has matched the table bet, a call leaves both street bets equal, and chips are conserved |
| TrainingProps.ActionKeepsChips | start_training.py:129-132 | an accepted action keeps every chip at the table |
| TrainingProps.ActionKeepsInv | start_training.py:130-132 | a legal check, call or raise keeps the table invariant |
| TrainingProps.CallKeepsInv | start_training.py:172-184 | a call in a running hand keeps the table invariant and leaves board, deck and history alone |
| TrainingProps.RaiseKeepsInv | start_training.py:186-199 | a raise below the cap keeps the table invariant and leaves board, deck and history alone |
| TrainingProps.EndRoundKeepsInv | start_training.py:138-152 | closing a street keeps the invariant and every chip |
| TrainingProps.StepKeepsInvAndChips | start_training.py:124-136 | every accepted step keeps the invariant and every chip |
| TrainingProps.ShowdownIdempotent | start_training.py:216 | a second showdown changes nothing |
| TrainingProps.DealAdds | start_training.py:146 | dealing m cards and then n is dealing m + n |
| TrainingEnv.PokerEnv.constructor | start_training.py:87-94 | both seats start with the initial stack, so the table holds twice it; small blind = big blind div 2 |
| TrainingEnv.PokerEnv.Draw | start_training.py:108 | returns the first n cards of the deck and removes them |
| TrainingEnv.PokerEnv.Reset | start_training.py:96-112 | new state and match-over flag are the reset rule's; after a finished hand chips are unchanged |
| TrainingEnv.PokerEnv.StartHand | start_training.py:99-110 | the new state is the new-hand rule of the old one |
| TrainingEnv.PokerEnv.DealHoleCards | start_training.py:107-110 | each seat takes the next two cards in seat order; bets are cleared |
| TrainingEnv.PokerEnv.PostBlinds | start_training.py:114-122 | the new state is the blinds rule of the old one |
| TrainingEnv.PokerEnv.PostBlind | start_training.py:116-119 | the seat bets the blind and the history gains its entry |
| TrainingEnv.PokerEnv.Step | start_training.py:124-136 | the step rule's error or state; the reward is 0, and done and winner info are returned; chips are unchanged |
| TrainingEnv.PokerEnv.Play | start_training.py:129-135 | applies a legal action exactly as the step rule does |
| TrainingEnv.PokerEnv.GetLegalActions | start_training.py:154-161 | returns the legal-action list of the current state |
| TrainingEnv.PokerEnv.HandleFold | start_training.py:163-167 | the new state is the fold rule of the old one |
| TrainingEnv.PokerEnv.HandleCheck | start_training.py:169-170 | passes the action to the opponent |
| TrainingEnv.PokerEnv.HandleCall | start_training.py:172-184 | the new state is the call-with-refund rule of the old one |
| TrainingEnv.PokerEnv.RefundExcess | start_training.py:175-183 | the new state is the refund rule of the old one: only the opponent's stack and street bet and the pot change |
| TrainingEnv.PokerEnv.HandleRaise | start_training.py:186-199 | the new state is the raise rule of the old one |
| TrainingEnv.PokerEnv.IsBettingOver | start_training.py:201-204 | true iff a seat is all-in, or the bets are level and the action is back to the last raiser |
| TrainingEnv.PokerEnv.PlayerBet | start_training.py:206-213 | returns min(amount, stack), and the new state is the bet rule |
| TrainingEnv.PokerEnv.EndBettingRound | start_training.py:138-152 | the new state is the end-of-street rule of the old one |
| TrainingEnv.PokerEnv.ClearStreetFields | start_training.py:139-144 | the street bets, table bet and raise counter are zero and the big blind acts and counts as last raiser |
| TrainingEnv.PokerEnv.DealNextStreet | start_training.py:145-152 | from a cleared street, the all-in runout and showdown, the next street's cards, or the showdown give the end-of-street rule of the state before clearing |
| TrainingEnv.PokerEnv.DealCards | start_training.py:149-151 | the next n cards go from the deck onto the board |
| TrainingEnv.PokerEnv.RunOut | start_training.py:146 | one card at a time until the board holds five |
| TrainingEnv.PokerEnv.Showdown | start_training.py:215-224 | the new state is the showdown rule of the old one |
| TrainingEnv.PokerEnv.RecordAction | start_training.py:232-245 | appends the history entry of the record rule |
| Encoder.Find | utils/encoder.py:12-13 | Python's `str.find`: -1 iff the character is absent, else the index of its first occurrence |
| Encoder.Slot | utils/encoder.py:12-13 | the index numpy writes: the first occurrence, or the last slot for -1 |
| Encoder.EncodeCard | utils/encoder.py:8-14 | 17 entries; zero for no card; otherwise exactly the rank slot among the first 13 and the suit slot among the last 4 are set |
| Encoder.EncodeCardOnes | utils/encoder.py:8-14 | a card sets one rank entry and one suit entry; no card sets none |
| Encoder.DecodeEncodeCard | utils/encoder.py:8-14 | decoding the encoding of any card text, or of no card, gives it back |
| Encoder.EncodeCards | utils/encoder.py:22 | the concatenated encoding has 17 entries per card |
| Encoder.EncodeCardsSlice | utils/encoder.py:22 | card k's encoding sits at entries 17k to 17k + 16 |
| Encoder.PadBoard | utils/encoder.py:25 | five slots: the board cards, then empty slots |
| Encoder.PositionVec | utils/encoder.py:28 | [1, 0] iff the seat holds the button, [0, 1] iff not |
| Encoder.StaticVec | utils/encoder.py:20-30 | 17 entries per hole card, 85 for the board and 2 for the position |
| Encoder.NormaliseAction | utils/encoder.py:64-65 | check and both blinds become call, bet becomes raise, everything else is kept |
| Encoder.ActionIndex | utils/encoder.py:35 | defined exactly for the four action names, below 4 |
| Encoder.ActionVecMeaning | utils/encoder.py:62-67 | the check entry is never set; fold, call and raise entries are set exactly for their names after renaming; unknown names give zeros |
| Encoder.RoundIndexOfRoundName | utils/encoder.py:34-42 | every round name the engine records maps to its street, and only those board sizes do |
| Encoder.OfRound | utils/encoder.py:40-42 | the history entries of one street, all of that street |
| Encoder.Slots | utils/encoder.py:44-45 | a street's five slots hold the rows of its first five entries, zeros after |
| Encoder.Grid | utils/encoder.py:33 | 4 streets of slots |
| Encoder.GridLength | utils/encoder.py:72 | the flattened grid has 4 * 5 * w entries |
| Encoder.GridAppend | utils/encoder.py:40-70 | one more entry is skipped without a street, dropped beyond five, or fills its street's next slot |
| Encoder.SlotsAppend | utils/encoder.py:40-70 | one more entry leaves every other street's slots alone, leaves a full street alone, and otherwise writes its row into its street's next free slot |
| Encoder.RichRow | utils/encoder.py:47-69 | 9 entries: own and opposing stacks and pot after the action over 400, actor, action |
| Encoder.PsvLength | utils/logger.py:18 | with two hole cards the vector has exactly the logger's 301 columns |
| Encoder.WriteRow | utils/encoder.py:69 | writes one row of the array and leaves the rest |
| Encoder.ZeroArrayGrid | utils/encoder.py:33 | the zero-filled 4 x 5 x w array is the grid of the empty history |
| Encoder.PlaceEntry | utils/encoder.py:40-70 | one pass of the loop keeps the array equal to the grid of the history so far and the counters equal to each street's count, capped at 5 |
| Encoder.FillGrid | utils/encoder.py:33-70 | the array the loop fills over the whole history is the grid of that history |
| Encoder.EncodeStateToPsv | utils/encoder.py:16-74 | returns the static part followed by the flattened grid, 301 entries for two hole cards |
| TrainingEncoder.ActionMapsAgree | start_training.py:55 | after renaming, this map agrees with the canonical one; the two differ exactly on the blind names |
| TrainingEncoder.TrainingActionVec | start_training.py:61-65 | the same action entries as the canonical encoder |
| TrainingEncoder.TrainingRow | start_training.py:59-66 | 6 entries: actor and action |
| TrainingEncoder.NumericVec | start_training.py:45-50 | own stack and opposing stack over 200, pot over 400 |
| TrainingEncoder.TrainingPsvLength | start_training.py:277 | with two hole cards the vector has exactly the training CSV's 244 columns |
| TrainingEncoder.RowsAgree | start_training.py:59-66 | a training row is the canonical row without its numeric entries |
| TrainingEncoder.TrainingEncodeStateToPsv | start_training.py:37-68 | returns the static part, the numeric part and the flattened 4 x 5 x 6 grid |
| Agents.PriorityChoice | agents/aggressive_agent.py:16-27 | raise whenever legal; call iff legal without raise; check iff legal without raise or call; fold iff none of them |
| Agents.ChoiceIsLegal | agents/raise_agent.py:16-23 | when fold is legal, so is the choice |
| Agents.ChoiceAtTable | agents/raise_agent.py:16-23 | in a running hand the agent never folds: it raises iff below the cap, else calls iff behind, else checks |
| Agents.CanonicalEngineAccepts | HULHE_env/environment.py:64-68 | the canonical engine accepts the agent's choice in every running hand |
| Agents.TrainingEngineAccepts | start_training.py:124-128 | the training engine accepts the agent's choice in every running hand |

## Left out

- Card dealing and hand strength come from the `treys` library. The deck is a
  sequence of card codes. `reset` receives the shuffled order as a value, and
  `draw(n)` takes the first n codes. The hand evaluator is a parameter
  (lower is better).
- Converting a card code to text (`Card.int_to_str`) is not modelled. The
  encoders take the card texts as given. No card (`None`) is the empty text.
- Randomness is a parameter: the constructor's button, the shuffled deck and
  the random stack split are all passed in.
- `HulheEnv.PokerEnv.Reset` and `HulheProps.ResetEstablishesInv`: the random
  split must lie within ten of each side. `HulheRules.Reset` itself accepts
  any split. Python's `randint` raises `ValueError` for a table total below 20; arguments
  outside that range are not modelled.
- Chips are exact rationals. Python's mixture of integer, float and `float32`
  arithmetic, and its rounding, is not modelled. Blinds are naturals, so the
  small blind is big blind `div` 2.
- `_get_state` is not modelled. A history entry keeps the stacks, the
  street bets and the pot; the canonical encoder reads only the stacks and the
  pot from it. The training copy's snapshot also copies each seat's hand and
  all-in flag; that copy is not modelled.
- In both copies, calling `step` before the first `reset` raises
  `AttributeError` (`done` does not exist yet). The model's constructor marks
  the hand over instead, so such a `step` is refused with `GameOver`.
- The canonical `reset` sets every field it reads, so its first call is the
  normal start of a match, as in the model.
- The training `reset` fails before the first hand only when a stack is 0 or
  below: it then calls `_get_state` before `community_cards` exists
  (start_training.py:97-98) and raises `AttributeError`. A model built with
  `initialStack == 0` returns `(t, true)` there instead.
- `TrainingEnv.PokerEnv.HandleRaise`: preflop it requires the raise counter to
  be below 3. Python would raise `IndexError` beyond that, but `step` never
  calls it there (`TrainingProps.PreflopTargetInRange`).
- Running out of cards cannot happen with a 52-card deck. The rules require
  cards enough for the board.
- The encoders require a seat index of 0 or 1 and text of at least two
  characters for each card. Python's negative indices, and `np.concatenate`
  failing on an empty hand, are not modelled.
- `Encoder.DecodeCard` exists only in the model, as the partner of
  `EncodeCard`. The source never decodes.
- The loggers, `main`, the CSV writing, `base_agent.py` and the random agent
  are not modelled. They do I/O or use randomness. The column counts from the
  headers are kept as the length properties.
