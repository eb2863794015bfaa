/**
 * The priority agents of agents/aggressive_agent.py and agents/raise_agent.py.
 * Both `act` methods ignore the state and pick from the legal actions by the
 * same fixed order: raise, then call, then check, and fold otherwise.
 */
module Agents {
  import opened Poker
  import HulheRules
  import TrainingRules

  /** `act` of both priority agents: the first legal action of raise, call, check; fold otherwise. */
  function PriorityChoice(legal: seq<string>): (a: string)
    ensures "raise" in legal ==> a == "raise"
    ensures a == "call" <==> "call" in legal && "raise" !in legal
    ensures a == "check" <==> "check" in legal && "raise" !in legal && "call" !in legal
    ensures a == "fold" <==> "raise" !in legal && "call" !in legal && "check" !in legal
    ensures IsActionName(a)
  {
    if "raise" in legal then "raise"
    else if "call" in legal then "call"
    else if "check" in legal then "check"
    else "fold"
  }

  /**
   * The choice is legal whenever fold is: it is either a legal action found by
   * the chain or the fold fallback.
   */
  lemma ChoiceIsLegal(legal: seq<string>)
    requires "fold" in legal
    ensures PriorityChoice(legal) in legal
  {
  }

  /**
   * Against the legal actions of a hand in progress, the agent raises while
   * the street is below the cap and otherwise calls a bet or checks; it never
   * folds.
   */
  lemma ChoiceAtTable(done: bool, actorBet: real, tableBet: real, raises: int, limit: int)
    requires !done
    ensures var legal := LegalActionsOf(done, actorBet, tableBet, raises, limit);
      && PriorityChoice(legal) in legal
      && PriorityChoice(legal) != "fold"
      && (PriorityChoice(legal) == "raise" <==> raises < limit)
      && (PriorityChoice(legal) == "call" <==> !(raises < limit) && actorBet < tableBet)
      && (PriorityChoice(legal) == "check" <==> !(raises < limit) && !(actorBet < tableBet))
  {
    var legal := LegalActionsOf(done, actorBet, tableBet, raises, limit);
    assert legal[0] == "fold";
    ChoiceIsLegal(legal);
  }

  /** The canonical engine accepts every choice of the agent while its hand is running. */
  lemma CanonicalEngineAccepts(t: HulheRules.Table, smallBet: real, bigBet: real, evaluate: Evaluator)
    requires HulheRules.Playable(t) && !t.done
    ensures HulheRules.Step(t, PriorityChoice(HulheRules.LegalActions(t)), smallBet, bigBet, evaluate).Success?
  {
    ChoiceAtTable(t.done, t.players[t.currentPlayer].currentBet, t.currentBet, t.raises, HulheRules.RAISE_LIMIT);
  }

  /** The training engine accepts every choice of the agent while its hand is running. */
  lemma TrainingEngineAccepts(t: TrainingRules.Table, evaluate: Evaluator)
    requires TrainingRules.Playable(t) && !t.done
    ensures TrainingRules.Step(t, PriorityChoice(TrainingRules.LegalActions(t)), evaluate).Success?
  {
    ChoiceAtTable(t.done, t.players[t.currentPlayer].currentBet, t.currentBet, t.raises, TrainingRules.RAISE_LIMIT);
  }
}
