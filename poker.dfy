/** Types shared by both betting engines, the encoders and the agents. */
module Poker {

  datatype Option<T> = None | Some(value: T)

  datatype Result<T, E> = Success(value: T) | Failure(error: E)

  /** A card as the dealer hands it out: an opaque integer code. */
  type Card = int

  /** The hand ranker: a score for (hole cards, board); a lower score is a better hand. */
  type Evaluator = (seq<Card>, seq<Card>) -> int

  /** A freshly shuffled deck holds every card once. */
  const DECK_SIZE := 52

  /** The numeric part of the state recorded after every action. */
  datatype Snapshot = Snapshot(stacks: (real, real), bets: (real, real), pot: real)

  /** One action-history entry: street name, acting seat, action name and the state after it. */
  datatype Entry = Entry(round: Option<string>, player: int, action: string, after: Snapshot)

  /** Why a hand ended. */
  datatype Reason = ByFold | ByShowdown

  /** The two ways `step` refuses an action (both are a ValueError in the source). */
  datatype StepError = GameOver | IllegalAction(action: string, player: int)

  predicate IsSeat(i: int) { i == 0 || i == 1 }

  /** The value of a seat-indexed pair. */
  function Of(pair: (real, real), i: int): real
    requires IsSeat(i)
  {
    if i == 0 then pair.0 else pair.1
  }

  /** Python's `min` on two chip amounts. */
  function Min(a: real, b: real): real { if a <= b then a else b }

  /** Who wins a showdown: the strictly lower score, or -1 on a tie. */
  function ShowdownWinner(score0: int, score1: int): (w: int)
    ensures w == 0 <==> score0 < score1
    ensures w == 1 <==> score1 < score0
    ensures w == -1 <==> score0 == score1
  {
    if score0 < score1 then 0 else if score1 < score0 then 1 else -1
  }

  /** The four names the engines ever offer as legal actions. */
  predicate IsActionName(a: string) {
    a == "fold" || a == "check" || a == "call" || a == "raise"
  }

  /** A legal number of community cards: none, the flop, the turn or the river. */
  predicate IsBoardSize(n: int) {
    n == 0 || n == 3 || n == 4 || n == 5
  }

  /** `_get_round`: the street named by the number of community cards (None for any other count). */
  function RoundName(cards: int): (r: Option<string>)
    ensures r.Some? <==> IsBoardSize(cards)
    ensures r == Some("preflop") <==> cards == 0
    ensures r == Some("flop") <==> cards == 3
    ensures r == Some("turn") <==> cards == 4
    ensures r == Some("river") <==> cards == 5
  {
    if cards == 0 then Some("preflop")
    else if cards == 3 then Some("flop")
    else if cards == 4 then Some("turn")
    else if cards == 5 then Some("river")
    else None
  }

  /**
   * `get_legal_actions`, shared word for word by both engines: nothing once the
   * hand is over; otherwise fold, then call or check, then raise while the
   * raise counter is below the limit.
   */
  function LegalActionsOf(done: bool, actorBet: real, tableBet: real, raises: int, limit: int): (r: seq<string>)
    ensures done ==> r == []
    ensures !done ==> |r| >= 2 && r[0] == "fold"
    ensures !done ==> ("call" in r <==> actorBet < tableBet)
    ensures !done ==> ("check" in r <==> !(actorBet < tableBet))
    ensures !done ==> ("raise" in r <==> raises < limit)
    ensures forall a :: a in r ==> IsActionName(a)
  {
    if done then []
    else
      var first := ["fold"] + (if actorBet < tableBet then ["call"] else ["check"]);
      if raises < limit then first + ["raise"] else first
  }
}
