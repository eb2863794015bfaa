/**
 * The copy of the feature encoder in start_training.py: 244 entries. The
 * static part is the same hole cards, five board slots and position as in
 * utils/encoder.py, followed by the seat's own stack and the opponent's stack
 * (each over 200) and the pot (over 400). The history grid is 4 x 5 x 6: the
 * acting seat and the action only.
 */
module TrainingEncoder {
  import opened Poker
  import opened Encoder

  /** The width of one history row: 2 seat entries, 4 action entries. */
  const TRAINING_ROW_WIDTH := 6

  /** The stack the numeric entries are measured against. */
  const INITIAL_STACK := 200.0

  /** The number of columns in the training CSV header, results column aside (start_training.py). */
  const TRAINING_PSV_LENGTH := 244

  /** This copy's `action_map`: it also lists the blinds, as calls. */
  function TrainingActionIndex(a: string): (i: Option<nat>)
  {
    if a == "fold" then Some(0)
    else if a == "check" then Some(1)
    else if a == "call" then Some(2)
    else if a == "raise" then Some(3)
    else if a == "small_blind" then Some(2)
    else if a == "big_blind" then Some(2)
    else None
  }

  /**
   * The blind entries of this copy's map are never looked up, because the
   * blinds are renamed to call first: after renaming, both maps agree.
   */
  lemma ActionMapsAgree(a: string)
    ensures TrainingActionIndex(NormaliseAction(a)) == ActionIndex(NormaliseAction(a))
    ensures TrainingActionIndex(a) != ActionIndex(a) <==> a == "small_blind" || a == "big_blind"
  {
  }

  /** The action entries of a history row, looked up in this copy's map. */
  function TrainingActionVec(a: string): (v: seq<real>)
    ensures |v| == 4
    ensures v == ActionVec(a)
  {
    ActionMapsAgree(a);
    match TrainingActionIndex(NormaliseAction(a)) {
      case Some(i) => OneHot(4, i)
      case None => Zeros(4)
    }
  }

  /** One history row: the acting seat (keyed on seat 0) and the action. */
  function TrainingRow(e: Entry): (v: seq<real>)
    ensures |v| == TRAINING_ROW_WIDTH
  {
    ActorVec(e.player) + TrainingActionVec(e.action)
  }

  /** The row function of the training grid. */
  function TrainingRowFn(): Entry -> seq<real>
  {
    e => TrainingRow(e)
  }

  /** Own stack and opponent's stack over 200, pot over 400. */
  function NumericVec(s: View, perspective: int): (v: seq<real>)
    ensures |v| == 3
    ensures v[0] * INITIAL_STACK == Mine(s.stacks, perspective)
    ensures v[1] * INITIAL_STACK == Theirs(s.stacks, perspective)
    ensures v[2] * (INITIAL_STACK * 2.0) == s.pot
  {
    [Mine(s.stacks, perspective) / INITIAL_STACK, Theirs(s.stacks, perspective) / INITIAL_STACK,
     s.pot / (INITIAL_STACK * 2.0)]
  }

  /** This copy's `encode_state_to_psv`, as a value. */
  function TrainingPsv(s: View, perspective: int): seq<real>
    requires Encodes(s, perspective)
  {
    StaticVec(s, perspective) + NumericVec(s, perspective) + Flatten(Grid(s.history, TrainingRowFn(), TRAINING_ROW_WIDTH))
  }

  /** With two hole cards the encoding has exactly as many entries as the training CSV has feature columns. */
  lemma TrainingPsvLength(s: View, perspective: int)
    requires Encodes(s, perspective)
    ensures |TrainingPsv(s, perspective)| == CARD_WIDTH * |HandOf(s, perspective)| + 85 + 2 + 3 + 120
    ensures |HandOf(s, perspective)| == 2 ==> |TrainingPsv(s, perspective)| == TRAINING_PSV_LENGTH
  {
    GridLength(s.history, TrainingRowFn(), TRAINING_ROW_WIDTH);
  }

  /**
   * Both encoders write the same actions into the same slots: the training
   * grid row is the last six entries of the canonical row.
   */
  lemma RowsAgree(e: Entry, perspective: int)
    ensures TrainingRow(e) == RichRow(e, perspective)[3..]
  {
  }

  /**
   * `encode_state_to_psv` of start_training.py: the static part, the numeric
   * part and the flattened 4 x 5 x 6 history grid.
   */
  method TrainingEncodeStateToPsv(s: View, perspective: int) returns (psv: seq<real>)
    requires Encodes(s, perspective)
    ensures psv == TrainingPsv(s, perspective)
    ensures |HandOf(s, perspective)| == 2 ==> |psv| == TRAINING_PSV_LENGTH
  {
    TrainingPsvLength(s, perspective);
    var staticVec := StaticVec(s, perspective);
    var numericStateVec := NumericVec(s, perspective);
    var actionHistoryVec := FillGrid(s.history, TrainingRowFn(), TRAINING_ROW_WIDTH);
    psv := staticVec + numericStateVec + Flatten(ArrayGrid(actionHistoryVec));
  }
}
