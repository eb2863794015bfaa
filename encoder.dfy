/**
 * The feature encoder of utils/encoder.py: a state seen from one seat becomes
 * a 301-entry vector. The first 121 entries hold the two hole cards and the
 * five board slots (17 one-hot entries per card) and the position; the other
 * 180 hold a 4 x 5 x 9 grid with up to five actions per street, each as the
 * stacks and pot after it (divided by 400), the acting seat and the action.
 * The slotting of the history into the grid is shared with the training
 * encoder in training_encoder.dfy.
 */
module Encoder {
  import opened Poker

  /** A card as the state shows it: rank character then suit character; "" stands for no card. */
  type CardText = string

  const CARD_RANK: string := "23456789TJQKA"
  const CARD_SUIT: string := "shdc"

  /** Entries per encoded card: 13 rank slots, then 4 suit slots. */
  const CARD_WIDTH := 17

  /** The board always takes five card slots. */
  const BOARD_SLOTS := 5

  /** The streets of the history grid, and the actions kept per street. */
  const STREETS := 4
  const STEPS_PER_STREET := 5

  /** The width of one history row of this encoder: 3 numeric, 2 seat, 4 action entries. */
  const ROW_WIDTH := 9

  /** The chip total the encoder divides stacks and pot by. */
  const TOTAL_INITIAL_STACK := 400.0

  /** The number of columns in the logger's CSV header, results column aside (utils/logger.py). */
  const PSV_LENGTH := 301

  /** The state the encoders read: hole cards by seat, board, button, stacks, pot and action history. */
  datatype View = View(hands: (seq<CardText>, seq<CardText>), community: seq<CardText>, button: int,
                       stacks: (real, real), pot: real, history: seq<Entry>)

  function Zeros(n: nat): (v: seq<real>)
    ensures |v| == n && forall k | 0 <= k < n :: v[k] == 0.0
  {
    seq(n, _ => 0.0)
  }

  /** A vector of `n` zeros with a one at `i`. */
  function OneHot(n: nat, i: int): (v: seq<real>)
    requires 0 <= i < n
    ensures |v| == n && v[i] == 1.0 && forall k | 0 <= k < n && k != i :: v[k] == 0.0
  {
    seq(n, k => if k == i then 1.0 else 0.0)
  }

  /** The number of entries equal to one. */
  function CountOnes(v: seq<real>): nat
  {
    if v == [] then 0 else (if v[0] == 1.0 then 1 else 0) + CountOnes(v[1..])
  }

  /** Python's `str.find`: the first index of `c` in `s`, or -1. */
  function Find(s: string, c: char): (i: int)
    ensures -1 <= i < |s|
    ensures i == -1 <==> c !in s
    ensures 0 <= i ==> s[i] == c && c !in s[..i]
  {
    if s == [] then -1
    else if s[0] == c then 0
    else
      var j := Find(s[1..], c);
      assert s[1..][..if j < 0 then 0 else j] == s[1..1 + if j < 0 then 0 else j];
      if j == -1 then -1 else j + 1
  }

  /** The slot numpy writes for `vec[s.find(c)] = 1`: the index of `c`, or the last slot when it is missing. */
  function Slot(s: string, c: char): (i: int)
    requires |s| > 0
    ensures 0 <= i < |s|
    ensures c in s ==> s[i] == c && c !in s[..i]
    ensures c !in s ==> i == |s| - 1
  {
    var j := Find(s, c);
    if j == -1 then |s| - 1 else j
  }

  /** What `_encode_card` accepts: no card, or at least a rank and a suit character. */
  predicate Encodable(c: CardText) { c == "" || |c| >= 2 }

  /** `_encode_card`. */
  function EncodeCard(c: CardText): (v: seq<real>)
    requires Encodable(c)
    ensures |v| == CARD_WIDTH
    ensures c == "" ==> v == Zeros(CARD_WIDTH)
    ensures c != "" ==>
      forall k | 0 <= k < CARD_WIDTH ::
        v[k] == (if k == Slot(CARD_RANK, c[0]) || k == 13 + Slot(CARD_SUIT, c[1]) then 1.0 else 0.0)
  {
    if c == "" then Zeros(CARD_WIDTH)
    else OneHot(13, Slot(CARD_RANK, c[0])) + OneHot(4, Slot(CARD_SUIT, c[1]))
  }

  lemma CountOnesAppend(a: seq<real>, b: seq<real>)
    ensures CountOnes(a + b) == CountOnes(a) + CountOnes(b)
  {
    if a == [] {
      assert a + b == b;
    } else {
      assert (a + b)[0] == a[0];
      assert (a + b)[1..] == a[1..] + b;
      CountOnesAppend(a[1..], b);
    }
  }

  lemma {:induction false} CountOnesOneHot(n: nat, i: int)
    requires 0 <= i < n
    ensures CountOnes(OneHot(n, i)) == 1
  {
    if i == 0 {
      CountOnesZeros(n - 1);
      assert OneHot(n, i)[1..] == Zeros(n - 1);
    } else {
      assert OneHot(n, i)[1..] == OneHot(n - 1, i - 1);
      CountOnesOneHot(n - 1, i - 1);
    }
  }

  lemma {:induction false} CountOnesZeros(n: nat)
    ensures CountOnes(Zeros(n)) == 0
  {
    if n > 0 {
      assert Zeros(n)[1..] == Zeros(n - 1);
      CountOnesZeros(n - 1);
    }
  }

  /**
   * No card encodes as seventeen zeros; any other card as exactly two ones, one
   * among the thirteen rank slots and one among the four suit slots.
   */
  lemma EncodeCardOnes(c: CardText)
    requires Encodable(c)
    ensures c == "" ==> CountOnes(EncodeCard(c)) == 0
    ensures c != "" ==> CountOnes(EncodeCard(c)[..13]) == 1 && CountOnes(EncodeCard(c)[13..]) == 1
                        && CountOnes(EncodeCard(c)) == 2
  {
    if c == "" {
      CountOnesZeros(CARD_WIDTH);
    } else {
      var v := EncodeCard(c);
      assert v[..13] == OneHot(13, Slot(CARD_RANK, c[0]));
      assert v[13..] == OneHot(4, Slot(CARD_SUIT, c[1]));
      CountOnesOneHot(13, Slot(CARD_RANK, c[0]));
      CountOnesOneHot(4, Slot(CARD_SUIT, c[1]));
      assert v == v[..13] + v[13..];
      CountOnesAppend(v[..13], v[13..]);
    }
  }

  /** The first index holding a one, if any. */
  function FirstOne(v: seq<real>): (r: Option<nat>)
    ensures r.Some? ==> r.value < |v| && v[r.value] == 1.0 && forall k | 0 <= k < r.value :: v[k] != 1.0
    ensures r.None? ==> forall k | 0 <= k < |v| :: v[k] != 1.0
  {
    if v == [] then None
    else if v[0] == 1.0 then Some(0)
    else match FirstOne(v[1..]) {
      case None => None
      case Some(j) => Some(j + 1)
    }
  }

  /** Reads a card back from its seventeen entries: the first rank one and the first suit one. */
  function DecodeCard(v: seq<real>): (c: CardText)
    requires |v| == CARD_WIDTH
    ensures c == "" || |c| == 2
  {
    match (FirstOne(v[..13]), FirstOne(v[13..])) {
      case (Some(r), Some(s)) => [CARD_RANK[r], CARD_SUIT[s]]
      case _ => ""
    }
  }

  /** A card the dealer can produce: a known rank and a known suit. */
  predicate IsCardText(c: CardText)
  {
    |c| == 2 && c[0] in CARD_RANK && c[1] in CARD_SUIT
  }

  lemma FirstOneOfOneHot(n: nat, i: int)
    requires 0 <= i < n
    ensures FirstOne(OneHot(n, i)) == Some(i)
  {
    var v := OneHot(n, i);
    assert v[i] == 1.0;
    var r := FirstOne(v);
    assert r.Some?;
    assert r.value == i;
  }

  /** Decoding an encoded card gives the card back, and no card stays no card. */
  lemma DecodeEncodeCard(c: CardText)
    requires IsCardText(c) || c == ""
    ensures DecodeCard(EncodeCard(c)) == c
  {
    var v := EncodeCard(c);
    if c == "" {
      assert forall k | 0 <= k < 13 :: v[..13][k] == 0.0;
      assert FirstOne(v[..13]).None?;
    } else {
      assert v[..13] == OneHot(13, Slot(CARD_RANK, c[0]));
      assert v[13..] == OneHot(4, Slot(CARD_SUIT, c[1]));
      FirstOneOfOneHot(13, Slot(CARD_RANK, c[0]));
      FirstOneOfOneHot(4, Slot(CARD_SUIT, c[1]));
      assert DecodeCard(v) == [c[0], c[1]];
    }
  }

  /** A slice of `a + b` lying wholly after `a` is a slice of `b`. */
  lemma SliceAfter(a: seq<real>, b: seq<real>, i: int, j: int)
    requires |a| <= i <= j <= |a| + |b|
    ensures (a + b)[i..j] == b[i - |a|..j - |a|]
  {
    assert forall x | i <= x < j :: (a + b)[x] == b[x - |a|];
  }

  /** The concatenated encodings of a list of cards. */
  function EncodeCards(cs: seq<CardText>): (v: seq<real>)
    requires forall k | 0 <= k < |cs| :: Encodable(cs[k])
    ensures |v| == CARD_WIDTH * |cs|
  {
    var rows := seq(|cs|, k requires 0 <= k < |cs| => EncodeCard(cs[k]));
    ConcatLength(rows, CARD_WIDTH);
    Concat(rows)
  }

  /** Row `k` of rows of width `w` sits at entries `w * k` to `w * k + w - 1` of their concatenation. */
  lemma {:induction false} ConcatSlice(rows: seq<seq<real>>, w: nat, k: nat)
    requires forall j | 0 <= j < |rows| :: |rows[j]| == w
    requires k < |rows|
    ensures 0 <= w * k && w * k + w <= |Concat(rows)|
    ensures Concat(rows)[w * k..w * k + w] == rows[k]
  {
    var tail := rows[1..];
    assert forall j | 0 <= j < |tail| :: tail[j] == rows[j + 1];
    ConcatLength(tail, w);
    var rest := Concat(tail);
    assert Concat(rows) == rows[0] + rest;
    assert |Concat(rows)| == w + |rest|;
    if k == 0 {
      assert (rows[0] + rest)[..w] == rows[0];
    } else {
      ConcatSlice(tail, w, k - 1);
      var lo := w * (k - 1);
      assert w * k == lo + w;
      SliceAfter(rows[0], rest, lo + w, lo + w + w);
    }
  }

  /** Card `k`'s encoding sits at entries 17k to 17k + 16 of the concatenation. */
  lemma EncodeCardsSlice(cs: seq<CardText>, k: nat)
    requires forall j | 0 <= j < |cs| :: Encodable(cs[j])
    requires k < |cs|
    ensures EncodeCards(cs)[CARD_WIDTH * k..CARD_WIDTH * k + CARD_WIDTH] == EncodeCard(cs[k])
  {
    var rows := seq(|cs|, j requires 0 <= j < |cs| => EncodeCard(cs[j]));
    ConcatSlice(rows, CARD_WIDTH, k);
  }

  /** `(community_cards + [None] * 5)[:5]`: the board cut or padded to five slots. */
  function PadBoard(cs: seq<CardText>): (p: seq<CardText>)
    ensures |p| == BOARD_SLOTS
    ensures forall k | 0 <= k < BOARD_SLOTS :: p[k] == if k < |cs| then cs[k] else ""
  {
    (cs + seq(BOARD_SLOTS, _ => ""))[..BOARD_SLOTS]
  }

  /** `[1, 0]` for the seat on the button, `[0, 1]` for the other. */
  function PositionVec(button: int, perspective: int): (v: seq<real>)
    ensures |v| == 2
    ensures v == [1.0, 0.0] <==> button == perspective
    ensures v == [0.0, 1.0] <==> button != perspective
  {
    if button == perspective then [1.0, 0.0] else [0.0, 1.0]
  }

  /** The hole cards of a seat. */
  function HandOf(s: View, seat: int): seq<CardText>
  {
    if seat == 0 then s.hands.0 else s.hands.1
  }

  /** What `encode_state_to_psv` needs to run without an error. */
  predicate Encodes(s: View, perspective: int)
  {
    IsSeat(perspective) && |HandOf(s, perspective)| > 0
    && (forall k | 0 <= k < |HandOf(s, perspective)| :: Encodable(HandOf(s, perspective)[k]))
    && (forall k | 0 <= k < |s.community| :: Encodable(s.community[k]))
  }

  /** The static part: hole cards, five board slots, position. */
  function StaticVec(s: View, perspective: int): (v: seq<real>)
    requires Encodes(s, perspective)
    ensures |v| == CARD_WIDTH * |HandOf(s, perspective)| + CARD_WIDTH * BOARD_SLOTS + 2
  {
    EncodeCards(HandOf(s, perspective)) + EncodeCards(PadBoard(s.community)) + PositionVec(s.button, perspective)
  }

  // ---- action names ----

  /** The blinds and check count as a call, and bet as a raise. */
  function NormaliseAction(a: string): (n: string)
    ensures a == "check" || a == "small_blind" || a == "big_blind" ==> n == "call"
    ensures a == "bet" ==> n == "raise"
    ensures !(a in ["check", "small_blind", "big_blind", "bet"]) ==> n == a
  {
    if a in ["check", "small_blind", "big_blind"] then "call"
    else if a == "bet" then "raise"
    else a
  }

  /** `action_map.get`: fold 0, check 1, call 2, raise 3. */
  function ActionIndex(a: string): (i: Option<nat>)
    ensures i.Some? ==> i.value < 4
    ensures i.Some? <==> a in ["fold", "check", "call", "raise"]
  {
    if a == "fold" then Some(0)
    else if a == "check" then Some(1)
    else if a == "call" then Some(2)
    else if a == "raise" then Some(3)
    else None
  }

  /** The four action entries of a history row. */
  function ActionVec(a: string): (v: seq<real>)
    ensures |v| == 4
  {
    match ActionIndex(NormaliseAction(a)) {
      case Some(i) => OneHot(4, i)
      case None => Zeros(4)
    }
  }

  /**
   * The action entries say exactly which kind the action was: fold, call (with
   * check and the blinds), raise (with bet), or nothing for any other name. The
   * check entry is never set.
   */
  lemma ActionVecMeaning(a: string)
    ensures ActionVec(a)[1] == 0.0
    ensures ActionVec(a)[0] == 1.0 <==> a == "fold"
    ensures ActionVec(a)[2] == 1.0 <==> a in ["check", "call", "small_blind", "big_blind"]
    ensures ActionVec(a)[3] == 1.0 <==> a in ["raise", "bet"]
    ensures ActionVec(a) == Zeros(4) <==> !(a in ["fold", "check", "call", "raise", "small_blind", "big_blind", "bet"])
  {
    var n := NormaliseAction(a);
    if a in ["check", "small_blind", "big_blind"] {
      assert n == "call";
    } else if a == "bet" {
      assert n == "raise";
    } else {
      assert n == a;
    }
    if ActionIndex(n).Some? {
      assert ActionVec(a)[ActionIndex(n).value] == 1.0;
    }
  }

  /** The two seat entries of a history row: keyed on seat 0, whoever's view it is. */
  function ActorVec(player: int): (v: seq<real>)
    ensures v == [1.0, 0.0] <==> player == 0
  {
    if player == 0 then [1.0, 0.0] else [0.0, 1.0]
  }

  /** The street index of a round name: preflop 0, flop 1, turn 2, river 3, else none. */
  function RoundIndex(round: Option<string>): (i: Option<nat>)
    ensures i.Some? ==> i.value < STREETS
  {
    match round {
      case Some("preflop") => Some(0)
      case Some("flop") => Some(1)
      case Some("turn") => Some(2)
      case Some("river") => Some(3)
      case _ => None
    }
  }

  /** Every round name the engines record for a legal board is understood by the encoder. */
  lemma RoundIndexOfRoundName(cards: int)
    ensures RoundIndex(RoundName(cards)).Some? <==> IsBoardSize(cards)
    ensures IsBoardSize(cards) ==> RoundIndex(RoundName(cards)) == Some(if cards == 0 then 0 else cards - 2)
  {
  }

  // ---- slotting the history into the grid ----

  /** The history entries of street `r`, in order. */
  function OfRound(h: seq<Entry>, r: int): (es: seq<Entry>)
    ensures |es| <= |h|
    ensures forall k | 0 <= k < |es| :: RoundIndex(es[k].round) == Some(r)
  {
    if h == [] then []
    else OfRound(h[..|h| - 1], r) + (if RoundIndex(h[|h| - 1].round) == Some(r) then [h[|h| - 1]] else [])
  }

  /** A street's five slots: its first five entries as rows, zero rows after them. */
  function Slots(h: seq<Entry>, r: int, row: Entry -> seq<real>, w: nat): (sl: seq<seq<real>>)
    ensures |sl| == STEPS_PER_STREET
    ensures forall s | 0 <= s < STEPS_PER_STREET ::
      sl[s] == if s < |OfRound(h, r)| then row(OfRound(h, r)[s]) else Zeros(w)
  {
    var es := OfRound(h, r);
    seq(STEPS_PER_STREET, s => if 0 <= s < |es| then row(es[s]) else Zeros(w))
  }

  /** The history grid: four streets of five slots. */
  function Grid(h: seq<Entry>, row: Entry -> seq<real>, w: nat): (g: seq<seq<seq<real>>>)
    ensures |g| == STREETS && forall r | 0 <= r < STREETS :: g[r] == Slots(h, r, row, w)
  {
    seq(STREETS, r => Slots(h, r, row, w))
  }

  /** Rows laid end to end. */
  function Concat(rows: seq<seq<real>>): seq<real>
  {
    if rows == [] then [] else rows[0] + Concat(rows[1..])
  }

  /** `flatten` of a 3-dimensional grid, in row-major order. */
  function Flatten(g: seq<seq<seq<real>>>): seq<real>
  {
    if g == [] then [] else Concat(g[0]) + Flatten(g[1..])
  }

  lemma {:induction false} ConcatLength(rows: seq<seq<real>>, w: nat)
    requires forall k | 0 <= k < |rows| :: |rows[k]| == w
    ensures |Concat(rows)| == |rows| * w
  {
    if rows != [] {
      ConcatLength(rows[1..], w);
    }
  }

  lemma {:induction false} FlattenLength(g: seq<seq<seq<real>>>, n: nat, w: nat)
    requires forall r | 0 <= r < |g| :: |g[r]| == n && forall s | 0 <= s < n :: |g[r][s]| == w
    ensures |Flatten(g)| == |g| * (n * w)
  {
    if g != [] {
      var tail := g[1..];
      assert forall r | 0 <= r < |tail| :: tail[r] == g[r + 1];
      ConcatLength(g[0], w);
      FlattenLength(tail, n, w);
      assert |Flatten(g)| == n * w + |tail| * (n * w);
      assert |g| * (n * w) == (|tail| + 1) * (n * w);
    }
  }

  /** A grid of rows of width `w` flattens to 4 * 5 * w entries. */
  lemma GridLength(h: seq<Entry>, row: Entry -> seq<real>, w: nat)
    requires forall e :: |row(e)| == w
    ensures |Flatten(Grid(h, row, w))| == STREETS * STEPS_PER_STREET * w
  {
    var g := Grid(h, row, w);
    forall r, s | 0 <= r < STREETS && 0 <= s < STEPS_PER_STREET
      ensures |g[r][s]| == w
    {
      var es := OfRound(h, r);
      if s < |es| {
        assert |row(es[s])| == w;
      }
    }
    FlattenLength(g, STEPS_PER_STREET, w);
  }

  /** Appending an entry extends its own street's list and no other. */
  lemma OfRoundAppend(h: seq<Entry>, e: Entry, r: nat)
    ensures OfRound(h + [e], r) == OfRound(h, r) + (if RoundIndex(e.round) == Some(r) then [e] else [])
  {
    assert (h + [e])[..|h + [e]| - 1] == h;
  }

  /**
   * One more history entry: dropped when its round is unknown or its street
   * already has five entries, otherwise written as the row of the next free
   * slot of its street, with every other slot unchanged.
   */
  lemma GridAppend(h: seq<Entry>, e: Entry, row: Entry -> seq<real>, w: nat)
    ensures RoundIndex(e.round).None? ==> Grid(h + [e], row, w) == Grid(h, row, w)
    ensures RoundIndex(e.round).Some? && |OfRound(h, RoundIndex(e.round).value)| >= STEPS_PER_STREET ==>
              Grid(h + [e], row, w) == Grid(h, row, w)
    ensures RoundIndex(e.round).Some? && |OfRound(h, RoundIndex(e.round).value)| < STEPS_PER_STREET ==>
              var r, c := RoundIndex(e.round).value, |OfRound(h, RoundIndex(e.round).value)|;
              Grid(h + [e], row, w) == Grid(h, row, w)[r := Grid(h, row, w)[r][c := row(e)]]
  {
    var g, g' := Grid(h, row, w), Grid(h + [e], row, w);
    var ri := RoundIndex(e.round);
    forall r | 0 <= r < STREETS
      ensures ri != Some(r) ==> g'[r] == g[r]
      ensures ri == Some(r) && |OfRound(h, r)| >= STEPS_PER_STREET ==> g'[r] == g[r]
      ensures ri == Some(r) && |OfRound(h, r)| < STEPS_PER_STREET ==> g'[r] == g[r][|OfRound(h, r)| := row(e)]
    {
      SlotsAppend(h, e, r, row, w);
    }
    if ri.Some? {
      var r0 := ri.value;
      if |OfRound(h, r0)| < STEPS_PER_STREET {
        var want := g[r0 := g[r0][|OfRound(h, r0)| := row(e)]];
        assert forall r | 0 <= r < STREETS :: g'[r] == want[r];
      } else {
        assert forall r | 0 <= r < STREETS :: g'[r] == g[r];
      }
    } else {
      assert forall r | 0 <= r < STREETS :: g'[r] == g[r];
    }
  }

  /** One more history entry, seen from one street's slots. */
  lemma SlotsAppend(h: seq<Entry>, e: Entry, r: nat, row: Entry -> seq<real>, w: nat)
    ensures RoundIndex(e.round) != Some(r) ==> Slots(h + [e], r, row, w) == Slots(h, r, row, w)
    ensures RoundIndex(e.round) == Some(r) && |OfRound(h, r)| >= STEPS_PER_STREET ==>
              Slots(h + [e], r, row, w) == Slots(h, r, row, w)
    ensures RoundIndex(e.round) == Some(r) && |OfRound(h, r)| < STEPS_PER_STREET ==>
              Slots(h + [e], r, row, w) == Slots(h, r, row, w)[|OfRound(h, r)| := row(e)]
  {
    OfRoundAppend(h, e, r);
    var es, es' := OfRound(h, r), OfRound(h + [e], r);
    var sl, sl' := Slots(h, r, row, w), Slots(h + [e], r, row, w);
    assert forall s | 0 <= s < |es| :: es'[s] == es[s];
    if RoundIndex(e.round) == Some(r) && |es| < STEPS_PER_STREET {
      var want := sl[|es| := row(e)];
      assert es'[|es|] == e;
      assert forall s | 0 <= s < STEPS_PER_STREET :: sl'[s] == want[s];
    } else {
      assert forall s | 0 <= s < STEPS_PER_STREET :: sl'[s] == sl[s];
    }
  }

  // ---- the 301-entry encoding ----

  function Mine(pair: (real, real), perspective: int): real
  {
    if perspective == 0 then pair.0 else pair.1
  }

  function Theirs(pair: (real, real), perspective: int): real
  {
    if perspective == 0 then pair.1 else pair.0
  }

  /** One history row: own stack, opponent's stack and pot after the action, each over 400; actor; action. */
  function RichRow(e: Entry, perspective: int): (v: seq<real>)
    ensures |v| == ROW_WIDTH
  {
    [Mine(e.after.stacks, perspective) / TOTAL_INITIAL_STACK,
     Theirs(e.after.stacks, perspective) / TOTAL_INITIAL_STACK,
     e.after.pot / TOTAL_INITIAL_STACK]
    + ActorVec(e.player) + ActionVec(e.action)
  }

  /** The row function of one seat's view. */
  function RichRowOf(perspective: int): Entry -> seq<real>
  {
    e => RichRow(e, perspective)
  }

  /** `encode_state_to_psv`, as a value: the static part followed by the flattened history grid. */
  function Psv(s: View, perspective: int): seq<real>
    requires Encodes(s, perspective)
  {
    StaticVec(s, perspective) + Flatten(Grid(s.history, RichRowOf(perspective), ROW_WIDTH))
  }

  /** With two hole cards the encoding has exactly as many entries as the logger has feature columns. */
  lemma PsvLength(s: View, perspective: int)
    requires Encodes(s, perspective)
    ensures |Psv(s, perspective)| == CARD_WIDTH * |HandOf(s, perspective)| + 85 + 2 + 180
    ensures |HandOf(s, perspective)| == 2 ==> |Psv(s, perspective)| == PSV_LENGTH
  {
    GridLength(s.history, RichRowOf(perspective), ROW_WIDTH);
  }

  /** The grid held in a 4 x 5 x w array. */
  function ArrayGrid(a: array3<real>): (g: seq<seq<seq<real>>>)
    reads a
  {
    seq(a.Length0, r requires 0 <= r < a.Length0 reads a =>
      seq(a.Length1, s requires 0 <= s < a.Length1 reads a =>
        seq(a.Length2, k requires 0 <= k < a.Length2 reads a => a[r, s, k])))
  }

  /** `action_history_vec[round_idx, step_idx] = row`: slot `s` of street `r` takes the row, nothing else changes. */
  method WriteRow(a: array3<real>, r: nat, s: nat, row: seq<real>)
    requires r < a.Length0 && s < a.Length1 && |row| == a.Length2
    modifies a
    ensures ArrayGrid(a) == old(ArrayGrid(a))[r := old(ArrayGrid(a))[r][s := row]]
  {
    ghost var g0 := ArrayGrid(a);
    for k := 0 to a.Length2
      invariant forall x, y, z | 0 <= x < a.Length0 && 0 <= y < a.Length1 && 0 <= z < a.Length2 ::
        a[x, y, z] == if x == r && y == s && z < k then row[z] else g0[x][y][z]
    {
      a[r, s, k] := row[k];
    }
    ghost var g1, want := ArrayGrid(a), g0[r := g0[r][s := row]];
    forall x | 0 <= x < a.Length0
      ensures g1[x] == want[x]
    {
      forall y | 0 <= y < a.Length1
        ensures g1[x][y] == want[x][y]
      {
      }
    }
  }

  /** `np.zeros((4, 5, w))` holds the grid of the empty history. */
  lemma ZeroArrayGrid(a: array3<real>, row: Entry -> seq<real>, w: nat)
    requires a.Length0 == STREETS && a.Length1 == STEPS_PER_STREET && a.Length2 == w
    requires forall x, y, z | 0 <= x < STREETS && 0 <= y < STEPS_PER_STREET && 0 <= z < w :: a[x, y, z] == 0.0
    ensures ArrayGrid(a) == Grid([], row, w)
  {
    var ag, g := ArrayGrid(a), Grid([], row, w);
    forall x | 0 <= x < STREETS
      ensures ag[x] == g[x]
    {
      assert OfRound([], x) == [];
      forall y | 0 <= y < STEPS_PER_STREET
        ensures ag[x][y] == g[x][y]
      {
        assert g[x][y] == Zeros(w);
      }
    }
  }

  /** `step_counters`: each street's count of entries seen, stopping at five. */
  ghost predicate Counts(c: array<nat>, h: seq<Entry>)
    reads c
  {
    c.Length == STREETS
    && forall r | 0 <= r < STREETS ::
         c[r] == if |OfRound(h, r)| < STEPS_PER_STREET then |OfRound(h, r)| else STEPS_PER_STREET
  }

  /** One pass of the history loop of either encoder: skip the entry or write its row into its street's next slot. */
  method PlaceEntry(actionHistoryVec: array3<real>, stepCounters: array<nat>, h: seq<Entry>, e: Entry,
                    row: Entry -> seq<real>, w: nat)
    requires forall x :: |row(x)| == w
    requires actionHistoryVec.Length0 == STREETS && actionHistoryVec.Length1 == STEPS_PER_STREET
    requires actionHistoryVec.Length2 == w
    requires ArrayGrid(actionHistoryVec) == Grid(h, row, w) && Counts(stepCounters, h)
    modifies actionHistoryVec, stepCounters
    ensures ArrayGrid(actionHistoryVec) == Grid(h + [e], row, w) && Counts(stepCounters, h + [e])
  {
    GridAppend(h, e, row, w);
    forall r | 0 <= r < STREETS {
      OfRoundAppend(h, e, r);
    }
    var roundIdx := RoundIndex(e.round);
    if roundIdx.None? {
      return;
    }
    var stepIdx := stepCounters[roundIdx.value];
    if stepIdx >= STEPS_PER_STREET {
      return;
    }
    WriteRow(actionHistoryVec, roundIdx.value, stepIdx, row(e));
    stepCounters[roundIdx.value] := stepCounters[roundIdx.value] + 1;
  }

  /**
   * The history loop of `encode_state_to_psv`, shared by both encoders: walk
   * the history once, counting the entries of each street and writing each
   * of the first five into its slot of a zeroed 4 x 5 x w array.
   */
  method FillGrid(h: seq<Entry>, row: Entry -> seq<real>, w: nat) returns (actionHistoryVec: array3<real>)
    requires forall x :: |row(x)| == w
    ensures ArrayGrid(actionHistoryVec) == Grid(h, row, w)
  {
    actionHistoryVec := new real[STREETS, STEPS_PER_STREET, w]((_, _, _) => 0.0);
    var stepCounters := new nat[STREETS](_ => 0);
    assert h[..0] == [];
    ZeroArrayGrid(actionHistoryVec, row, w);
    for i := 0 to |h|
      invariant ArrayGrid(actionHistoryVec) == Grid(h[..i], row, w)
      invariant Counts(stepCounters, h[..i])
    {
      assert h[..i + 1] == h[..i] + [h[i]];
      PlaceEntry(actionHistoryVec, stepCounters, h[..i], h[i], row, w);
    }
    assert h[..|h|] == h;
  }

  /** `encode_state_to_psv`: the static part followed by the flattened history grid. */
  method EncodeStateToPsv(s: View, perspective: int) returns (psv: seq<real>)
    requires Encodes(s, perspective)
    ensures psv == Psv(s, perspective)
    ensures |HandOf(s, perspective)| == 2 ==> |psv| == PSV_LENGTH
  {
    PsvLength(s, perspective);
    var staticInfoVec := StaticVec(s, perspective);
    var actionHistoryVec := FillGrid(s.history, RichRowOf(perspective), ROW_WIDTH);
    psv := staticInfoVec + Flatten(ArrayGrid(actionHistoryVec));
  }
}
