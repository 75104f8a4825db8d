/**
 Outcome classification (`evaluate_board`): a fixed-precedence chain over
 the five termination predicates of the rules library, mapped onto a closed
 set of result labels.
 */
module Evaluation {
  import opened ChessRules

  /** The closed set of outcomes `evaluate_board` can report. */
  datatype Outcome =
    | WhiteWins
    | BlackWins
    | DrawStalemate
    | DrawInsufficientMaterial
    | DrawSeventyFiveMoves
    | DrawFivefoldRepetition
    | Ongoing

  /** The text the controller reports for each outcome. */
  function Label(o: Outcome): string
  {
    match o
    case WhiteWins => "White wins!"
    case BlackWins => "Black wins!"
    case DrawStalemate => "Draw (stalemate)"
    case DrawInsufficientMaterial => "Draw (insufficient material)"
    case DrawSeventyFiveMoves => "Draw (75-move rule)"
    case DrawFivefoldRepetition => "Draw (fivefold repetition)"
    case Ongoing => "Game still ongoing"
  }

  /** Reads a label back into the outcome it names. */
  function ParseLabel(s: string): (o: Option<Outcome>)
    ensures o.Some? ==> Label(o.value) == s
  {
    if s == "White wins!" then Some(WhiteWins)
    else if s == "Black wins!" then Some(BlackWins)
    else if s == "Draw (stalemate)" then Some(DrawStalemate)
    else if s == "Draw (insufficient material)" then Some(DrawInsufficientMaterial)
    else if s == "Draw (75-move rule)" then Some(DrawSeventyFiveMoves)
    else if s == "Draw (fivefold repetition)" then Some(DrawFivefoldRepetition)
    else if s == "Game still ongoing" then Some(Ongoing)
    else None
  }

  /** Every label reads back as the outcome it was printed from, so no two
      outcomes share a label. */
  lemma LabelRoundTrip(o: Outcome)
    ensures ParseLabel(Label(o)) == Some(o)
  {
  }

  /** `evaluate_board`, as the source writes it: an if/elif chain. */
  function EvaluateBoard(rules: Rules, b: Board): (text: string)
    ensures ParseLabel(text).Some?
    ensures rules.isCheckmate(b) ==>
      text == (if rules.turn(b) == Black then "White wins!" else "Black wins!")
    ensures text == "Game still ongoing" <==>
      !(rules.isCheckmate(b) || rules.isStalemate(b) || rules.isInsufficientMaterial(b)
        || rules.isSeventyFiveMoves(b) || rules.isFivefoldRepetition(b))
  {
    var o :=
      if rules.isCheckmate(b) then (if rules.turn(b) == Black then WhiteWins else BlackWins)
      else if rules.isStalemate(b) then DrawStalemate
      else if rules.isInsufficientMaterial(b) then DrawInsufficientMaterial
      else if rules.isSeventyFiveMoves(b) then DrawSeventyFiveMoves
      else if rules.isFivefoldRepetition(b) then DrawFivefoldRepetition
      else Ongoing;
    LabelRoundTrip(o);
    Label(o)
  }

  // An independent, table-driven reading of the precedence order.

  /** The five termination predicates, in precedence order. */
  function Conditions(rules: Rules, b: Board): (cs: seq<bool>)
    ensures |cs| == 5
  {
    [rules.isCheckmate(b), rules.isStalemate(b), rules.isInsufficientMaterial(b),
     rules.isSeventyFiveMoves(b), rules.isFivefoldRepetition(b)]
  }

  /** The index of the first true entry, or |cs| when none is true. */
  function FirstTrue(cs: seq<bool>): (i: nat)
    ensures i <= |cs|
    ensures i < |cs| ==> cs[i]
    ensures forall j :: 0 <= j < i ==> !cs[j]
  {
    if |cs| == 0 then 0
    else if cs[0] then 0
    else 1 + FirstTrue(cs[1..])
  }

  /** The outcome named by the position of the first true condition; a
      checkmate is won by the side that is NOT to move. */
  function OutcomeAt(i: nat, toMove: Color): Outcome
  {
    if i == 0 then (if toMove == White then BlackWins else WhiteWins)
    else if i == 1 then DrawStalemate
    else if i == 2 then DrawInsufficientMaterial
    else if i == 3 then DrawSeventyFiveMoves
    else if i == 4 then DrawFivefoldRepetition
    else Ongoing
  }

  function Classify(rules: Rules, b: Board): Outcome
  {
    OutcomeAt(FirstTrue(Conditions(rules, b)), rules.turn(b))
  }

  /** The if/elif chain reports the label of the first true condition in the
      order checkmate, stalemate, insufficient material, 75-move rule,
      fivefold repetition, and "Game still ongoing" when none holds. */
  lemma EvaluateIsFirstTrueCondition(rules: Rules, b: Board)
    ensures EvaluateBoard(rules, b) == Label(Classify(rules, b))
  {
    var cs := Conditions(rules, b);
    var i := FirstTrue(cs);
    if cs[0] {
      assert i == 0;
    } else if cs[1] {
      assert i == 1;
    } else if cs[2] {
      assert i == 2;
    } else if cs[3] {
      assert i == 3;
    } else if cs[4] {
      assert i == 4;
    } else {
      assert i == 5;
    }
  }

  /** On checkmate the winner is the side not to move: "White wins!" exactly
      when Black is to move. */
  lemma CheckmateWinner(rules: Rules, b: Board)
    requires rules.isCheckmate(b)
    ensures EvaluateBoard(rules, b) == "White wins!" <==> rules.turn(b) == Black
    ensures EvaluateBoard(rules, b) == "Black wins!" <==> rules.turn(b) == White
  {
  }

  /** Under a coherent rules library, the label is "Game still ongoing"
      exactly when the game is not over. */
  lemma OngoingIffNotOver(rules: Rules, b: Board)
    requires Coherent(rules)
    ensures EvaluateBoard(rules, b) == "Game still ongoing" <==> !rules.isGameOver(b)
  {
  }
}
