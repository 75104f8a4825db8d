/**
 The chess rules library and the engines, as seen by the match controller.

 Legal-move generation, the game-termination predicates, the side to move,
 UCI move parsing and the engines' move choice all live outside the
 controller. They are modelled here as function-valued fields of `Rules`
 and `Bots`: every operation of the controller takes them as parameters,
 so every property proved about the controller holds for ANY rules and
 ANY engines unless a lemma says otherwise.
 */
module ChessRules {

  datatype Option<+T> = None | Some(value: T)

  datatype Color = White | Black

  type Square = x: int | 0 <= x < 64

  datatype PieceType = Knight | Bishop | Rook | Queen

  /** A UCI move: from-square, to-square, optional promotion piece.
      The null move "0000" is the move from a1 to a1. */
  datatype Move = Move(fromSquare: Square, toSquare: Square, promotion: Option<PieceType>)

  /** A position: the position the game started from (as a FEN string)
      and the moves played since, oldest first. */
  datatype Board = Board(start: string, history: seq<Move>) {

    /** Plays `m`: exactly one move is appended to the history. */
    function Push(m: Move): (b: Board)
      ensures b.start == start
      ensures |b.history| == |history| + 1
      ensures b.history[..|history|] == history && b.history[|history|] == m
    {
      Board(start, history + [m])
    }

    /** The position after the first `k` moves of the history. */
    function Prefix(k: nat): (b: Board)
      requires k <= |history|
      ensures b.start == start && |b.history| == k
      ensures forall i :: 0 <= i < k ==> b.history[i] == history[i]
    {
      Board(start, history[..k])
    }

    /** This board is `b` followed by zero or more further moves. */
    predicate Extends(b: Board) {
      start == b.start && |b.history| <= |history| && history[..|b.history|] == b.history
    }
  }

  const StartingFen: string := "rnbqkbnr/pppppppp/8/8/8/8/PPPPPPPP/RNBQKBNR w KQkq - 0 1"

  /** The board a fresh game starts from. */
  function InitialBoard(): (b: Board)
    ensures b.start == StartingFen && b.history == []
  {
    Board(StartingFen, [])
  }

  /** The rules library: UCI parsing, legal moves, side to move and the
      termination predicates. */
  datatype Rules = Rules(
    parseUci: string -> Option<Move>,
    legalMoves: Board -> set<Move>,
    turn: Board -> Color,
    isGameOver: Board -> bool,
    isCheckmate: Board -> bool,
    isStalemate: Board -> bool,
    isInsufficientMaterial: Board -> bool,
    isSeventyFiveMoves: Board -> bool,
    isFivefoldRepetition: Board -> bool)

  /** An engine asked for a move on a board with a fixed time budget. */
  type Engine = Board -> Move

  /** The two engines of a match: bot1 plays White, bot2 plays Black. */
  datatype Bots = Bots(bot1: Engine, bot2: Engine)

  /** The engine that moves for `side`. */
  function EngineFor(bots: Bots, side: Color): Engine
  {
    if side == White then bots.bot1 else bots.bot2
  }

  /** The rules library's game-over test holds exactly when one of the five
      termination predicates holds (what the rules library promises; the
      controller relies on it only where a lemma says so). */
  ghost predicate Coherent(rules: Rules) {
    forall b: Board {:trigger rules.isGameOver(b)} ::
      rules.isGameOver(b) <==>
        (rules.isCheckmate(b) || rules.isStalemate(b) || rules.isInsufficientMaterial(b)
         || rules.isSeventyFiveMoves(b) || rules.isFivefoldRepetition(b))
  }

  /** Every move of the history was legal in the position it was played from. */
  ghost predicate LegalHistory(rules: Rules, b: Board) {
    forall k :: 0 <= k < |b.history| ==> b.history[k] in rules.legalMoves(b.Prefix(k))
  }

  /** Both engines answer every position that is not over with a legal move. */
  ghost predicate TrustedEngines(rules: Rules, bots: Bots) {
    forall b: Board {:trigger rules.isGameOver(b)} ::
      !rules.isGameOver(b) ==>
        bots.bot1(b) in rules.legalMoves(b) && bots.bot2(b) in rules.legalMoves(b)
  }

  /** Appending a legal move to a board with a legal history keeps the history legal. */
  lemma PushKeepsLegalHistory(rules: Rules, b: Board, m: Move)
    requires LegalHistory(rules, b)
    requires m in rules.legalMoves(b)
    ensures LegalHistory(rules, b.Push(m))
  {
    var b' := b.Push(m);
    forall k | 0 <= k < |b'.history|
      ensures b'.history[k] in rules.legalMoves(b'.Prefix(k))
    {
      if k < |b.history| {
        assert b'.Prefix(k) == b.Prefix(k);
      } else {
        assert b'.Prefix(k) == b;
      }
    }
  }
}
