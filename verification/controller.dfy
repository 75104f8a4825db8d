/**
 The match controller (`ChessLibrary`): the guarded manual move, one engine
 turn, and the turn-limited game loop.
 */
module MatchController {
  import opened ChessRules
  import opened Evaluation

  /** What a manual move attempt did; the source only logs it, and no
      exception reaches the caller in any case. */
  datatype MoveReport = Executed | Illegal | InvalidNotation

  datatype MoveResult = MoveResult(board: Board, report: MoveReport)

  /** `make_move`: parse the UCI text; play the move only when it is legal. */
  function MakeMove(rules: Rules, b: Board, uci: string): (r: MoveResult)
    ensures r.report == InvalidNotation <==> rules.parseUci(uci).None?
    ensures r.report == Executed <==>
      rules.parseUci(uci).Some? && rules.parseUci(uci).value in rules.legalMoves(b)
    ensures r.report == Executed ==>
      r.board.Extends(b) && |r.board.history| == |b.history| + 1
      && r.board.history[|b.history|] == rules.parseUci(uci).value
    ensures r.report != Executed ==> r.board == b
  {
    match rules.parseUci(uci)
    case None => MoveResult(b, InvalidNotation)
    case Some(m) =>
      if m in rules.legalMoves(b) then MoveResult(b.Push(m), Executed)
      else MoveResult(b, Illegal)
  }

  /** Manual moves never make the history illegal. */
  lemma MakeMoveKeepsLegalHistory(rules: Rules, b: Board, uci: string)
    requires LegalHistory(rules, b)
    ensures LegalHistory(rules, MakeMove(rules, b, uci).board)
  {
    var r := MakeMove(rules, b, uci);
    if r.report == Executed {
      PushKeepsLegalHistory(rules, b, rules.parseUci(uci).value);
    }
  }

  /** A rejected move can be retried any number of times without effect. */
  lemma RejectedMoveIsStable(rules: Rules, b: Board, uci: string)
    requires MakeMove(rules, b, uci).report != Executed
    ensures MakeMove(rules, MakeMove(rules, b, uci).board, uci) == MakeMove(rules, b, uci)
  {
  }

  /** `play_engine_move`: a no-op on a finished game; otherwise the engine of
      the side to move chooses, and its move is played unchecked. */
  function PlayEngineMove(rules: Rules, bots: Bots, b: Board): (r: Board)
    ensures rules.isGameOver(b) ==> r == b
    ensures !rules.isGameOver(b) ==>
      r.Extends(b) && |r.history| == |b.history| + 1
      && r.history[|b.history|] == (if rules.turn(b) == White then bots.bot1(b) else bots.bot2(b))
  {
    if rules.isGameOver(b) then b
    else b.Push(EngineFor(bots, rules.turn(b))(b))
  }

  /** Engines that only answer with legal moves keep the history legal. */
  lemma EngineMoveKeepsLegalHistory(rules: Rules, bots: Bots, b: Board)
    requires TrustedEngines(rules, bots)
    requires LegalHistory(rules, b)
    ensures LegalHistory(rules, PlayEngineMove(rules, bots, b))
  {
    if !rules.isGameOver(b) {
      PushKeepsLegalHistory(rules, b, EngineFor(bots, rules.turn(b))(b));
    }
  }

  /** Under a coherent rules library, an engine turn does nothing exactly
      when the evaluation already reports a finished game. */
  lemma EngineMoveNoOpIffDecided(rules: Rules, bots: Bots, b: Board)
    requires Coherent(rules)
    ensures PlayEngineMove(rules, bots, b) == b <==> EvaluateBoard(rules, b) != "Game still ongoing"
  {
  }

  const TurnLimitMessage: string := "Game ended after reaching the maximum number of turns."

  /** The turn-limit message is not the label of any outcome. */
  lemma TurnLimitIsNoOutcome()
    ensures ParseLabel(TurnLimitMessage) == None
  {
  }

  datatype GameResult = GameResult(board: Board, message: string)

  function Max0(n: int): nat
  {
    if n <= 0 then 0 else n
  }

  /** The loop of `play_full_game` with `turns` iterations left: game-over is
      tested before each move, and the loop ends with the turn-limit message
      once its iterations are used up. */
  function FullGame(rules: Rules, bots: Bots, b: Board, turns: int): (r: GameResult)
    decreases Max0(turns)
    ensures r.board.Extends(b)
    ensures |r.board.history| <= |b.history| + Max0(turns)
    ensures r.message == TurnLimitMessage <==> |r.board.history| == |b.history| + Max0(turns)
    ensures r.message != TurnLimitMessage ==>
      rules.isGameOver(r.board) && r.message == EvaluateBoard(rules, r.board)
  {
    if turns <= 0 then GameResult(b, TurnLimitMessage)
    else if rules.isGameOver(b) then
      TurnLimitIsNoOutcome();
      GameResult(b, EvaluateBoard(rules, b))
    else
      var r := FullGame(rules, bots, PlayEngineMove(rules, bots, b), turns - 1);
      assert r.board.history[..|b.history|] == b.history by {
        var b' := PlayEngineMove(rules, bots, b);
        assert r.board.history[..|b'.history|] == b'.history;
        assert r.board.history[..|b.history|] == b'.history[..|b.history|];
      }
      r
  }

  /** An iteration that finds the game over returns its evaluation. */
  lemma FullGameStops(rules: Rules, bots: Bots, b: Board, turns: int)
    requires turns > 0 && rules.isGameOver(b)
    ensures FullGame(rules, bots, b, turns) == GameResult(b, EvaluateBoard(rules, b))
  {
  }

  /** An iteration that finds the game running plays one engine move. */
  lemma FullGameSteps(rules: Rules, bots: Bots, b: Board, turns: int)
    requires turns > 0 && !rules.isGameOver(b)
    ensures FullGame(rules, bots, b, turns)
      == FullGame(rules, bots, b.Push(EngineFor(bots, rules.turn(b))(b)), turns - 1)
  {
  }

  /** `play_full_game`: the imperative loop, proved to compute `FullGame`. */
  method PlayFullGame(rules: Rules, bots: Bots, b0: Board, maxTurns: int)
    returns (b: Board, message: string)
    ensures GameResult(b, message) == FullGame(rules, bots, b0, maxTurns)
    ensures message == TurnLimitMessage || message == EvaluateBoard(rules, b)
  {
    b := b0;
    var turn := 0;
    while turn < maxTurns
      invariant 0 <= turn <= Max0(maxTurns)
      invariant FullGame(rules, bots, b, maxTurns - turn) == FullGame(rules, bots, b0, maxTurns)
    {
      if rules.isGameOver(b) {
        message := EvaluateBoard(rules, b);
        FullGameStops(rules, bots, b, maxTurns - turn);
        return;
      }
      var bot := EngineFor(bots, rules.turn(b));
      var b' := b.Push(bot(b));
      FullGameSteps(rules, bots, b, maxTurns - turn);
      b := b';
      turn := turn + 1;
    }
    message := TurnLimitMessage;
  }

  /** With no turns allowed the board is left alone and the turn-limit
      message is returned, even on a finished game. */
  lemma NoTurnsNoMoves(rules: Rules, bots: Bots, b: Board, maxTurns: int)
    requires maxTurns <= 0
    ensures FullGame(rules, bots, b, maxTurns) == GameResult(b, TurnLimitMessage)
  {
  }

  /** Every move the loop appends is `play_engine_move` on a position that
      was not over: the loop is `play_engine_move` repeated. */
  lemma {:induction false} FullGameIsEngineMoves(rules: Rules, bots: Bots, b: Board, turns: int, k: nat)
    requires var r := FullGame(rules, bots, b, turns).board; |b.history| <= k < |r.history|
    ensures var r := FullGame(rules, bots, b, turns).board;
      !rules.isGameOver(r.Prefix(k)) && r.Prefix(k + 1) == PlayEngineMove(rules, bots, r.Prefix(k))
    decreases Max0(turns)
  {
    var r := FullGame(rules, bots, b, turns).board;
    var b' := PlayEngineMove(rules, bots, b);
    assert turns > 0 && !rules.isGameOver(b);
    assert FullGame(rules, bots, b, turns) == FullGame(rules, bots, b', turns - 1);
    if k == |b.history| {
      assert r.Prefix(k) == b;
      assert r.Prefix(k + 1) == b' by {
        assert r.history[..k + 1] == b'.history[..k + 1];
      }
    } else {
      FullGameIsEngineMoves(rules, bots, b', turns - 1, k);
    }
  }

  /** The loop returns an outcome label only after seeing a finished game at
      the start of an iteration; that label is the final board's evaluation,
      and at most `maxTurns - 1` moves were played. */
  lemma OutcomeOnlyWhenOver(rules: Rules, bots: Bots, b: Board, maxTurns: int)
    requires FullGame(rules, bots, b, maxTurns).message != TurnLimitMessage
    ensures var r := FullGame(rules, bots, b, maxTurns);
      rules.isGameOver(r.board) && r.message == EvaluateBoard(rules, r.board)
      && |r.board.history| < |b.history| + maxTurns
  {
  }

  /** The loop's quirk: if the last permitted move ends the game, the
      turn-limit message is still returned, not the outcome. */
  lemma {:induction false} LastPlyQuirk(rules: Rules, bots: Bots, b: Board, maxTurns: int)
    requires maxTurns > 0
    requires var r := FullGame(rules, bots, b, maxTurns - 1);
      r.message == TurnLimitMessage && !rules.isGameOver(r.board)
    ensures var r := FullGame(rules, bots, b, maxTurns);
      r.message == TurnLimitMessage && r.board == PlayEngineMove(rules, bots, FullGame(rules, bots, b, maxTurns - 1).board)
    decreases maxTurns
  {
    if maxTurns == 1 {
      assert FullGame(rules, bots, b, 0).board == b;
    } else {
      assert !rules.isGameOver(b);
      var b' := PlayEngineMove(rules, bots, b);
      assert FullGame(rules, bots, b, maxTurns - 1) == FullGame(rules, bots, b', maxTurns - 2);
      LastPlyQuirk(rules, bots, b', maxTurns - 1);
    }
  }

  /** Under a coherent rules library the loop never reports "Game still
      ongoing". */
  lemma NeverReportsOngoing(rules: Rules, bots: Bots, b: Board, maxTurns: int)
    requires Coherent(rules)
    ensures FullGame(rules, bots, b, maxTurns).message != "Game still ongoing"
  {
  }

  /** With engines that answer legally, a game that started from a legal
      history still has one when the loop returns. */
  lemma {:induction false} FullGameKeepsLegalHistory(rules: Rules, bots: Bots, b: Board, turns: int)
    requires TrustedEngines(rules, bots)
    requires LegalHistory(rules, b)
    ensures LegalHistory(rules, FullGame(rules, bots, b, turns).board)
    decreases Max0(turns)
  {
    if turns > 0 && !rules.isGameOver(b) {
      EngineMoveKeepsLegalHistory(rules, bots, b);
      FullGameKeepsLegalHistory(rules, bots, PlayEngineMove(rules, bots, b), turns - 1);
    }
  }

  /** A game started from the reset board, played by engines that answer
      legally, ends with every move legal where it was played. */
  lemma FreshGameKeepsLegalHistory(rules: Rules, bots: Bots, maxTurns: int)
    requires TrustedEngines(rules, bots)
    ensures LegalHistory(rules, FullGame(rules, bots, InitialBoard(), maxTurns).board)
  {
    FullGameKeepsLegalHistory(rules, bots, InitialBoard(), maxTurns);
  }
}
