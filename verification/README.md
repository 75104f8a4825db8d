# Chess match controller — a Dafny model

This project models the match controller of a small chess-automation
library (`ChessLibrary` in `chess_library.py`). The controller drives a game
between two UCI engines: it applies guarded manual moves, asks the engine of
the side to move for a move, runs a turn-limited game loop, classifies the
final position into a result label, and appends a result row to a CSV log.

The chess rules (legal moves, side to move, the termination predicates, UCI
parsing) and the engines are outside the controller. They are modelled as
function-valued fields of `ChessRules.Rules` and `ChessRules.Bots`. Every
operation takes them as parameters, so each property below holds for any
rules library and any engines, unless a lemma names an assumption.
`Coherent(rules)` is the rules library's promise that its game-over test
holds exactly when one of the five termination predicates holds.
`TrustedEngines(rules, bots)` says the engines answer every unfinished
position with a legal move.

A board is its starting FEN plus its move history. Pushing a move appends
it. `ChessRules.InitialBoard` is the board that `chess.Board()` and
`initialize_game` (chess_library.py:33, 44-45) produce; its empty history
is trivially legal, so the legal-history lemmas apply to a fresh game
(`MatchController.FreshGameKeepsLegalHistory`).

Modules:

- `ChessRules` (rules.dfy): moves, boards, the rules and engine oracles, legal histories.
- `Evaluation` (evaluation.dfy): `evaluate_board` and its result labels.
- `MatchController` (controller.dfy): `make_move`, `play_engine_move`, `play_full_game`.
- `ResultRecorder` (results.dfy): the row and header logic of `save_result_to_file`.

Behaviour of the code worth knowing, as the model states it:

- `play_full_game` tests game-over only at the start of each iteration (chess_library.py:70-76). A game that ends on the last permitted move therefore returns the turn-limit message (`MatchController.LastPlyQuirk`).
- `make_move` only logs its rejections and returns nothing (chess_library.py:52-56). The model returns the board together with a `MoveReport` that names the branch taken.
- The header is written when `Path(file_path).is_file()` is false (chess_library.py:99-100). The model keeps that test as the file's `isFile` flag.

## Model

| member | source | states |
|---|---|---|
| `ChessRules.PushKeepsLegalHistory` | chess_library.py:50-51 | pushing a move that is legal in the current position keeps every move of the history legal where it was played |
| `Evaluation.EvaluateBoard` | chess_library.py:80-92 | the result is always one of the seven known labels; on checkmate it is "White wins!" when Black is to move and "Black wins!" otherwise; it is "Game still ongoing" exactly when none of the five predicates holds |
| `Evaluation.EvaluateIsFirstTrueCondition` | chess_library.py:80-92 | the if/elif chain equals a table-driven reference: the label of the first true predicate in the order checkmate, stalemate, insufficient material, 75-move rule, fivefold repetition, or "Game still ongoing" |
| `Evaluation.CheckmateWinner` | chess_library.py:81-82 | on checkmate the side not to move wins: "White wins!" if and only if Black is to move, "Black wins!" if and only if White is to move |
| `Evaluation.LabelRoundTrip` | chess_library.py:82-92 | every label reads back as the outcome it names, so the seven outcomes have seven distinct labels |
| `Evaluation.OngoingIffNotOver` | chess_library.py:80-92 | with a coherent rules library, the label is "Game still ongoing" exactly when the game is not over |
| `MatchController.MakeMove` | chess_library.py:47-56 | an unparsable text reports invalid notation; the move is executed if and only if it parses to a legal move, and then exactly that move is appended; otherwise the board is unchanged; no error escapes |
| `MatchController.MakeMoveKeepsLegalHistory` | chess_library.py:47-56 | manual moves keep the history legal |
| `MatchController.RejectedMoveIsStable` | chess_library.py:53-56 | retrying a rejected move text changes nothing and is rejected the same way again |
| `MatchController.PlayEngineMove` | chess_library.py:59-65 | on a finished game the board is unchanged; otherwise exactly one move is appended, bot1's choice when White is to move and bot2's when Black is |
| `MatchController.EngineMoveKeepsLegalHistory` | chess_library.py:63-65 | with engines that answer legally, an engine turn keeps the history legal |
| `MatchController.EngineMoveNoOpIffDecided` | chess_library.py:59-62 | with a coherent rules library, an engine turn leaves the board unchanged exactly when the evaluation reports a decided game |
| `MatchController.TurnLimitIsNoOutcome` | chess_library.py:76 | the turn-limit message is not the label of any outcome |
| `MatchController.FullGameStops` | chess_library.py:71-72 | an iteration that finds the game over returns that board's evaluation and plays nothing |
| `MatchController.FullGameSteps` | chess_library.py:73-75 | an iteration that finds the game running plays the side-to-move engine's move and continues with one turn fewer |
| `MatchController.FullGame` | chess_library.py:69-76 | the final board extends the starting board by at most max(0, max_turns) moves; the turn-limit message is returned exactly when all max(0, max_turns) moves were played; any other message comes from a finished final board and is its evaluation |
| `MatchController.PlayFullGame` | chess_library.py:69-76 | the imperative loop computes the same board and message as `FullGame`, so it returns either the turn-limit message or the final board's evaluation |
| `MatchController.NoTurnsNoMoves` | chess_library.py:70-76 | with max_turns <= 0 the board is unchanged and the turn-limit message is returned, even on a finished game |
| `MatchController.FullGameIsEngineMoves` | chess_library.py:70-75 | every appended move is an engine turn on a position that was not over: the prefix after it is `PlayEngineMove` of the prefix before it |
| `MatchController.OutcomeOnlyWhenOver` | chess_library.py:71-72 | an outcome label is returned only for a finished final board, equals its evaluation, and fewer than max_turns moves were played |
| `MatchController.LastPlyQuirk` | chess_library.py:70-76 | if the game was still running after max_turns - 1 iterations, the last iteration plays a move and the turn-limit message is returned, even when that move ends the game |
| `MatchController.NeverReportsOngoing` | chess_library.py:71-72 | with a coherent rules library the loop never returns "Game still ongoing" |
| `MatchController.FreshGameKeepsLegalHistory` | chess_library.py:44-45 | a game started from the reset board and played by engines that answer legally ends with a legal history |
| `MatchController.FullGameKeepsLegalHistory` | chess_library.py:73-75 | with engines that answer legally, the loop keeps the history legal |
| `ResultRecorder.Split` | chess_library.py:96 | splitting on a single space gives one more piece than there are spaces, and no piece contains a space |
| `ResultRecorder.JoinSplit` | chess_library.py:96 | joining the pieces with single spaces gives back the original opening text |
| `ResultRecorder.SplitJoin` | chess_library.py:96 | splitting space-free pieces joined by single spaces gives back exactly those pieces |
| `ResultRecorder.FirstThree` | chess_library.py:97-98 | the result has exactly three columns: the i-th move when there is one, "" otherwise |
| `ResultRecorder.DataRow` | chess_library.py:96-105 | the row has six fields: the first three split pieces padded with "", then the result and the two bot names |
| `ResultRecorder.OpeningRecoverable` | chess_library.py:96-105 | an opening with at most two spaces (at most three moves) is recovered by joining the row's first Spaces+1 fields |
| `ResultRecorder.SaveResult` | chess_library.py:99-105 | the file exists afterwards; the old rows are kept as a prefix; the header is appended first when the file did not exist; the last row is the data row; one or two rows are added |
| `ResultRecorder.RowsAt` | chess_library.py:105 | the i-th data row of a series of calls is the row of the i-th call |
| `ResultRecorder.SaveAllAppends` | chess_library.py:99-105 | a series of calls only appends: the old rows, then the header once if the file did not exist, then one data row per call in order |
| `ResultRecorder.SplitEdgeCases` | chess_library.py:96 | "" splits to [""], and a double space gives an empty piece |
| `ResultRecorder.TwoMoveOpeningRow` | chess_library.py:96-105 | the opening "e2e4 e7e5" with a stalemate between Stockfish and LCZero gives the row e2e4, e7e5, "", Draw (stalemate), Stockfish, LCZero |

## Left out

- Chess rules: legal-move generation, side to move, checkmate and draw detection and UCI parsing belong to the python-chess library. They are uninterpreted parameters (`Rules`).
- Engines: the UCI process protocol and the one-second `Limit(time=1.0)` budget are external. An engine is a function from board to move. An engine that crashes or returns no move is not modelled.
- Engine moves are pushed unchecked, as in the source. Legality of the resulting history is proved only under `TrustedEngines`.
- `__init__`: random bot selection and the hard-coded engine paths are ambient randomness and environment. The bots and their names are parameters.
- `int(max_turns)`: the conversion of a non-integer argument is not modelled. `max_turns` is an integer.
- `shutdown`: quitting engines and joining threads is process and thread lifecycle.
- `display_board`, `show_all_boards` and the `*_visual` wrappers only render boards, sleep or call the base methods. `play_full_game_visual` repeats the `play_full_game` loop with rendering added.
- CSV quoting, the file path argument and real file I/O belong to the `csv` module and the operating system. The file is its `isFile` flag plus its rows.
- Logging has no behavioural effect. The log branches of `make_move` appear as `MoveReport`.
- Concrete games (a given opening, a two-kings position) depend on the chess rules, which are parameters here, and are not modelled.
