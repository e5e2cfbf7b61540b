# Tic-tac-toe game-state engine

A model, in Dafny, of the game-state engine of a browser tic-tac-toe game
(`src/lib/game-logic.ts`). The engine is pure. A state holds a board of nine
cells in row-major order (each X, O or empty), the player to move, the winner
(X, O or nobody) and two flags: `gameOver` and `isDraw`. A move at an index
either comes back unchanged or yields a fresh state. It comes back unchanged
when the index is outside 0..8, the cell is taken, or the game is over.
Otherwise the current player's mark goes on that cell. Then the engine looks
for a completed line, checks whether the board is full, and passes the turn
only while the game goes on. Reset yields the initial state again.

Files:

- `game_logic.dfy`, module `GameLogic`: the types, the winning table and the
  engine's functions. `Player` has the cases `Null | X | O`, as the source's
  nullable player type does. `Mover` is the non-null subset used for
  `currentPlayer`. `Board` is a `seq<Player>` of length 9. `GameState` is a
  datatype. `WinningCombinations` is the constant table of eight triples. The
  five exported operations are `CreateInitialGameState`, `CheckWinner`,
  `CheckDraw`, `MakeMove` and `ResetGame`. Three helpers stand for
  expressions inside them:
  - `CellAt` is an indexed read of the board;
  - `LineFilled` is the inner "every index of the triple" test of `checkWinner`;
  - `Opponent` is the X/O swap of `makeMove`.
- `game_properties.dfy`, module `GameProperties`: definitions to check the
  engine against and the lemmas that relate them.
  - The winning table read as the rows, columns and diagonals of a 3x3 grid.
  - Mark counts.
  - What an accepted and a rejected move do.
  - `Play`, which feeds a list of moves to the engine one after another. It
    stands for the page that keeps the latest state.
  - `Consistent`, an invariant that every state reached by play keeps.
- `game_scenarios.dfy`, module `GameScenarios`: the concrete boards and move
  sequences of the unit tests and UI tests, replayed against the model. Two
  of its lemmas come from no test: `FullBoardWithLine` and
  `NineMoveDiagonalWin`. They pin down how the draw check and the win check
  interact.

Modelling decisions:

- JavaScript reads an index outside the array as `undefined`, which is falsy.
  `CellAt` models this by reading such an index as an empty cell. The
  rejection guard in `MakeMove` tests its conditions in the source's order:
  occupied, then game over, then out of range.
- Every one-move lemma holds for every 9-cell board and every flag
  combination, not only for states reached by play. These lemmas are
  `RejectedMoveIsNoOp`, `MakeMoveChangesIffAccepted`, `TerminalAbsorbsMove`,
  `AcceptedMoveBoard`, `AcceptedMoveOutcome`, `AcceptedMoveTurn` and
  `OnlyMoverCanWin`. The unit tests assign whole boards directly. The
  invariant lemmas (`MakeMovePreservesConsistent`, `PlayPreservesConsistent`,
  `ReachableStates`) are about consistent or reachable states only.
- "Unchanged" means value equality of the returned state.
- The moves 0, 1, 2, 3, 4, 6, 5, 7, 8 end in a win for X on the diagonal
  0-4-8 and the column 2-5-8, not in a draw. X's last move both fills the
  board and completes both lines. The win check runs first, so the win takes
  precedence
  (`GameScenarios.NineMoveDiagonalWin`).
- The moves 0, 1, 2, played by X, O, X, give no line, because X and O share
  the top row (`GameScenarios.SharedTopRowNoWin`).

## Model

| member | source | states |
|---|---|---|
| `GameLogic.CreateInitialGameState` | src/lib/game-logic.ts:24-32 | all nine cells are empty, X is to move, there is no winner, and the game is neither over nor drawn |
| `GameLogic.ResetGame` | src/lib/game-logic.ts:67-69 | reset gives exactly the initial state |
| `GameProperties.InitialIsConsistent` | src/lib/game-logic.ts:24-32 | the initial state satisfies the play invariant `Consistent` and has no marked cell |
| `GameLogic.CheckWinner` | src/lib/game-logic.ts:34-35 | nobody (the null player) never wins, on any board |
| `GameLogic.CheckDraw` | src/lib/game-logic.ts:42-44 | true exactly when no cell of the board is empty |
| `GameLogic.LineFilled` | src/lib/game-logic.ts:37-39 | if a real player fills a line, every index of that line lies on the board and holds the player's mark |
| `GameLogic.MakeMove` | src/lib/game-logic.ts:46-65 | either the state comes back unchanged, or the index was in 0..8 on an empty cell of a running game and the new board is the old one with the mover's mark there; a changed state has `gameOver` exactly when there is a winner or a draw, never both. The full contract is stated by `RejectedMoveIsNoOp`, `AcceptedMoveBoard`, `AcceptedMoveOutcome` and `AcceptedMoveTurn` |
| `GameLogic.Opponent` | src/lib/game-logic.ts:60 | the player who takes the next turn is never the one who just moved |
| `GameProperties.WinningCombinationsShape` | src/lib/game-logic.ts:13-22 | the table has 8 entries, and each is a triple of distinct indices inside the board |
| `GameProperties.CheckWinnerTriples` | src/lib/game-logic.ts:34-40 | a player wins iff it is not null and holds all three cells of one of: 0-1-2, 3-4-5, 6-7-8, 0-3-6, 1-4-7, 2-5-8, 0-4-8, 2-4-6 |
| `GameProperties.CheckWinnerIsGridLine` | src/lib/game-logic.ts:13-40 | a player wins iff it is not null and owns a full row, a full column or a full diagonal of the 3x3 grid, defined by coordinates independently of the table |
| `GameProperties.FilledTripleWins` | src/lib/game-logic.ts:37-39 | a non-null player who holds every index of any entry of the table wins, whatever the other cells hold |
| `GameProperties.AbsentPlayerCannotWin` | src/lib/game-logic.ts:37-39 | a player with no mark on the board does not win |
| `GameProperties.CheckDrawIffNineMarks` | src/lib/game-logic.ts:42-44 | the board counts as full iff X's and O's marks add up to nine, whether or not anyone has won |
| `GameProperties.RejectedMoveIsNoOp` | src/lib/game-logic.ts:47-50 | a move at an index outside 0..8, on an occupied cell, or in a finished game returns the input state unchanged |
| `GameProperties.MakeMoveChangesIffAccepted` | src/lib/game-logic.ts:46-65 | a move changes the state if and only if the index is in 0..8, the cell is empty and the game is not over |
| `GameProperties.TerminalAbsorbsMove` | src/lib/game-logic.ts:48 | a state with `gameOver` set is returned unchanged by a move at any index |
| `GameProperties.TerminalAbsorbsPlay` | src/lib/game-logic.ts:48 | any sequence of further moves leaves a finished game unchanged |
| `GameProperties.AcceptedMoveBoard` | src/lib/game-logic.ts:52-53 | an accepted move puts the mover's mark at the index, leaves all other cells as they were, and fills exactly one more cell |
| `GameProperties.AcceptedMoveOutcome` | src/lib/game-logic.ts:55-63 | after an accepted move: the winner is the mover iff the mover completed a line, and nobody otherwise; the draw flag is set iff there is no such line and all nine cells are marked; the game is over iff there is a winner or a draw; winner and draw are never both set |
| `GameProperties.AcceptedMoveTurn` | src/lib/game-logic.ts:60 | after an accepted move the turn stays with the mover if the game ended and passes to the opponent otherwise |
| `GameProperties.OnlyMoverCanWin` | src/lib/game-logic.ts:52-55 | placing a mark on an empty cell cannot complete a line for anyone but the player who placed it |
| `GameProperties.PlayKeepsMarks` | src/lib/game-logic.ts:46-65 | over any sequence of moves a marked cell keeps its mark: cells are set, never cleared |
| `GameProperties.PlayThrough` | src/lib/game-logic.ts:46-65 | a list of states, each one move after the previous, ends at the state that playing the moves in turn produces |
| `GameProperties.MakeMovePreservesConsistent` | src/lib/game-logic.ts:46-65 | every move, accepted or not, preserves `Consistent`. `Consistent` says: the flags agree with the board; win and draw are exclusive; a winner is the last mover and the opponent has no line; nobody has a line and the board is not full while the game runs; X has as many marks as O or one more; the player to move matches those counts |
| `GameProperties.PlayPreservesConsistent` | src/lib/game-logic.ts:46-65 | `Consistent` holds after any sequence of moves from a consistent state |
| `GameProperties.ReachableStates` | src/lib/game-logic.ts:55-63 | in every state reached from the start, exactly one of win, draw or neither holds; the game is over iff win or draw; a winner owns a line and keeps the turn; a draw has a full board; X and O never both own a line |
| `GameScenarios.FirstMove` | src/lib/game-logic.test.ts:101-108 | X's opening move on cell 0 marks it, passes the turn to O and does not end the game |
| `GameScenarios.PlayersAlternate` | src/lib/game-logic.test.ts:111-119 | after moves on 0 and 1 the player to move is O and then X |
| `GameScenarios.OccupiedCellRejected` | src/lib/game-logic.test.ts:121-128 | playing again on the cell X just took returns the state unchanged |
| `GameScenarios.WinThenMoveRejected` | src/lib/game-logic.test.ts:130-153 | X completing the top row on an assigned board wins, the game is over without a draw, and a further move at 3 is ignored |
| `GameScenarios.LastCellDraw` | src/lib/game-logic.test.ts:155-166 | O filling the last cell of the assigned board with no line gives a draw, game over, no winner |
| `GameScenarios.OutOfRangeRejected` | src/lib/game-logic.test.ts:168-174 | moves at -1, 9 and 10 return the initial state unchanged |
| `GameScenarios.NoFalseWin` | src/lib/game-logic.test.ts:76-97 | the full board X O X / O X O / O X O has no line for X or for O and counts as full |
| `GameScenarios.FullBoardWithLine` | src/lib/game-logic.ts:42-44 | a full board on which X has a line counts as full, so the draw check alone does not rule out a win |
| `GameScenarios.TopRowWin` | src/integration.test.ts:145-152 | the moves 0, 3, 1, 4, 2 end with X winning on the top row |
| `GameScenarios.SevenMoveDiagonalWin` | src/integration.test.ts:6-62 | the moves 0, 1, 2, 3, 4, 5, 8 end with X winning on the diagonal 0, 4, 8 |
| `GameScenarios.NineMoveDraw` | src/routes/+page.test.ts:109-126 | the moves 3, 0, 4, 2, 6, 5, 8, 7, 1 fill the board with no line: draw, game over, no winner |
| `GameScenarios.NineMoveDiagonalWin` | src/lib/game-logic.ts:55-63 | the moves 0, 1, 2, 3, 4, 6, 5, 7, 8 end in a win for X on the diagonal 0-4-8 and the column 2-5-8, not in a draw: a win found on the last cell takes precedence over the full board |
| `GameScenarios.SharedTopRowNoWin` | src/integration.test.ts:19-33 | the moves 0, 1, 2 (X, O, X) complete no line: no winner, game running, O to move |

## Left out

- Indices that are not integers (`1.5`, `NaN`): the index is modelled as an unbounded integer.
- Boards whose length is not 9: the `Board` type fixes the length at 9.
- Object identity of the returned state: a rejected move is modelled as returning an equal value.
- The Svelte page in `src/routes/+page.svelte` is not part of this model: rendering, disabled buttons, CSS classes and click events. It is replaced by `Play`, which feeds moves to the engine one after another, as the page does.
- `src/test-setup.ts` (browser mocks) and `vite.config.ts` (build configuration) contain no logic.
