/**
 * The tic-tac-toe game-state engine: players, boards, the table of winning
 * lines, win and draw detection, and the move transition. Every operation
 * returns a fresh value; nothing is updated in place.
 */
module GameLogic {

  /** A cell mark or a winner: X, O, or nobody (the empty cell). */
  datatype Player = Null | X | O

  /** The player whose turn it is: never nobody. */
  type Mover = p: Player | p != Null witness X

  const BoardSize := 9

  /** Nine cells, row-major: 0 1 2 / 3 4 5 / 6 7 8. */
  type Board = b: seq<Player> | |b| == BoardSize
    witness [Null, Null, Null, Null, Null, Null, Null, Null, Null]

  datatype GameState = GameState(
    board: Board,
    currentPlayer: Mover,
    winner: Player,
    gameOver: bool,
    isDraw: bool)

  /** The eight index triples that win: three rows, three columns, two diagonals. */
  const WinningCombinations: seq<seq<int>> := [
    [0, 1, 2], [3, 4, 5], [6, 7, 8],
    [0, 3, 6], [1, 4, 7], [2, 5, 8],
    [0, 4, 8], [2, 4, 6]
  ]

  /** The empty board of the initial state. */
  const EmptyBoard: Board := [Null, Null, Null, Null, Null, Null, Null, Null, Null]

  function CreateInitialGameState(): (s: GameState)
    ensures forall i :: 0 <= i < |s.board| ==> s.board[i] == Null
    ensures s.currentPlayer == X && s.winner == Null
    ensures !s.gameOver && !s.isDraw
  {
    GameState(EmptyBoard, X, Null, false, false)
  }

  /**
   * Reading a cell by an arbitrary index: an index outside the board reads
   * as an empty cell, since an out-of-range read yields no mark.
   */
  function CellAt(board: Board, index: int): Player
  {
    if 0 <= index < |board| then board[index] else Null
  }

  /**
   * Every index of `line` holds `player`. For a real player this needs every
   * index of the line to lie on the board, since an outside read is empty.
   */
  predicate LineFilled(board: Board, line: seq<int>, player: Player)
    ensures player != Null && LineFilled(board, line, player) ==>
      forall j :: 0 <= j < |line| ==> 0 <= line[j] < |board| && board[line[j]] == player
  {
    forall j :: 0 <= j < |line| ==> CellAt(board, line[j]) == player
  }

  /** `player` is a real player and fills one of the winning triples. */
  predicate CheckWinner(board: Board, player: Player)
    ensures player == Null ==> !CheckWinner(board, player)
  {
    player != Null &&
    exists k :: 0 <= k < |WinningCombinations| && LineFilled(board, WinningCombinations[k], player)
  }

  /** No cell of the board is empty. */
  predicate CheckDraw(board: Board)
    ensures CheckDraw(board) <==> Null !in board
  {
    forall i :: 0 <= i < |board| ==> board[i] != Null
  }

  /** The other player. */
  function Opponent(p: Mover): (q: Mover)
    ensures q != p
  {
    if p == X then O else X
  }

  /**
   * Place the current player's mark at `index`. An occupied target, a game
   * that is already over, or an index outside 0..8 leaves the state as it is.
   */
  function MakeMove(gameState: GameState, index: int): (r: GameState)
    ensures r == gameState ||
      (0 <= index < BoardSize && gameState.board[index] == Null && !gameState.gameOver &&
       r.board == gameState.board[index := gameState.currentPlayer])
    ensures r != gameState ==>
      r.gameOver == (r.winner != Null || r.isDraw) && !(r.winner != Null && r.isDraw)
  {
    if CellAt(gameState.board, index) != Null || gameState.gameOver || index < 0 || index > 8 then
      gameState
    else
      var newBoard := gameState.board[index := gameState.currentPlayer];
      var hasWinner := CheckWinner(newBoard, gameState.currentPlayer);
      var isDraw := !hasWinner && CheckDraw(newBoard);
      GameState(
        newBoard,
        if hasWinner || isDraw then gameState.currentPlayer else Opponent(gameState.currentPlayer),
        if hasWinner then gameState.currentPlayer else Null,
        hasWinner || isDraw,
        isDraw)
  }

  function ResetGame(): (s: GameState)
    ensures s == CreateInitialGameState()
  {
    CreateInitialGameState()
  }
}
