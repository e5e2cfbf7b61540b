/**
 * Properties of the engine: the winning table read as grid geometry, draw as
 * a count of marks, what an accepted or rejected move does, and the
 * invariant every state reachable by play keeps.
 */
module GameProperties {
  import opened GameLogic

  // ---------------------------------------------------------------------
  // The winning table

  /** The table has eight triples of distinct in-board indices. */
  lemma WinningCombinationsShape()
    ensures |WinningCombinations| == 8
    ensures forall k :: 0 <= k < |WinningCombinations| ==>
      |WinningCombinations[k]| == 3 &&
      (forall j :: 0 <= j < 3 ==> 0 <= WinningCombinations[k][j] < BoardSize) &&
      WinningCombinations[k][0] != WinningCombinations[k][1] &&
      WinningCombinations[k][1] != WinningCombinations[k][2] &&
      WinningCombinations[k][0] != WinningCombinations[k][2]
  {
  }

  /** All three cells of the triple a, b, c hold p. */
  predicate Triple(board: Board, p: Player, a: nat, b: nat, c: nat)
    requires a < BoardSize && b < BoardSize && c < BoardSize
  {
    board[a] == p && board[b] == p && board[c] == p
  }

  lemma LineFilledTriple(board: Board, k: int, p: Player)
    requires 0 <= k < |WinningCombinations|
    ensures LineFilled(board, WinningCombinations[k], p) <==>
      Triple(board, p, WinningCombinations[k][0], WinningCombinations[k][1], WinningCombinations[k][2])
  {
  }

  /**
   * checkWinner, written out: a real player fills one of the eight triples
   * of the table.
   */
  lemma CheckWinnerTriples(board: Board, p: Player)
    ensures CheckWinner(board, p) <==>
      (p != Null && (
        Triple(board, p, 0, 1, 2) || Triple(board, p, 3, 4, 5) || Triple(board, p, 6, 7, 8) ||
        Triple(board, p, 0, 3, 6) || Triple(board, p, 1, 4, 7) || Triple(board, p, 2, 5, 8) ||
        Triple(board, p, 0, 4, 8) || Triple(board, p, 2, 4, 6)))
  {
    forall k | 0 <= k < |WinningCombinations| {
      LineFilledTriple(board, k, p);
    }
    assert WinningCombinations[0] == [0, 1, 2];
    assert WinningCombinations[1] == [3, 4, 5];
    assert WinningCombinations[2] == [6, 7, 8];
    assert WinningCombinations[3] == [0, 3, 6];
    assert WinningCombinations[4] == [1, 4, 7];
    assert WinningCombinations[5] == [2, 5, 8];
    assert WinningCombinations[6] == [0, 4, 8];
    assert WinningCombinations[7] == [2, 4, 6];
    if CheckWinner(board, p) {
      var k :| 0 <= k < |WinningCombinations| && LineFilled(board, WinningCombinations[k], p);
      assert k in {0, 1, 2, 3, 4, 5, 6, 7};
    }
  }

  // Grid geometry: cell (r, c) of the 3x3 grid is index 3 * r + c.

  function At(board: Board, r: int, c: int): (cell: Player)
    requires 0 <= r < 3 && 0 <= c < 3
  {
    board[3 * r + c]
  }

  ghost predicate RowFilled(board: Board, p: Player, r: int)
    requires 0 <= r < 3
  {
    forall c :: 0 <= c < 3 ==> At(board, r, c) == p
  }

  ghost predicate ColumnFilled(board: Board, p: Player, c: int)
    requires 0 <= c < 3
  {
    forall r :: 0 <= r < 3 ==> At(board, r, c) == p
  }

  ghost predicate MainDiagonalFilled(board: Board, p: Player)
  {
    forall r, c :: 0 <= r < 3 && 0 <= c < 3 && r == c ==> At(board, r, c) == p
  }

  ghost predicate AntiDiagonalFilled(board: Board, p: Player)
  {
    forall r, c :: 0 <= r < 3 && 0 <= c < 3 && r + c == 2 ==> At(board, r, c) == p
  }

  /** p holds a full row, a full column or a full diagonal of the grid. */
  ghost predicate HasLine(board: Board, p: Player)
  {
    (exists r :: 0 <= r < 3 && RowFilled(board, p, r)) ||
    (exists c :: 0 <= c < 3 && ColumnFilled(board, p, c)) ||
    MainDiagonalFilled(board, p) || AntiDiagonalFilled(board, p)
  }

  lemma RowFilledTriple(board: Board, p: Player, r: int)
    requires 0 <= r < 3
    ensures RowFilled(board, p, r) <==> Triple(board, p, 3 * r, 3 * r + 1, 3 * r + 2)
  {
    if Triple(board, p, 3 * r, 3 * r + 1, 3 * r + 2) {
      forall c | 0 <= c < 3 ensures At(board, r, c) == p {
        assert c == 0 || c == 1 || c == 2;
      }
    } else {
      assert At(board, r, 0) != p || At(board, r, 1) != p || At(board, r, 2) != p;
    }
  }

  lemma ColumnFilledTriple(board: Board, p: Player, c: int)
    requires 0 <= c < 3
    ensures ColumnFilled(board, p, c) <==> Triple(board, p, c, 3 + c, 6 + c)
  {
    if Triple(board, p, c, 3 + c, 6 + c) {
      forall r | 0 <= r < 3 ensures At(board, r, c) == p {
        assert r == 0 || r == 1 || r == 2;
      }
    } else {
      assert At(board, 0, c) != p || At(board, 1, c) != p || At(board, 2, c) != p;
    }
  }

  lemma DiagonalsTriple(board: Board, p: Player)
    ensures MainDiagonalFilled(board, p) <==> Triple(board, p, 0, 4, 8)
    ensures AntiDiagonalFilled(board, p) <==> Triple(board, p, 2, 4, 6)
  {
    if Triple(board, p, 0, 4, 8) {
      forall r, c | 0 <= r < 3 && 0 <= c < 3 && r == c ensures At(board, r, c) == p {
        assert r == 0 || r == 1 || r == 2;
      }
    } else {
      assert At(board, 0, 0) != p || At(board, 1, 1) != p || At(board, 2, 2) != p;
    }
    if Triple(board, p, 2, 4, 6) {
      forall r, c | 0 <= r < 3 && 0 <= c < 3 && r + c == 2 ensures At(board, r, c) == p {
        assert r == 0 || r == 1 || r == 2;
      }
    } else {
      assert At(board, 0, 2) != p || At(board, 1, 1) != p || At(board, 2, 0) != p;
    }
  }

  /**
   * The table is exactly the lines of the grid: checkWinner holds iff a real
   * player owns a full row, column or diagonal.
   */
  lemma CheckWinnerIsGridLine(board: Board, p: Player)
    ensures CheckWinner(board, p) <==> p != Null && HasLine(board, p)
  {
    CheckWinnerTriples(board, p);
    RowFilledTriple(board, p, 0);
    RowFilledTriple(board, p, 1);
    RowFilledTriple(board, p, 2);
    ColumnFilledTriple(board, p, 0);
    ColumnFilledTriple(board, p, 1);
    ColumnFilledTriple(board, p, 2);
    DiagonalsTriple(board, p);
    if exists r :: 0 <= r < 3 && RowFilled(board, p, r) {
      var r :| 0 <= r < 3 && RowFilled(board, p, r);
      assert r == 0 || r == 1 || r == 2;
    }
    if exists c :: 0 <= c < 3 && ColumnFilled(board, p, c) {
      var c :| 0 <= c < 3 && ColumnFilled(board, p, c);
      assert c == 0 || c == 1 || c == 2;
    }
  }


  /** A real player who owns every cell of any one triple wins. */
  lemma FilledTripleWins(board: Board, p: Player, k: int)
    requires p != Null && 0 <= k < |WinningCombinations|
    requires forall j :: 0 <= j < |WinningCombinations[k]| ==> board[WinningCombinations[k][j]] == p
    ensures CheckWinner(board, p)
  {
    WinningCombinationsShape();
    assert LineFilled(board, WinningCombinations[k], p);
  }

  /** A player with no mark on the board owns no line. */
  lemma AbsentPlayerCannotWin(board: Board, p: Player)
    requires p !in board
    ensures !CheckWinner(board, p)
  {
    WinningCombinationsShape();
  }

  // ---------------------------------------------------------------------
  // Counting marks

  /** How many cells of s hold m. */
  function Count(s: seq<Player>, m: Player): (n: nat)
    ensures n <= |s|
    ensures n == 0 <==> m !in s
    ensures n == |s| <==> forall i :: 0 <= i < |s| ==> s[i] == m
  {
    if s == [] then 0 else (if s[0] == m then 1 else 0) + Count(s[1..], m)
  }

  /** Number of marked cells. */
  function Filled(s: seq<Player>): (n: nat)
  {
    Count(s, X) + Count(s, O)
  }

  lemma {:induction false} CountPartition(s: seq<Player>)
    ensures Count(s, Null) + Count(s, X) + Count(s, O) == |s|
  {
    if s != [] {
      CountPartition(s[1..]);
    }
  }

  lemma {:induction false} CountUpdate(s: seq<Player>, i: int, v: Player, m: Player)
    requires 0 <= i < |s|
    ensures Count(s[i := v], m) ==
      Count(s, m) - (if s[i] == m then 1 else 0) + (if v == m then 1 else 0)
  {
    if i == 0 {
      assert s[i := v][1..] == s[1..];
    } else {
      assert s[i := v][1..] == s[1..][i - 1 := v];
      CountUpdate(s[1..], i - 1, v, m);
    }
  }

  /** checkDraw holds iff all nine cells carry a mark, whoever has won. */
  lemma CheckDrawIffNineMarks(board: Board)
    ensures CheckDraw(board) <==> Filled(board) == BoardSize
  {
    CountPartition(board);
  }

  // ---------------------------------------------------------------------
  // One move

  /** The move is taken: a cell inside the board, empty, in a running game. */
  predicate Accepts(s: GameState, index: int)
  {
    0 <= index < BoardSize && s.board[index] == Null && !s.gameOver
  }

  /** Out of range, occupied or after the end: the state comes back unchanged. */
  lemma RejectedMoveIsNoOp(s: GameState, index: int)
    requires !Accepts(s, index)
    ensures MakeMove(s, index) == s
  {
  }

  /** A move changes the state exactly when it is accepted. */
  lemma MakeMoveChangesIffAccepted(s: GameState, index: int)
    ensures MakeMove(s, index) != s <==> Accepts(s, index)
  {
  }

  /** A finished game ignores a move at any index. */
  lemma TerminalAbsorbsMove(s: GameState, index: int)
    requires s.gameOver
    ensures MakeMove(s, index) == s
  {
  }

  /**
   * An accepted move marks exactly the target cell with the mover's mark:
   * every other cell is as before and one more cell is filled.
   */
  lemma AcceptedMoveBoard(s: GameState, index: int)
    requires Accepts(s, index)
    ensures var r := MakeMove(s, index);
      r.board[index] == s.currentPlayer &&
      (forall j :: 0 <= j < BoardSize && j != index ==> r.board[j] == s.board[j]) &&
      Filled(r.board) == Filled(s.board) + 1
  {
    var b := s.board[index := s.currentPlayer];
    CountUpdate(s.board, index, s.currentPlayer, X);
    CountUpdate(s.board, index, s.currentPlayer, O);
  }

  /** The outcome flags of an accepted move. */
  lemma AcceptedMoveOutcome(s: GameState, index: int)
    requires Accepts(s, index)
    ensures var r := MakeMove(s, index);
      (r.winner == s.currentPlayer <==> CheckWinner(r.board, s.currentPlayer)) &&
      (r.winner == Null <==> !CheckWinner(r.board, s.currentPlayer)) &&
      (r.isDraw <==> !CheckWinner(r.board, s.currentPlayer) && Filled(r.board) == BoardSize) &&
      r.gameOver == (r.winner != Null || r.isDraw) &&
      !(r.winner != Null && r.isDraw)
  {
    CheckDrawIffNineMarks(MakeMove(s, index).board);
  }

  /** The turn passes to the opponent only while the game goes on. */
  lemma AcceptedMoveTurn(s: GameState, index: int)
    requires Accepts(s, index)
    ensures var r := MakeMove(s, index);
      (r.gameOver ==> r.currentPlayer == s.currentPlayer) &&
      (!r.gameOver ==> r.currentPlayer == Opponent(s.currentPlayer))
  {
  }

  /** Placing p on an empty cell can never complete a line for anyone but p. */
  lemma OnlyMoverCanWin(board: Board, index: int, p: Mover, q: Player)
    requires 0 <= index < BoardSize && board[index] == Null && q != p
    requires !CheckWinner(board, q)
    ensures !CheckWinner(board[index := p], q)
  {
  }

  // ---------------------------------------------------------------------
  // Sequences of moves

  /** The state after feeding the moves to the engine one after another. */
  function Play(s: GameState, moves: seq<int>): (r: GameState)
    decreases |moves|
  {
    if moves == [] then s else Play(MakeMove(s, moves[0]), moves[1..])
  }

  /** A list of states, each one move after the previous, is what Play computes. */
  lemma {:induction false} PlayThrough(states: seq<GameState>, moves: seq<int>)
    requires |states| == |moves| + 1
    requires forall k :: 0 <= k < |moves| ==> MakeMove(states[k], moves[k]) == states[k + 1]
    ensures Play(states[0], moves) == states[|moves|]
    decreases |moves|
  {
    if moves != [] {
      PlayThrough(states[1..], moves[1..]);
    }
  }

  /** A finished game stays finished, whatever moves follow. */
  lemma {:induction false} TerminalAbsorbsPlay(s: GameState, moves: seq<int>)
    requires s.gameOver
    decreases |moves|
    ensures Play(s, moves) == s
  {
    if moves != [] {
      TerminalAbsorbsPlay(MakeMove(s, moves[0]), moves[1..]);
    }
  }

  /** Every marked cell keeps its mark: cells are set, never cleared. */
  lemma {:induction false} PlayKeepsMarks(s: GameState, moves: seq<int>)
    decreases |moves|
    ensures forall i :: 0 <= i < BoardSize && s.board[i] != Null ==>
      Play(s, moves).board[i] == s.board[i]
  {
    if moves != [] {
      var s1 := MakeMove(s, moves[0]);
      PlayKeepsMarks(s1, moves[1..]);
      if Accepts(s, moves[0]) {
        AcceptedMoveBoard(s, moves[0]);
      }
    }
  }

  // ---------------------------------------------------------------------
  // The invariant of play

  /**
   * What holds of every state reached from the initial one: the flags agree
   * with the board, at most one of win and draw, nobody has a line while the
   * game runs, X has as many marks as O or one more, and the player to move
   * (or who moved last, once over) matches the counts.
   */
  ghost predicate Consistent(s: GameState)
  {
    var cx := Count(s.board, X);
    var co := Count(s.board, O);
    && s.gameOver == (s.winner != Null || s.isDraw)
    && !(s.winner != Null && s.isDraw)
    && (s.winner != Null ==>
          s.winner == s.currentPlayer && CheckWinner(s.board, s.winner) &&
          !CheckWinner(s.board, Opponent(s.currentPlayer)))
    && (s.isDraw ==> CheckDraw(s.board) && !CheckWinner(s.board, X) && !CheckWinner(s.board, O))
    && (!s.gameOver ==> !CheckWinner(s.board, X) && !CheckWinner(s.board, O) && !CheckDraw(s.board))
    && (cx == co || cx == co + 1)
    && (s.currentPlayer == X <==> (if s.gameOver then cx == co + 1 else cx == co))
  }

  lemma InitialIsConsistent()
    ensures Consistent(CreateInitialGameState())
    ensures Filled(CreateInitialGameState().board) == 0
  {
    var b := CreateInitialGameState().board;
    assert X !in b && O !in b;
    AbsentPlayerCannotWin(b, X);
    AbsentPlayerCannotWin(b, O);
    assert b[0] == Null;
  }

  lemma MakeMovePreservesConsistent(s: GameState, index: int)
    requires Consistent(s)
    ensures Consistent(MakeMove(s, index))
  {
    if Accepts(s, index) {
      var p := s.currentPlayer;
      var q := Opponent(p);
      var nb := s.board[index := p];
      assert !CheckWinner(s.board, q) by {
        assert q == X || q == O;
      }
      OnlyMoverCanWin(s.board, index, p, q);
      CountUpdate(s.board, index, p, X);
      CountUpdate(s.board, index, p, O);
      assert q == X || q == O;
    }
  }

  lemma {:induction false} PlayPreservesConsistent(s: GameState, moves: seq<int>)
    requires Consistent(s)
    decreases |moves|
    ensures Consistent(Play(s, moves))
  {
    if moves != [] {
      MakeMovePreservesConsistent(s, moves[0]);
      PlayPreservesConsistent(MakeMove(s, moves[0]), moves[1..]);
    }
  }

  /**
   * In every game played from the start: exactly one of win, draw or
   * neither, the game is over exactly when one of the first two holds,
   * a win belongs to the last mover, and the two players never both own
   * a line.
   */
  lemma ReachableStates(moves: seq<int>)
    ensures var r := Play(CreateInitialGameState(), moves);
      r.gameOver == (r.winner != Null || r.isDraw) &&
      !(r.winner != Null && r.isDraw) &&
      (r.winner != Null ==> r.winner == r.currentPlayer && CheckWinner(r.board, r.winner)) &&
      (r.isDraw ==> CheckDraw(r.board)) &&
      !(CheckWinner(r.board, X) && CheckWinner(r.board, O))
  {
    InitialIsConsistent();
    var r := Play(CreateInitialGameState(), moves);
    PlayPreservesConsistent(CreateInitialGameState(), moves);
    assert r.currentPlayer == X || r.currentPlayer == O;
  }
}
