/**
 * Concrete games: the move sequences the unit and UI tests play, replayed
 * against the engine.
 */
module GameScenarios {
  import opened GameLogic
  import opened GameProperties

  /** Short name for the empty cell, so that the literal boards below line up. */
  const N := Null

  /** X opens in the corner: X is now on cell 0, O to move, the game runs. */
  lemma FirstMove()
    ensures var s := MakeMove(CreateInitialGameState(), 0);
      s.board[0] == X && s.currentPlayer == O && !s.gameOver && s.winner == Null
  {
    var s0 := GameState([N, N, N, N, N, N, N, N, N], X, Null, false, false);
    assert CreateInitialGameState() == s0;
    var s1 := GameState([X, N, N, N, N, N, N, N, N], O, Null, false, false);
    assert MakeMove(s0, 0) == s1 by {
      CheckWinnerTriples(s1.board, X);
      assert s1.board[1] == Null;
      assert s0.board[0 := X] == s1.board;
    }
  }

  /** Two accepted moves hand the turn to O and back to X. */
  lemma PlayersAlternate()
    ensures MakeMove(CreateInitialGameState(), 0).currentPlayer == O
    ensures MakeMove(MakeMove(CreateInitialGameState(), 0), 1).currentPlayer == X
  {
    var s0 := GameState([N, N, N, N, N, N, N, N, N], X, Null, false, false);
    assert CreateInitialGameState() == s0;
    var s1 := GameState([X, N, N, N, N, N, N, N, N], O, Null, false, false);
    assert MakeMove(s0, 0) == s1 by {
      CheckWinnerTriples(s1.board, X);
      assert s1.board[1] == Null;
      assert s0.board[0 := X] == s1.board;
    }
    var s2 := GameState([X, O, N, N, N, N, N, N, N], X, Null, false, false);
    assert MakeMove(s1, 1) == s2 by {
      CheckWinnerTriples(s2.board, O);
      assert s2.board[2] == Null;
      assert s1.board[1 := O] == s2.board;
    }
  }

  /** Playing on the cell X just took changes nothing. */
  lemma OccupiedCellRejected()
    ensures var s := MakeMove(CreateInitialGameState(), 0);
      MakeMove(s, 0) == s
  {
  }

  /** O cannot play after X completes the top row. */
  lemma WinThenMoveRejected()
    ensures var s := GameState([X, X, N, N, N, N, N, N, N], X, Null, false, false);
      var t := MakeMove(s, 2);
      t.winner == X && t.gameOver && !t.isDraw && MakeMove(t, 3) == t
  {
    CheckWinnerTriples([X, X, X, N, N, N, N, N, N], X);
  }

  /** O fills the last cell without a line: a draw with no winner. */
  lemma LastCellDraw()
    ensures var s := GameState([X, O, X, O, X, O, O, X, N], O, Null, false, false);
      var t := MakeMove(s, 8);
      t.isDraw && t.gameOver && t.winner == Null
  {
    CheckWinnerTriples([X, O, X, O, X, O, O, X, O], O);
  }

  /** Indices -1, 9 and 10 are ignored. */
  lemma OutOfRangeRejected()
    ensures MakeMove(CreateInitialGameState(), -1) == CreateInitialGameState()
    ensures MakeMove(CreateInitialGameState(), 9) == CreateInitialGameState()
    ensures MakeMove(CreateInitialGameState(), 10) == CreateInitialGameState()
  {
  }

  /** A full board that also has a line counts as full for checkDraw. */
  lemma FullBoardWithLine()
    ensures CheckDraw([X, X, X, O, O, X, X, O, O])
    ensures CheckWinner([X, X, X, O, O, X, X, O, O], X)
  {
    CheckWinnerTriples([X, X, X, O, O, X, X, O, O], X);
  }

  /** The board of the "no false wins" test has no line for either player. */
  lemma NoFalseWin()
    ensures !CheckWinner([X, O, X, O, X, O, O, X, O], X)
    ensures !CheckWinner([X, O, X, O, X, O, O, X, O], O)
    ensures CheckDraw([X, O, X, O, X, O, O, X, O])
  {
    CheckWinnerTriples([X, O, X, O, X, O, O, X, O], X);
    CheckWinnerTriples([X, O, X, O, X, O, O, X, O], O);
  }

  // One accepted move, by where it leads.

  /** The move neither wins nor fills the board: the opponent is to move. */
  lemma ContinuesTo(s: GameState, index: int, t: GameState)
    requires Accepts(s, index)
    requires t.board == s.board[index := s.currentPlayer]
    requires !CheckWinner(t.board, s.currentPlayer) && Null in t.board
    requires t.currentPlayer == Opponent(s.currentPlayer) && t.winner == Null && !t.gameOver && !t.isDraw
    ensures MakeMove(s, index) == t
  {
  }

  /** The move completes a line: the mover wins and keeps the turn. */
  lemma WinsTo(s: GameState, index: int, t: GameState)
    requires Accepts(s, index)
    requires t.board == s.board[index := s.currentPlayer]
    requires CheckWinner(t.board, s.currentPlayer)
    requires t.currentPlayer == s.currentPlayer && t.winner == s.currentPlayer && t.gameOver && !t.isDraw
    ensures MakeMove(s, index) == t
  {
  }

  /** The move fills the last cell without a line: a draw. */
  lemma DrawsTo(s: GameState, index: int, t: GameState)
    requires Accepts(s, index)
    requires t.board == s.board[index := s.currentPlayer]
    requires !CheckWinner(t.board, s.currentPlayer) && Null !in t.board
    requires t.currentPlayer == s.currentPlayer && t.winner == Null && t.gameOver && t.isDraw
    ensures MakeMove(s, index) == t
  {
  }

  /** The states of the game 0, 3, 1, 4, 2, one per move. */
  const TopRowWinStates: seq<GameState> := [
    GameState([N, N, N, N, N, N, N, N, N], X, Null, false, false),
    GameState([X, N, N, N, N, N, N, N, N], O, Null, false, false),
    GameState([X, N, N, O, N, N, N, N, N], X, Null, false, false),
    GameState([X, X, N, O, N, N, N, N, N], O, Null, false, false),
    GameState([X, X, N, O, O, N, N, N, N], X, Null, false, false),
    GameState([X, X, X, O, O, N, N, N, N], X, X, true, false)]

  const TopRowWinMoves: seq<int> := [0, 3, 1, 4, 2]

  lemma TopRowWinSteps0To3(k: int)
    requires 0 <= k < 3
    ensures MakeMove(TopRowWinStates[k], TopRowWinMoves[k]) == TopRowWinStates[k + 1]
  {
    var s, t := TopRowWinStates[k], TopRowWinStates[k + 1];
    CheckWinnerTriples(t.board, s.currentPlayer);
    if k == 0 {
      ContinuesTo(s, 0, t);
    } else if k == 1 {
      ContinuesTo(s, 3, t);
    } else {
      ContinuesTo(s, 1, t);
    }
  }

  lemma TopRowWinSteps3To5(k: int)
    requires 3 <= k < 5
    ensures MakeMove(TopRowWinStates[k], TopRowWinMoves[k]) == TopRowWinStates[k + 1]
  {
    var s, t := TopRowWinStates[k], TopRowWinStates[k + 1];
    CheckWinnerTriples(t.board, s.currentPlayer);
    if k == 3 {
      ContinuesTo(s, 4, t);
    } else {
      WinsTo(s, 2, t);
    }
  }

  /** X takes 0, 1, 2 while O takes 3, 4: X wins on the top row. */
  lemma TopRowWin()
    ensures var t := Play(CreateInitialGameState(), [0, 3, 1, 4, 2]);
      t.board == [X, X, X, O, O, N, N, N, N] && t.winner == X && t.gameOver && !t.isDraw
  {
    forall k | 0 <= k < |TopRowWinMoves|
      ensures MakeMove(TopRowWinStates[k], TopRowWinMoves[k]) == TopRowWinStates[k + 1]
    {
      if k < 3 { TopRowWinSteps0To3(k); }
      else { TopRowWinSteps3To5(k); }
    }
    assert TopRowWinStates[0] == CreateInitialGameState();
    PlayThrough(TopRowWinStates, TopRowWinMoves);
  }

  /** The states of the game 3, 0, 4, 2, 6, 5, 8, 7, 1, one per move. */
  const NineMoveDrawStates: seq<GameState> := [
    GameState([N, N, N, N, N, N, N, N, N], X, Null, false, false),
    GameState([N, N, N, X, N, N, N, N, N], O, Null, false, false),
    GameState([O, N, N, X, N, N, N, N, N], X, Null, false, false),
    GameState([O, N, N, X, X, N, N, N, N], O, Null, false, false),
    GameState([O, N, O, X, X, N, N, N, N], X, Null, false, false),
    GameState([O, N, O, X, X, N, X, N, N], O, Null, false, false),
    GameState([O, N, O, X, X, O, X, N, N], X, Null, false, false),
    GameState([O, N, O, X, X, O, X, N, X], O, Null, false, false),
    GameState([O, N, O, X, X, O, X, O, X], X, Null, false, false),
    GameState([O, X, O, X, X, O, X, O, X], X, Null, true, true)]

  const NineMoveDrawMoves: seq<int> := [3, 0, 4, 2, 6, 5, 8, 7, 1]

  lemma NineMoveDrawSteps0To3(k: int)
    requires 0 <= k < 3
    ensures MakeMove(NineMoveDrawStates[k], NineMoveDrawMoves[k]) == NineMoveDrawStates[k + 1]
  {
    var s, t := NineMoveDrawStates[k], NineMoveDrawStates[k + 1];
    CheckWinnerTriples(t.board, s.currentPlayer);
    if k == 0 {
      ContinuesTo(s, 3, t);
    } else if k == 1 {
      ContinuesTo(s, 0, t);
    } else {
      ContinuesTo(s, 4, t);
    }
  }

  lemma NineMoveDrawSteps3To6(k: int)
    requires 3 <= k < 6
    ensures MakeMove(NineMoveDrawStates[k], NineMoveDrawMoves[k]) == NineMoveDrawStates[k + 1]
  {
    var s, t := NineMoveDrawStates[k], NineMoveDrawStates[k + 1];
    CheckWinnerTriples(t.board, s.currentPlayer);
    if k == 3 {
      ContinuesTo(s, 2, t);
    } else if k == 4 {
      ContinuesTo(s, 6, t);
    } else {
      ContinuesTo(s, 5, t);
    }
  }

  lemma NineMoveDrawSteps6To9(k: int)
    requires 6 <= k < 9
    ensures MakeMove(NineMoveDrawStates[k], NineMoveDrawMoves[k]) == NineMoveDrawStates[k + 1]
  {
    var s, t := NineMoveDrawStates[k], NineMoveDrawStates[k + 1];
    CheckWinnerTriples(t.board, s.currentPlayer);
    if k == 6 {
      ContinuesTo(s, 8, t);
    } else if k == 7 {
      ContinuesTo(s, 7, t);
    } else {
      DrawsTo(s, 1, t);
    }
  }

  /** The nine moves 3, 0, 4, 2, 6, 5, 8, 7, 1 fill the board with no line: a draw. */
  lemma NineMoveDraw()
    ensures var t := Play(CreateInitialGameState(), [3, 0, 4, 2, 6, 5, 8, 7, 1]);
      t.board == [O, X, O, X, X, O, X, O, X] && t.isDraw && t.gameOver && t.winner == Null
  {
    forall k | 0 <= k < |NineMoveDrawMoves|
      ensures MakeMove(NineMoveDrawStates[k], NineMoveDrawMoves[k]) == NineMoveDrawStates[k + 1]
    {
      if k < 3 { NineMoveDrawSteps0To3(k); }
      else if k < 6 { NineMoveDrawSteps3To6(k); }
      else { NineMoveDrawSteps6To9(k); }
    }
    assert NineMoveDrawStates[0] == CreateInitialGameState();
    PlayThrough(NineMoveDrawStates, NineMoveDrawMoves);
  }

  /** The states of the game 0, 1, 2, 3, 4, 6, 5, 7, 8, one per move. */
  const NineMoveDiagonalWinStates: seq<GameState> := [
    GameState([N, N, N, N, N, N, N, N, N], X, Null, false, false),
    GameState([X, N, N, N, N, N, N, N, N], O, Null, false, false),
    GameState([X, O, N, N, N, N, N, N, N], X, Null, false, false),
    GameState([X, O, X, N, N, N, N, N, N], O, Null, false, false),
    GameState([X, O, X, O, N, N, N, N, N], X, Null, false, false),
    GameState([X, O, X, O, X, N, N, N, N], O, Null, false, false),
    GameState([X, O, X, O, X, N, O, N, N], X, Null, false, false),
    GameState([X, O, X, O, X, X, O, N, N], O, Null, false, false),
    GameState([X, O, X, O, X, X, O, O, N], X, Null, false, false),
    GameState([X, O, X, O, X, X, O, O, X], X, X, true, false)]

  const NineMoveDiagonalWinMoves: seq<int> := [0, 1, 2, 3, 4, 6, 5, 7, 8]

  lemma NineMoveDiagonalWinSteps0To3(k: int)
    requires 0 <= k < 3
    ensures MakeMove(NineMoveDiagonalWinStates[k], NineMoveDiagonalWinMoves[k]) == NineMoveDiagonalWinStates[k + 1]
  {
    var s, t := NineMoveDiagonalWinStates[k], NineMoveDiagonalWinStates[k + 1];
    CheckWinnerTriples(t.board, s.currentPlayer);
    if k == 0 {
      ContinuesTo(s, 0, t);
    } else if k == 1 {
      ContinuesTo(s, 1, t);
    } else {
      ContinuesTo(s, 2, t);
    }
  }

  lemma NineMoveDiagonalWinSteps3To6(k: int)
    requires 3 <= k < 6
    ensures MakeMove(NineMoveDiagonalWinStates[k], NineMoveDiagonalWinMoves[k]) == NineMoveDiagonalWinStates[k + 1]
  {
    var s, t := NineMoveDiagonalWinStates[k], NineMoveDiagonalWinStates[k + 1];
    CheckWinnerTriples(t.board, s.currentPlayer);
    if k == 3 {
      ContinuesTo(s, 3, t);
    } else if k == 4 {
      ContinuesTo(s, 4, t);
    } else {
      ContinuesTo(s, 6, t);
    }
  }

  lemma NineMoveDiagonalWinSteps6To9(k: int)
    requires 6 <= k < 9
    ensures MakeMove(NineMoveDiagonalWinStates[k], NineMoveDiagonalWinMoves[k]) == NineMoveDiagonalWinStates[k + 1]
  {
    var s, t := NineMoveDiagonalWinStates[k], NineMoveDiagonalWinStates[k + 1];
    CheckWinnerTriples(t.board, s.currentPlayer);
    if k == 6 {
      ContinuesTo(s, 5, t);
    } else if k == 7 {
      ContinuesTo(s, 7, t);
    } else {
      WinsTo(s, 8, t);
    }
  }

  /**
   * The nine moves 0, 1, 2, 3, 4, 6, 5, 7, 8 do not end in a draw: the last
   * X completes both the diagonal 0, 4, 8 and the column 2, 5, 8.
   */
  lemma NineMoveDiagonalWin()
    ensures var t := Play(CreateInitialGameState(), [0, 1, 2, 3, 4, 6, 5, 7, 8]);
      t.board == [X, O, X, O, X, X, O, O, X] && t.winner == X && t.gameOver && !t.isDraw
  {
    forall k | 0 <= k < |NineMoveDiagonalWinMoves|
      ensures MakeMove(NineMoveDiagonalWinStates[k], NineMoveDiagonalWinMoves[k]) == NineMoveDiagonalWinStates[k + 1]
    {
      if k < 3 { NineMoveDiagonalWinSteps0To3(k); }
      else if k < 6 { NineMoveDiagonalWinSteps3To6(k); }
      else { NineMoveDiagonalWinSteps6To9(k); }
    }
    assert NineMoveDiagonalWinStates[0] == CreateInitialGameState();
    PlayThrough(NineMoveDiagonalWinStates, NineMoveDiagonalWinMoves);
  }

  /** The states of the game 0, 1, 2, 3, 4, 5, 8, one per move. */
  const SevenMoveDiagonalWinStates: seq<GameState> := [
    GameState([N, N, N, N, N, N, N, N, N], X, Null, false, false),
    GameState([X, N, N, N, N, N, N, N, N], O, Null, false, false),
    GameState([X, O, N, N, N, N, N, N, N], X, Null, false, false),
    GameState([X, O, X, N, N, N, N, N, N], O, Null, false, false),
    GameState([X, O, X, O, N, N, N, N, N], X, Null, false, false),
    GameState([X, O, X, O, X, N, N, N, N], O, Null, false, false),
    GameState([X, O, X, O, X, O, N, N, N], X, Null, false, false),
    GameState([X, O, X, O, X, O, N, N, X], X, X, true, false)]

  const SevenMoveDiagonalWinMoves: seq<int> := [0, 1, 2, 3, 4, 5, 8]

  lemma SevenMoveDiagonalWinSteps0To4(k: int)
    requires 0 <= k < 4
    ensures MakeMove(SevenMoveDiagonalWinStates[k], SevenMoveDiagonalWinMoves[k]) == SevenMoveDiagonalWinStates[k + 1]
  {
    var s, t := SevenMoveDiagonalWinStates[k], SevenMoveDiagonalWinStates[k + 1];
    CheckWinnerTriples(t.board, s.currentPlayer);
    if k == 0 {
      ContinuesTo(s, 0, t);
    } else if k == 1 {
      ContinuesTo(s, 1, t);
    } else if k == 2 {
      ContinuesTo(s, 2, t);
    } else {
      ContinuesTo(s, 3, t);
    }
  }

  lemma SevenMoveDiagonalWinSteps4To7(k: int)
    requires 4 <= k < 7
    ensures MakeMove(SevenMoveDiagonalWinStates[k], SevenMoveDiagonalWinMoves[k]) == SevenMoveDiagonalWinStates[k + 1]
  {
    var s, t := SevenMoveDiagonalWinStates[k], SevenMoveDiagonalWinStates[k + 1];
    CheckWinnerTriples(t.board, s.currentPlayer);
    if k == 4 {
      ContinuesTo(s, 4, t);
    } else if k == 5 {
      ContinuesTo(s, 5, t);
    } else {
      WinsTo(s, 8, t);
    }
  }

  /** After 0, 1, 2, 3, 4, 5, X's move on 8 completes the diagonal 0, 4, 8. */
  lemma SevenMoveDiagonalWin()
    ensures var t := Play(CreateInitialGameState(), [0, 1, 2, 3, 4, 5, 8]);
      t.board == [X, O, X, O, X, O, N, N, X] && t.winner == X && t.gameOver && !t.isDraw
  {
    forall k | 0 <= k < |SevenMoveDiagonalWinMoves|
      ensures MakeMove(SevenMoveDiagonalWinStates[k], SevenMoveDiagonalWinMoves[k]) == SevenMoveDiagonalWinStates[k + 1]
    {
      if k < 4 { SevenMoveDiagonalWinSteps0To4(k); }
      else { SevenMoveDiagonalWinSteps4To7(k); }
    }
    assert SevenMoveDiagonalWinStates[0] == CreateInitialGameState();
    PlayThrough(SevenMoveDiagonalWinStates, SevenMoveDiagonalWinMoves);
  }

  /** The states of the game 0, 1, 2, one per move. */
  const SharedTopRowStates: seq<GameState> := [
    GameState([N, N, N, N, N, N, N, N, N], X, Null, false, false),
    GameState([X, N, N, N, N, N, N, N, N], O, Null, false, false),
    GameState([X, O, N, N, N, N, N, N, N], X, Null, false, false),
    GameState([X, O, X, N, N, N, N, N, N], O, Null, false, false)]

  const SharedTopRowMoves: seq<int> := [0, 1, 2]

  lemma SharedTopRowSteps(k: int)
    requires 0 <= k < 3
    ensures MakeMove(SharedTopRowStates[k], SharedTopRowMoves[k]) == SharedTopRowStates[k + 1]
  {
    var s, t := SharedTopRowStates[k], SharedTopRowStates[k + 1];
    CheckWinnerTriples(t.board, s.currentPlayer);
    if k == 0 {
      ContinuesTo(s, 0, t);
    } else if k == 1 {
      ContinuesTo(s, 1, t);
    } else {
      ContinuesTo(s, 2, t);
    }
  }

  /**
   * Cells 0, 1, 2 taken in turn by X, O, X are no line for anyone: nobody
   * has won and O is to move.
   */
  lemma SharedTopRowNoWin()
    ensures var t := Play(CreateInitialGameState(), [0, 1, 2]);
      t.board == [X, O, X, N, N, N, N, N, N] && t.winner == Null && !t.gameOver &&
      t.currentPlayer == O
  {
    forall k | 0 <= k < |SharedTopRowMoves|
      ensures MakeMove(SharedTopRowStates[k], SharedTopRowMoves[k]) == SharedTopRowStates[k + 1]
    {
      SharedTopRowSteps(k);
    }
    assert SharedTopRowStates[0] == CreateInitialGameState();
    PlayThrough(SharedTopRowStates, SharedTopRowMoves);
  }
}
