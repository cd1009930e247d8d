/**
 * Whole games replayed through the value model, from a freshly constructed
 * game, one lemma per accepted click.
 */
module Scenarios {
  import opened Wrappers
  import opened Board
  import opened Names
  import opened Game

  const E := Empty
  const MX := Mark(X)
  const MO := Mark(O)

  /** The state after "Start Game" with both name fields left empty. */
  const Started := GameState(EmptyBoard, X, true, DefaultNames, 0)

  lemma StartWithEmptyFields()
    ensures Apply(InitialState, Start("", "")) == Started
  {
  }

  /** An accepted click that neither wins nor fills the board hands the turn over. */
  lemma ContinuingMove(s: GameState, i: Index, t: int, b: seq<Cell>)
    requires |s.board| == 9 && Accepts(s, i, t) && b == s.board[i := Mark(s.currentPlayer)]
    requires Winner(b).None? && !IsFull(b)
    ensures MoveState(s, i, t) == s.(board := b, currentPlayer := s.currentPlayer.Other(), lastClickTime := t)
  {
  }

  /** An accepted click that wins or fills the board ends the game with the turn where it was. */
  lemma FinalMove(s: GameState, i: Index, t: int, b: seq<Cell>)
    requires |s.board| == 9 && Accepts(s, i, t) && b == s.board[i := Mark(s.currentPlayer)]
    requires Winner(b).Some? || IsFull(b)
    ensures MoveState(s, i, t) == s.(board := b, gameActive := false, lastClickTime := t)
  {
  }

  // The diagonal game: X 0, O 1, X 4, O 2, X 8.
  const D1 := [MX, E, E, E, E, E, E, E, E]
  const D2 := [MX, MO, E, E, E, E, E, E, E]
  const D3 := [MX, MO, E, E, MX, E, E, E, E]
  const D4 := [MX, MO, MO, E, MX, E, E, E, E]
  const D5 := [MX, MO, MO, E, MX, E, E, E, MX]

  lemma D1Step()
    ensures MoveState(Started, 0, 1000) == GameState(D1, O, true, DefaultNames, 1000)
  {
    assert EmptyBoard[0 := Mark(X)] == D1;
    assert Winner(D1).None?;
    ContinuingMove(Started, 0, 1000, D1);
  }
  lemma D2Step()
    ensures MoveState(GameState(D1, O, true, DefaultNames, 1000), 1, 2000) == GameState(D2, X, true, DefaultNames, 2000)
  {
    assert D1[1 := Mark(O)] == D2;
    assert Winner(D2).None?;
    ContinuingMove(GameState(D1, O, true, DefaultNames, 1000), 1, 2000, D2);
  }
  lemma D3Step()
    ensures MoveState(GameState(D2, X, true, DefaultNames, 2000), 4, 3000) == GameState(D3, O, true, DefaultNames, 3000)
  {
    assert D2[4 := Mark(X)] == D3;
    assert Winner(D3).None?;
    ContinuingMove(GameState(D2, X, true, DefaultNames, 2000), 4, 3000, D3);
  }
  lemma D4Step()
    ensures MoveState(GameState(D3, O, true, DefaultNames, 3000), 2, 4000) == GameState(D4, X, true, DefaultNames, 4000)
  {
    assert D3[2 := Mark(O)] == D4;
    assert Winner(D4).None?;
    ContinuingMove(GameState(D3, O, true, DefaultNames, 3000), 2, 4000, D4);
  }
  lemma D5Step()
    ensures MoveState(GameState(D4, X, true, DefaultNames, 4000), 8, 5000) == GameState(D5, X, false, DefaultNames, 5000)
  {
    assert D4[8 := Mark(X)] == D5;
    assert Winner(D5) == Some(X);
    FinalMove(GameState(D4, X, true, DefaultNames, 4000), 8, 5000, D5);
  }

  /**
   * X completes the diagonal 0-4-8 on the fifth click: X wins, the game
   * stops, the turn stays with X, and later clicks change nothing.
   */
  lemma DiagonalWin()
    ensures var s := Run(InitialState, [Start("", ""), Click(0, 1000), Click(1, 2000), Click(4, 3000), Click(2, 4000), Click(8, 5000)]);
            && s.board == [MX, MO, MO, E, MX, E, E, E, MX]
            && Winner(s.board) == Some(X)
            && !s.gameActive && s.currentPlayer == X
            && MoveState(s, 3, 6000) == s
  {
    StartWithEmptyFields();
    D1Step(); D2Step(); D3Step(); D4Step(); D5Step();
  }

  // A drawn game: X 0, O 1, X 2, O 4, X 3, O 5, X 7, O 6, X 8.
  const T3 := [MX, MO, MX, E, E, E, E, E, E]
  const T4 := [MX, MO, MX, E, MO, E, E, E, E]
  const T5 := [MX, MO, MX, MX, MO, E, E, E, E]
  const T6 := [MX, MO, MX, MX, MO, MO, E, E, E]
  const T7 := [MX, MO, MX, MX, MO, MO, E, MX, E]
  const T8 := [MX, MO, MX, MX, MO, MO, MO, MX, E]
  const T9 := [MX, MO, MX, MX, MO, MO, MO, MX, MX]

  lemma T3Step()
    ensures MoveState(GameState(D2, X, true, DefaultNames, 2000), 2, 3000) == GameState(T3, O, true, DefaultNames, 3000)
  {
    assert D2[2 := Mark(X)] == T3;
    assert Winner(T3).None?;
    ContinuingMove(GameState(D2, X, true, DefaultNames, 2000), 2, 3000, T3);
  }
  lemma T4Step()
    ensures MoveState(GameState(T3, O, true, DefaultNames, 3000), 4, 4000) == GameState(T4, X, true, DefaultNames, 4000)
  {
    assert T3[4 := Mark(O)] == T4;
    assert Winner(T4).None?;
    ContinuingMove(GameState(T3, O, true, DefaultNames, 3000), 4, 4000, T4);
  }
  lemma T5Step()
    ensures MoveState(GameState(T4, X, true, DefaultNames, 4000), 3, 5000) == GameState(T5, O, true, DefaultNames, 5000)
  {
    assert T4[3 := Mark(X)] == T5;
    assert Winner(T5).None?;
    ContinuingMove(GameState(T4, X, true, DefaultNames, 4000), 3, 5000, T5);
  }
  lemma T6Step()
    ensures MoveState(GameState(T5, O, true, DefaultNames, 5000), 5, 6000) == GameState(T6, X, true, DefaultNames, 6000)
  {
    assert T5[5 := Mark(O)] == T6;
    assert Winner(T6).None?;
    ContinuingMove(GameState(T5, O, true, DefaultNames, 5000), 5, 6000, T6);
  }
  lemma T7Step()
    ensures MoveState(GameState(T6, X, true, DefaultNames, 6000), 7, 7000) == GameState(T7, O, true, DefaultNames, 7000)
  {
    assert T6[7 := Mark(X)] == T7;
    assert Winner(T7).None?;
    ContinuingMove(GameState(T6, X, true, DefaultNames, 6000), 7, 7000, T7);
  }
  lemma T8Step()
    ensures MoveState(GameState(T7, O, true, DefaultNames, 7000), 6, 8000) == GameState(T8, X, true, DefaultNames, 8000)
  {
    assert T7[6 := Mark(O)] == T8;
    assert Winner(T8).None?;
    ContinuingMove(GameState(T7, O, true, DefaultNames, 7000), 6, 8000, T8);
  }
  lemma T9Step()
    ensures MoveState(GameState(T8, X, true, DefaultNames, 8000), 8, 9000) == GameState(T9, X, false, DefaultNames, 9000)
  {
    assert T8[8 := Mark(X)] == T9;
    assert Winner(T9).None? && IsFull(T9);
    FinalMove(GameState(T8, X, true, DefaultNames, 8000), 8, 9000, T9);
  }

  /** Nine clicks fill the board with no line won: a tie, and the turn is not handed over. */
  lemma TieGame()
    ensures var s := Run(InitialState, [Start("", ""), Click(0, 1000), Click(1, 2000), Click(2, 3000), Click(4, 4000),
                                        Click(3, 5000), Click(5, 6000), Click(7, 7000), Click(6, 8000), Click(8, 9000)]);
            && s.board == [MX, MO, MX, MX, MO, MO, MO, MX, MX]
            && Winner(s.board).None? && IsFull(s.board)
            && !s.gameActive && s.currentPlayer == X
  {
    StartWithEmptyFields();
    D1Step(); D2Step(); T3Step(); T4Step(); T5Step(); T6Step(); T7Step(); T8Step(); T9Step();
  }

  /** The full board X,O,X,O,X,O,O,X,O. */
  const U := [MX, MO, MX, MO, MX, MO, MO, MX, MO]

  lemma UnreachableTieCounts()
    ensures Count(U, MO) == 5 && Count(U, MX) == 4
  {
    assert Count(U[8..], MO) == 1 && Count(U[8..], MX) == 0;
    assert Count(U[7..], MO) == 1 && Count(U[7..], MX) == 1;
    assert Count(U[6..], MO) == 2 && Count(U[6..], MX) == 1;
    assert Count(U[5..], MO) == 3 && Count(U[5..], MX) == 1;
    assert Count(U[4..], MO) == 3 && Count(U[4..], MX) == 2;
    assert Count(U[3..], MO) == 4 && Count(U[3..], MX) == 2;
    assert Count(U[2..], MO) == 4 && Count(U[2..], MX) == 3;
    assert Count(U[1..], MO) == 5 && Count(U[1..], MX) == 3;
  }

  /**
   * The full board X,O,X,O,X,O,O,X,O has no winning line, so checkWinner
   * calls it a tie; but it holds five O's and four X's, so no game reaches it.
   */
  lemma UnreachableTieBoard(s: GameState)
    requires s.board == U
    ensures Winner(s.board).None? && IsFull(s.board)
    ensures !Consistent(s)
  {
    assert Winner(U).None? && IsFull(U);
    UnreachableTieCounts();
    var nx, no := Count(s.board, MX), Count(s.board, MO);
    assert !(nx == no || nx == no + 1);
  }

  /** A second click less than 300 ms after the last taken one is dropped, even on another cell. */
  lemma FastClickIgnored()
    ensures var s1 := MoveState(Started, 4, 1000);
            && s1.board[4] == MX && s1.currentPlayer == O
            && MoveState(s1, 0, 1299) == s1
            && MoveState(s1, 0, 1300).board[0] == MO
  {
    var s1 := MoveState(Started, 4, 1000);
    assert s1.board == [E, E, E, E, MX, E, E, E, E];
    assert Winner(s1.board).None?;
  }

  lemma StripBob()
    ensures StripAngles("<Bob>") == "Bob"
  {
    assert "<Bob>" == "<" + "Bob" + ">";
    StripAnglesAppend("<" + "Bob", ">");
    StripAnglesAppend("<", "Bob");
    assert StripAngles("<") == StripAngles("");
    assert StripAngles(">") == StripAngles("");
  }

  /** Names typed into the fields have their brackets removed before they are stored. */
  lemma StartSanitisesNames()
    ensures Apply(InitialState, Start("Ann", "<Bob>")).playerNames == PlayerNames("Ann", "Bob")
  {
    StripBob();
    assert ValidatePlayerName("<Bob>") == "Bob";
    assert IsSafeName("Ann");
    assert ResolveName("<Bob>", DefaultNameO) == "Bob";
    assert ResolveName("Ann", DefaultNameX) == "Ann";
  }
}
