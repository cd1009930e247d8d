/**
 * The game state machine of the TicTacToe class: a value model of its
 * fields (GameState), the effect of each operation on that value, the
 * turn-alternation invariant those operations keep, and the class itself,
 * whose methods update its fields in place and are proved against the
 * value model.
 */
module Game {
  import opened Wrappers
  import opened Board
  import opened Names

  /** Minimum number of milliseconds between two accepted clicks. */
  const ClickDelay := 300

  /** The fields of a TicTacToe object, as a value. */
  datatype GameState = GameState(
    board: seq<Cell>,
    currentPlayer: Player,
    gameActive: bool,
    playerNames: PlayerNames,
    lastClickTime: int)

  /** The state a freshly constructed game is in. */
  const InitialState := GameState(EmptyBoard, X, false, DefaultNames, 0)

  /**
   * What every reachable state satisfies: nine cells; shown names are
   * sanitised; X has as many marks as O or one more; while the game is
   * active it is X's turn exactly when the counts are equal, and no line is
   * won and some cell is empty.
   */
  predicate Consistent(s: GameState)
  {
    && |s.board| == 9
    && ValidNames(s.playerNames)
    && var nx, no := Count(s.board, Mark(X)), Count(s.board, Mark(O));
       && (nx == no || nx == no + 1)
       && (s.gameActive ==> (s.currentPlayer == X <==> nx == no))
       && (s.gameActive ==> Winner(s.board).None? && !IsFull(s.board))
  }

  lemma InitialConsistent()
    ensures Consistent(InitialState)
  {
    EmptyBoardFacts();
    DefaultNamesValid();
  }

  /** startGame: sanitised names or defaults, an empty board, X to move, game active. */
  function StartState(s: GameState, rawX: string, rawO: string): (r: GameState)
    ensures r.board == EmptyBoard && r.currentPlayer == X && r.gameActive
    ensures r.playerNames.x == ResolveName(rawX, DefaultNameX)
    ensures r.playerNames.o == ResolveName(rawO, DefaultNameO)
    ensures r.lastClickTime == s.lastClickTime
    ensures Consistent(r)
  {
    EmptyBoardFacts();
    DefaultNamesValid();
    s.(playerNames := PlayerNames(ResolveName(rawX, DefaultNameX), ResolveName(rawO, DefaultNameO)),
       gameActive := true,
       board := EmptyBoard,
       currentPlayer := X)
  }

  /**
   * checkWinner: the game ends when some line is won or, failing that, when
   * the board is full; otherwise nothing changes.
   */
  function CheckWinnerState(s: GameState): (r: GameState)
    requires |s.board| == 9
    ensures r.board == s.board && r.currentPlayer == s.currentPlayer
    ensures r.playerNames == s.playerNames && r.lastClickTime == s.lastClickTime
    ensures r.gameActive <==> s.gameActive && Winner(s.board).None? && !IsFull(s.board)
  {
    if Winner(s.board).Some? then s.(gameActive := false)
    else if IsFull(s.board) then s.(gameActive := false)
    else s
  }

  /**
   * A click on cell `index` at time `now` is taken: the game is active, the
   * cell is empty, and at least ClickDelay milliseconds have passed since
   * the last click that was taken.
   */
  predicate Accepts(s: GameState, index: Index, now: int)
    requires |s.board| == 9
  {
    s.gameActive && s.board[index] == Empty && now - s.lastClickTime >= ClickDelay
  }

  /**
   * A click is taken only in a game still in progress (no line won, some
   * cell empty) and on an empty cell; and a click that is taken would also
   * be taken later.
   */
  lemma AcceptedClickIsLegal(s: GameState, index: Index, now: int, later: int)
    requires Consistent(s) && Accepts(s, index, now) && now <= later
    ensures s.board[index] == Empty && Winner(s.board).None? && !IsFull(s.board)
    ensures Accepts(s, index, later)
  {
  }

  /** makeMove: place the mover's mark, detect the end of the game, hand the turn over. */
  function MoveState(s: GameState, index: Index, now: int): (r: GameState)
    requires |s.board| == 9
    ensures |r.board| == 9 && r.playerNames == s.playerNames
    ensures !Accepts(s, index, now) ==> r == s
    ensures Accepts(s, index, now) ==>
              && r.board[index] == Mark(s.currentPlayer)
              && (forall j :: 0 <= j < 9 && j != index ==> r.board[j] == s.board[j])
              && r.lastClickTime == now
    ensures Accepts(s, index, now) && Winner(r.board).Some? ==>
              !r.gameActive && r.currentPlayer == s.currentPlayer
    ensures Accepts(s, index, now) && Winner(r.board).None? && IsFull(r.board) ==>
              !r.gameActive && r.currentPlayer == s.currentPlayer
    ensures Accepts(s, index, now) && Winner(r.board).None? && !IsFull(r.board) ==>
              r.gameActive && r.currentPlayer == s.currentPlayer.Other()
    ensures forall j :: 0 <= j < 9 && s.board[j] != Empty ==> r.board[j] == s.board[j]
  {
    if !s.gameActive || s.board[index] != Empty then s
    else if now - s.lastClickTime < ClickDelay then s
    else
      var placed := s.(lastClickTime := now, board := s.board[index := Mark(s.currentPlayer)]);
      var checked := CheckWinnerState(placed);
      if checked.gameActive then checked.(currentPlayer := checked.currentPlayer.Other())
      else checked
  }

  /** resetGame: empty board, game inactive, X first, default names. */
  function ResetState(s: GameState): (r: GameState)
    ensures r.board == EmptyBoard && !r.gameActive && r.currentPlayer == X
    ensures r.playerNames == DefaultNames && r.lastClickTime == s.lastClickTime
    ensures Consistent(r)
  {
    EmptyBoardFacts();
    DefaultNamesValid();
    s.(board := EmptyBoard, gameActive := false, currentPlayer := X, playerNames := DefaultNames)
  }

  /** Resetting twice is the same as resetting once. */
  lemma ResetIdempotent(s: GameState)
    ensures ResetState(ResetState(s)) == ResetState(s)
  {
  }

  /**
   * Starting a game forgets everything about the previous one except the
   * time of the last accepted click, which neither startGame nor resetGame clears.
   */
  lemma StartForgetsHistory(s1: GameState, s2: GameState, rawX: string, rawO: string)
    requires s1.lastClickTime == s2.lastClickTime
    ensures StartState(ResetState(s1), rawX, rawO) == StartState(s2, rawX, rawO)
  {
  }

  /** Every move keeps the turn-alternation invariant. */
  lemma MovePreservesConsistent(s: GameState, index: Index, now: int)
    requires Consistent(s)
    ensures Consistent(MoveState(s, index, now))
  {
    if Accepts(s, index, now) {
      var m := Mark(s.currentPlayer);
      CountUpdate(s.board, index, m, Mark(X));
      CountUpdate(s.board, index, m, Mark(O));
    }
  }

  /**
   * In a consistent state the winner of a move is always the mover, and
   * every line won after it carries the mover's mark.
   */
  lemma MoveWinnerIsCurrentPlayer(s: GameState, index: Index, now: int)
    requires Consistent(s) && Accepts(s, index, now)
    ensures var b := MoveState(s, index, now).board;
            && (Winner(b).Some? ==> Winner(b) == Some(s.currentPlayer))
            && forall k :: 0 <= k < LineCount && LineWon(b, k) ==> b[WinConditions[k].0] == Mark(s.currentPlayer)
  {
    assert MoveState(s, index, now).board == s.board[index := Mark(s.currentPlayer)];
    MoveWinnerIsMover(s.board, index, s.currentPlayer);
  }

  /** The user actions the page forwards to the game. */
  datatype Event = Start(rawX: string, rawO: string) | Click(index: Index, now: int) | Reset

  /** The effect of one event. */
  function Apply(s: GameState, e: Event): (r: GameState)
    requires |s.board| == 9
    ensures |r.board| == 9
  {
    match e
    case Start(x, o) => StartState(s, x, o)
    case Click(i, t) => MoveState(s, i, t)
    case Reset => ResetState(s)
  }

  /** The state after a sequence of events, in order. */
  function Run(s: GameState, es: seq<Event>): (r: GameState)
    requires |s.board| == 9
    ensures |r.board| == 9
    decreases |es|
  {
    if es == [] then s else Run(Apply(s, es[0]), es[1..])
  }

  /** No history of starts, clicks and resets breaks the invariant. */
  lemma {:induction false} RunPreservesConsistent(s: GameState, es: seq<Event>)
    requires Consistent(s)
    ensures Consistent(Run(s, es))
    decreases |es|
  {
    if es != [] {
      if es[0].Click? {
        MovePreservesConsistent(s, es[0].index, es[0].now);
      }
      RunPreservesConsistent(Apply(s, es[0]), es[1..]);
    }
  }

  /**
   * The game object. The board is one array, filled and written in place;
   * the other fields are reassigned.
   */
  class TicTacToe {
    const board: array<Cell>
    var currentPlayer: Player
    var gameActive: bool
    var playerNames: PlayerNames
    var lastClickTime: int

    /** The fields as a GameState value. */
    function State(): GameState
      reads this, board
    {
      GameState(board[..], currentPlayer, gameActive, playerNames, lastClickTime)
    }

    ghost predicate Valid()
      reads this, board
    {
      board.Length == 9 && Consistent(State())
    }

    constructor ()
      ensures Valid() && fresh(board)
      ensures State() == InitialState
    {
      board := new Cell[9](_ => Empty);
      currentPlayer := X;
      gameActive := false;
      playerNames := DefaultNames;
      lastClickTime := 0;
      new;
      assert board[..] == EmptyBoard;
      InitialConsistent();
    }

    /** Empties every cell of the board in place. */
    method ClearBoard()
      requires board.Length == 9
      modifies board
      ensures board[..] == EmptyBoard
    {
      forall i | 0 <= i < board.Length {
        board[i] := Empty;
      }
    }

    method StartGame(rawX: string, rawO: string)
      requires Valid()
      modifies this, board
      ensures Valid()
      ensures State() == StartState(old(State()), rawX, rawO)
    {
      var nameX := ResolveName(rawX, DefaultNameX);
      var nameO := ResolveName(rawO, DefaultNameO);
      playerNames := PlayerNames(nameX, nameO);
      gameActive := true;
      ClearBoard();
      currentPlayer := X;
      assert State() == StartState(old(State()), rawX, rawO);
    }

    /**
     * Scans the winning lines in order and stops at the first won one; if
     * none is won and the board is full, the game ends in a tie. Returns the
     * mark the win is announced for.
     */
    method CheckWinner() returns (winner: Option<Player>)
      requires board.Length == 9
      modifies this`gameActive
      ensures State() == CheckWinnerState(old(State()))
      ensures winner == Winner(board[..])
    {
      for i := 0 to |WinConditions|
        invariant forall k :: 0 <= k < i ==> !LineWon(board[..], k)
        invariant gameActive == old(gameActive)
      {
        var (a, b, c) := WinConditions[i];
        if board[a] != Empty && board[a] == board[b] && board[a] == board[c] {
          assert LineWon(board[..], i);
          gameActive := false;
          winner := Some(board[a].player);
          return;
        }
      }
      if Empty !in board[..] {
        gameActive := false;
      }
      winner := None;
    }

    /**
     * A click on cell `index` at time `now` (milliseconds from the page's
     * clock); ignored when the game is over, the cell is taken, or the last
     * taken click was less than ClickDelay milliseconds ago.
     */
    method MakeMove(index: int, now: int)
      requires Valid() && 0 <= index < 9
      modifies this, board
      ensures Valid()
      ensures State() == MoveState(old(State()), index, now)
    {
      ghost var s0 := State();
      MovePreservesConsistent(s0, index, now);
      if !gameActive || board[index] != Empty {
        return;
      }
      if now - lastClickTime < ClickDelay {
        return;
      }
      lastClickTime := now;
      board[index] := Mark(currentPlayer);
      ghost var placed := State();
      assert placed == s0.(lastClickTime := now, board := s0.board[index := Mark(s0.currentPlayer)]);
      var winner := CheckWinner();
      assert State() == CheckWinnerState(placed);
      if gameActive {
        currentPlayer := currentPlayer.Other();
      }
    }

    method ResetGame()
      requires Valid()
      modifies this, board
      ensures Valid()
      ensures State() == ResetState(old(State()))
    {
      ClearBoard();
      gameActive := false;
      currentPlayer := X;
      playerNames := DefaultNames;
      assert State() == ResetState(old(State()));
    }
  }
}
