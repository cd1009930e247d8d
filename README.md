# Tic-tac-toe rules engine

This project models the rules engine of a browser tic-tac-toe game: the
`TicTacToe` class's board of nine cells, the mark to move, the
"game active" flag, the two player names, and the time of the last
accepted click. It covers the four operations that change that state:
starting a game, making a move (with its 300 ms click debounce),
detecting a win or a tie, and resetting. It also covers the pure filter
that sanitises a player name before it is stored. All page rendering,
sound and event wiring is left out.

Layout:

- `wrappers.dfy`: module `Wrappers`, an `Option` type.
- `board.dfy`: module `Board`. It holds the marks and cells, the eight winning
  lines in the order the game scans them, the winner and tie checks on a
  board value, and mark counting.
- `names.dfy`: module `Names`. It holds the player-name filter (strip `<` and
  `>`, keep at most 20 characters) and the default names.
- `game.dfy`: module `Game`. `GameState` is the object's fields as a value.
  `StartState`, `MoveState`, `CheckWinnerState` and `ResetState` give each
  operation's effect on it. `Consistent` is the turn-alternation invariant.
  The class `TicTacToe` updates its fields and its `array` board in place.
  The constructor, `StartGame`, `MakeMove` and `ResetGame` are each proved
  to produce exactly the state their function describes, and to keep
  `Consistent` as the object invariant `Valid()`. Two helper methods are
  proved against narrower contracts. `ClearBoard` fills the array with empty
  cells. `CheckWinner` changes only `gameActive`, exactly as
  `CheckWinnerState` does, and returns the board's winner.
- `scenarios.dfy`: module `Scenarios`. Whole games are replayed through the
  value model: a diagonal win, a reachable tie, a dropped fast click, and
  name sanitisation at start.

Modelling choices:

- The source keeps the click delay in a `clickDelay` field. Nothing ever
  reassigns that field, so the model makes it the module constant
  `Game.ClickDelay` (300).
- The clock is a parameter. `MakeMove(index, now)` takes the current time in
  milliseconds. The game itself reads the browser's clock at that point.
- `makeMove` is called with an index in range. The source does no range
  check, and its only callers pass a cell's `data-index` attribute (0..8).
  So `MakeMove` and `MoveState` require `0 <= index < 9` rather than modelling
  what a JavaScript array does when written outside its length.
- A click is ignored in three cases: the game is not active, the cell is
  taken, or less than 300 ms have passed since the last accepted click. The
  first two are checked before the clock is consulted, as in the source, so
  an ignored click never refreshes the debounce time.
- Neither `startGame` nor `resetGame` clears `lastClickTime`. So "reset then
  start reproduces the initial state" holds only up to that field, and
  `StartForgetsHistory` is stated that way.
- The debounce lives inside `makeMove` in the code, not in the caller. The
  model follows the code.
- `CheckWinner` returns the mark it announces a win for. The source builds a
  popup message from that mark's name. The message text itself is not
  modelled.
- `DiagonalWin` replays X 0, O 1, X 4, O 2, X 8, which ends on the board
  X,O,O,_,X,_,_,_,X with X the winner.
- `TieGame` replays X 0, O 1, X 2, O 4, X 3, O 5, X 7, O 6, X 8, which fills
  the board with no line won.
- The full board X,O,X,O,X,O,O,X,O is also a tie for `checkWinner`, but it
  holds five O's and four X's, so no game can reach it
  (`UnreachableTieBoard`).
- Strings are sequences of characters. The 20-character cap counts Dafny
  characters, not UTF-16 code units.

## Model

| member | source | states |
|---|---|---|
| `Board.Player.Other` | script.js:151 | the turn passes to the other mark, never to the same one |
| `Board.WinConditionsAreRowsColumnsDiagonals` | script.js:207-211 | the fixed list `WinConditions` holds the three rows, then the three columns, then the two diagonals of the row-major 3x3 grid |
| `Board.LineWonIsThreeOfOneMark` | script.js:215 | `LineWon` holds exactly when the line's three cells all hold X or all hold O |
| `Board.IsFullMeansEveryCellMarked` | script.js:235 | `IsFull` (no cell equal to "") holds exactly when every cell holds a mark, that is when no cell counts as empty |
| `Board.FirstWinningLine` | script.js:207-215 | the result is a line that is won, and no earlier line in the fixed list is won; None exactly when no line from the start point on is won |
| `Board.Winner` | script.js:213-218 | None exactly when none of the eight lines holds three equal marks; otherwise the mark on the first won line in list order |
| `Board.CountUpdate` | script.js:139 | writing one cell changes a mark's count by exactly the value that left and the value that arrived |
| `Board.MoveWinnerIsMover` | script.js:139-147 | one mark placed on a board with no won line can only win for that mark: every won line then carries it, so the scan order does not change the winner |
| `Board.EmptyBoardFacts` | script.js:10 | the all-empty board has no won line, is not full and holds no mark |
| `Names.StripAngles` | script.js:118 | the result has no `<` or `>`, keeps every other character with its multiplicity, and is the input itself when the input has none |
| `Names.StripAnglesAppend` | script.js:118 | bracket removal works character by character: it distributes over concatenation |
| `Names.StripAnglesKeepsOrder` | script.js:118 | a character other than a bracket stays in its place, between the stripped text before it and the stripped text after it |
| `Names.SafeNameIsFixedPoint` | script.js:115-125 | `IsSafeName` (no `<` or `>`, at most 20 characters) holds exactly when the filter returns the name unchanged |
| `Names.ValidatePlayerName` | script.js:114-126 | the result has no `<` or `>` and at most 20 characters; it is a prefix of the stripped input, cut only when 20 characters are reached; a safe input comes back unchanged; the empty input gives "" |
| `Names.ValidateIdempotent` | script.js:114-126 | sanitising a sanitised name changes nothing |
| `Names.ResolveName` | script.js:92-93 | the stored name is the sanitised input, or the default when that is empty; it is never empty and always safe when the default is |
| `Names.DefaultNamesValid` | script.js:13 | "Player 1" and "Player 2" are safe, non-empty names |
| `Names.SanitiseExamples` | script.js:114-126 | "<script>" becomes "script"; 25 'a's become 20 'a's |
| `Game.InitialConsistent` | script.js:10-15 | the state after construction satisfies the turn-alternation invariant |
| `Game.StartState` | script.js:87-101 | starting empties the board, gives X the move, activates the game, stores the resolved names, keeps the debounce time, and yields a state satisfying the invariant |
| `Game.CheckWinnerState` | script.js:206-241 | after the scan the game is active exactly when it was active, no line is won and some cell is empty; nothing else changes |
| `Game.AcceptedClickIsLegal` | script.js:131-136 | `Accepts` (the guards: game active, cell empty, at least 300 ms since the last taken click) only lets a click through on an empty cell of a game with no line won and some cell empty, and a click taken at one time would also be taken later |
| `Game.MoveState` | script.js:129-155 | a click on an inactive game, a taken cell, or within 300 ms changes nothing. An accepted click writes the mover's mark into that cell only and records the time. A win or a tie ends the game with the turn unchanged; otherwise the turn passes. Taken cells are never cleared |
| `Game.ResetState` | script.js:244-258 | reset empties the board, deactivates the game, gives X the move, restores the default names, and yields a state satisfying the invariant |
| `Game.ResetIdempotent` | script.js:244-258 | resetting twice equals resetting once |
| `Game.StartForgetsHistory` | script.js:92-101 | after reset and start, the state depends only on the names typed and the last accepted click's time |
| `Game.MovePreservesConsistent` | script.js:131-154 | every click keeps X's count equal to O's or one more, X to move exactly when the counts are equal while active, and no won or full board active |
| `Game.MoveWinnerIsCurrentPlayer` | script.js:139-150 | from a consistent state, a winning click wins for the mark that made it, on every won line |
| `Game.Apply` | script.js:27-45 | routes a start, cell or reset event to `StartState`, `MoveState` or `ResetState`; its contract states only that the board keeps nine cells, and the invariant it keeps is stated by `RunPreservesConsistent` |
| `Game.Run` | script.js:27-45 | applies the events in order through `Apply`; its contract states only that the board keeps nine cells, and the invariant it keeps is stated by `RunPreservesConsistent` |
| `Game.RunPreservesConsistent` | script.js:87-259 | no history of starts, clicks and resets breaks the turn-alternation invariant |
| `Game.TicTacToe.constructor` | script.js:9-15 | a new game has an empty board, X to move, the game inactive, default names and debounce time 0 |
| `Game.TicTacToe.ClearBoard` | script.js:99 | the board array is filled with empty cells in place |
| `Game.TicTacToe.StartGame` | script.js:87-101 | the object's new fields are exactly `StartState` of the old ones, and the invariant holds |
| `Game.TicTacToe.CheckWinner` | script.js:206-241 | the loop over the eight lines stops at the first won one; the new fields are `CheckWinnerState` of the old ones; the returned mark is the board's winner |
| `Game.TicTacToe.MakeMove` | script.js:129-155 | the object's new fields are exactly `MoveState` of the old ones for that cell and time, and the invariant holds |
| `Game.TicTacToe.ResetGame` | script.js:244-258 | the object's new fields are exactly `ResetState` of the old ones, and the invariant holds |
| `Scenarios.DiagonalWin` | script.js:129-155 | X 0, O 1, X 4, O 2, X 8 wins for X on the diagonal, stops the game with X still to move, and a further click changes nothing |
| `Scenarios.TieGame` | script.js:234-240 | nine clicks that fill the board with no won line end the game in a tie with the turn not passed |
| `Scenarios.UnreachableTieBoard` | script.js:234-236 | the board X,O,X,O,X,O,O,X,O is full with no won line, but no consistent state has it |
| `Scenarios.FastClickIgnored` | script.js:134-136 | a click 299 ms after the last accepted one is dropped, and one 300 ms after is taken |
| `Scenarios.StartSanitisesNames` | script.js:92-96 | starting with "Ann" and "<Bob>" stores "Ann" and "Bob" |

## Left out

- Rendering and accessibility: `updateBoard`, `updateAriaLabels`, `closePopup`, the turn, status and winner texts, and the popup. These only display state.
- Event wiring: `initEventListeners` and the `DOMContentLoaded` bootstrap. Their effect is summarised by `Game.Event`, `Game.Apply` and `Game.Run`. The per-keystroke filter on the name fields is the same rule as `Names.ValidatePlayerName`.
- `handleVideoLoading` and its timer: background video display only.
- `playSound`, its promise and its error handling: browser audio, fire-and-forget, never affects state.
- The 100 ms `setTimeout` before the celebration sound: cosmetic sequencing.
- The clock read `new Date().getTime()`: replaced by the `now` parameter of `MakeMove`.
- `resetGame` clearing the two name input fields: those fields are page elements. Their contents reach the model only as the raw names passed to `StartGame`.
- Game.TicTacToe.MakeMove: requires `0 <= index < 9` and does not model a call with any other index.
- Names.ValidatePlayerName: counts length in Dafny characters, not the UTF-16 code units JavaScript uses, so names with characters outside the Basic Multilingual Plane are cut at a different place.
