# k-in-a-row: game state, win detection and settings

A Dafny model of the browser game in `assets/scripts/main.js`: two players
place their symbols on an `n x n` board (`3 <= n <= 10`); the first to align
`k` of them (`3 <= k <= n`) in a row, column or diagonal wins, and a full board
with no alignment is a tie. The model covers

- **Config** (`config.dfy`): the preferences (`n`, `k`, two symbols) and the
  score tallies, the helpers `clampNumber`, `toInt` and `normalizeSymbol`
  (with `String.prototype.trim` over the ECMAScript whitespace set), the
  silent repair of values restored from storage, and the strict check of the
  settings a user submits.
- **Board** (`board.dfy`): row-major cell indices and positions, and the
  count of occupied cells.
- **WinDetector** (`windetector.dfy`): the scan along one direction
  (`collectLine`) as the function `Run`, the full line through a cell, and
  the winning line (`getWinningLine`) as the function `WinningLine`, with
  lemmas for its soundness, completeness and direction tie-break.
- **TicTacToe** (`tictactoe.dfy`): the class `Game`, whose fields are the
  mutable state of the script (`prefs`, `scores`, `board` as an array,
  `currentPlayer`, `movesMade`, `gameOver`, and the default tallies object
  `defaults` with a flag saying whether `scores` is that very object). The
  methods are the script's functions: the event handlers `OnCellClick`,
  `ApplySettings` and `OnResetScores`, `NewGame`, and the helpers they call.
  `CollectLine` and `GetWinningLine` are loops proved equal to `Run` and
  `WinningLine`. `Valid()` is the game invariant. The constructor, `NewGame`,
  `OnCellClick` and `ApplySettings` establish or keep it: `movesMade` is the
  number of occupied cells, occupied cells hold one of the two symbols, a
  running game has an empty cell, and shared tallies agree with the default
  object.
- **Wrappers** (`wrappers.dfy`): `Option` and `Result`.

Values from outside the program arrive as parameters. A number read with
`parseInt` is an `Option<int>`, where `None` means the read gave NaN or the
value was missing. A symbol input is an `Option<string>`, where `None` means
a falsy value. Stored scores are an `Option<RawScores>`, where `None` means
that `loadFromStorage` returned its fallback. The answer to the
reset-scores dialog is a `bool`.

Where the code and the design description differ, the code is followed:

- The `k > n` test in `onApplySettings` runs after `k` has already been
  clamped to `[3, newN]`. The `InvalidAlignment` error is therefore
  unreachable. The model keeps the test and proves that it never fails.
- A tie is declared when `movesMade >= board.length`, not when the two are
  equal. Under `Valid()` the two tests agree.
- The game object updates the score tallies itself (`onWin`, `onTie`). It
  does not leave that to a collaborator.
- Stored tallies are taken as read, so they may be negative.

## Model

| member | source | states |
|---|---|---|
| Config.TrimStart | assets/scripts/main.js:474 | the result is a suffix of the input; every removed character is whitespace; the result is empty or starts with a non-whitespace character |
| Config.TrimEnd | assets/scripts/main.js:474 | the result is a prefix of the input; every removed character is whitespace; the result is empty or ends with a non-whitespace character |
| Config.Trim | assets/scripts/main.js:474 | the result is empty or starts and ends with a non-whitespace character (what is removed at each end is stated by `TrimStart` and `TrimEnd`) |
| Config.ToInt | assets/scripts/main.js:467-470 | a readable number is returned as read; an unreadable one gives the fallback |
| Config.NormalizeSymbol | assets/scripts/main.js:472-477 | a symbol it yields is never whitespace |
| Config.NormalizeSymbolIsFirstNonSpace | assets/scripts/main.js:472-477 | no symbol exactly when the input is all whitespace; otherwise the symbol is the input's first non-whitespace character |
| Config.NormalizeSingle | assets/scripts/main.js:472-477 | a single non-whitespace character normalises to itself |
| Config.NormalizeSymbolIdempotent | assets/scripts/main.js:472-477 | normalising a normalised symbol gives it back |
| Config.ClampNumber | assets/scripts/main.js:461-470 | the result is at least `min`, at most `max` when `min <= max`; an unreadable value gives `min`; a value in range is kept; one below gives `min`, one above gives `max` (or `min` when `min > max`) |
| Config.ClampNumberIdempotent | assets/scripts/main.js:461-465 | clamping a clamped value changes nothing |
| Config.SymbolOr | assets/scripts/main.js:81-82 | a falsy input gives the default; the symbol is the default or a non-whitespace character |
| Config.SymbolOrIsFirstNonSpace | assets/scripts/main.js:158-159 | the symbol is the first non-whitespace character of the input, or the default when there is none |
| Config.SanitizePrefs | assets/scripts/main.js:78-85 | the repaired preferences are valid (3 <= n <= 10, 3 <= k <= n, two distinct non-whitespace symbols) and are exactly the repair of the stored values: `n` is the stored `n` clamped into [3, 10] (kept in range, 3 below or unreadable, 10 above), `k` the stored `k` clamped into [3, n] (kept in range, 3 below or unreadable, `n` above); the symbols are the normalised inputs or X and O, and a second symbol equal to the first becomes O when the first is X and X otherwise |
| Config.SanitizeScores | assets/scripts/main.js:87-90 | each readable stored tally is kept and each unreadable one is 0 |
| Config.ValidateSettings | assets/scripts/main.js:155-184 | success yields valid preferences with the normalised symbols; `n` is the submitted `n` (the current one when unreadable) clamped into [3, 10], so 3 below and 10 above; `k` is the submitted `k` (the current one when unreadable) clamped into [3, n], so 3 below and `n` above; `SymbolCollision` exactly when the two symbols are equal; `InvalidAlignment` never occurs |
| Config.ValidateSettingsKeepsCurrent | assets/scripts/main.js:155-184 | resubmitting the current valid settings succeeds with exactly them |
| Board.IndexBound | assets/scripts/main.js:445 | a position on the board has an index in `[0, n*n)` |
| Board.CellPos | assets/scripts/main.js:419-420 | the (row, column) of an index maps back to the index, and lies on the board for an index in range |
| Board.Filled | assets/scripts/main.js:283 | the number of occupied cells is at most the number of cells |
| Board.FilledFull | assets/scripts/main.js:301 | the count equals the board size exactly when every cell is occupied |
| Board.FilledEmpty | assets/scripts/main.js:212 | an empty board has count 0 |
| Board.FilledPlace | assets/scripts/main.js:282-283 | filling an empty cell adds exactly one to the count |
| WinDetector.Run | assets/scripts/main.js:440-455 | the scan is shorter than `Budget`: the rows left along the step (the columns left for a horizontal step), an upper bound on the steps that stay on the board; that every position is on the board is stated by `RunShape` |
| WinDetector.RunShape | assets/scripts/main.js:440-455 | a scan yields on-board positions holding the symbol, the first one step from the start, each one step from the one before, and stops where the next position is off the board or holds something else |
| WinDetector.Reverse | assets/scripts/main.js:432 | reversal keeps the length |
| WinDetector.ReverseIndex | assets/scripts/main.js:432 | element `i` of the reversal is element `len-1-i` of the input |
| WinDetector.FullRun | assets/scripts/main.js:432 | the full line is the backward run, the cell, then the forward run, with the cell right after the backward run |
| WinDetector.Indices | assets/scripts/main.js:434 | each position is mapped to its index `r * n + c`, in the same order |
| WinDetector.FirstLong | assets/scripts/main.js:429-437 | a line it reports is at least `k` long |
| WinDetector.WinningLine | assets/scripts/main.js:416-438 | a reported line is at least `k` long |
| WinDetector.LinesThrough | assets/scripts/main.js:422-432 | one full line per direction, four in all |
| WinDetector.FullRunSteps | assets/scripts/main.js:430-432 | consecutive positions of the full line are one step along the direction apart |
| WinDetector.FullRunHolds | assets/scripts/main.js:430-432 | every position of the full line other than the played cell holds the symbol |
| WinDetector.FullRunShape | assets/scripts/main.js:429-432 | the full line through a cell contains it, steps along one direction, holds the symbol everywhere else, and cannot be extended at either end |
| WinDetector.RunCovers | assets/scripts/main.js:440-455 | any straight run of the symbol starting one step from `p` is no longer than the scan from `p` |
| WinDetector.FullRunMaximal | assets/scripts/main.js:429-432 | every straight run of the symbol through a cell along a direction fits inside the full line through it |
| WinDetector.IndexStep | assets/scripts/main.js:434 | one step along `(dr, dc)` moves the index by `dr*n + dc` |
| WinDetector.FirstLongNone | assets/scripts/main.js:429-437 | the search finds nothing exactly when every remaining line is shorter than `k` |
| WinDetector.FirstLongFirst | assets/scripts/main.js:429-436 | the search reports the first line that reaches `k` |
| WinDetector.FirstLongWitness | assets/scripts/main.js:429-436 | a reported line is that of some direction that reaches `k`, with every earlier direction's line shorter |
| WinDetector.WinningLineFirstQualifying | assets/scripts/main.js:422-437 | `null` exactly when no direction's full line reaches `k`; otherwise the line of the first direction in the order horizontal, vertical, diagonal, anti-diagonal that does |
| WinDetector.WinningLineSound | assets/scripts/main.js:416-438 | a reported line is at least `k` long, contains the played index, every cell of it holds the symbol, and it is a straight line along one direction whose consecutive indices differ by `dr*n + dc` |
| WinDetector.WinningLineComplete | assets/scripts/main.js:416-438 | when no line is reported, every straight run of the symbol through the played cell along any of the four directions is shorter than `k` |
| TicTacToe.Game.SymbolOf | assets/scripts/main.js:280-281 | the mover's symbol is one of the two configured symbols, and with distinct symbols it is player 1's exactly for player 1 |
| TicTacToe.Game.constructor | assets/scripts/main.js:78-106 | start-up: the preferences are exactly the repair of the stored ones; the tallies are the stored ones read as integers, or, when nothing usable was stored, the zero default object itself (shared); an empty board, player 1 to move, the game invariant holds |
| TicTacToe.Game.NewGame | assets/scripts/main.js:205-215 | a fresh empty board of `n*n` cells, no moves, game not over, player 1 to move when asked, preferences and tallies unchanged, the game invariant holds |
| TicTacToe.Game.TogglePlayer | assets/scripts/main.js:324-326 | the other player is to move |
| TicTacToe.Game.OnWin | assets/scripts/main.js:339-348 | the winner's tally goes up by one, in the default object too while it is shared, and the game is over |
| TicTacToe.Game.OnTie | assets/scripts/main.js:371-375 | the tie tally goes up by one, in the default object too while it is shared, and the game is over |
| TicTacToe.Game.OnResetScores | assets/scripts/main.js:397-399 | on confirmation the tallies become a copy of the default object's current contents and stop being shared; otherwise unchanged |
| TicTacToe.Game.ResetScoresToZero | assets/scripts/main.js:397-399 | the intended reset: on confirmation every tally is zero; otherwise unchanged |
| TicTacToe.ResetAfterFirstWin | assets/scripts/main.js:16-24 | with nothing stored, a win for player 1 followed by a confirmed reset leaves the tallies at one win for player 1 |
| TicTacToe.ZeroResetAfterFirstWin | assets/scripts/main.js:397-405 | the same session with the intended reset leaves every tally at zero |
| TicTacToe.Game.CollectLine | assets/scripts/main.js:440-455 | the loop returns exactly the scan `Run` from the start cell along the direction |
| TicTacToe.Game.GetWinningLine | assets/scripts/main.js:416-438 | the loop over the four directions returns exactly `WinningLine` of the board |
| TicTacToe.Game.IsWinningMove | assets/scripts/main.js:457-459 | true exactly when a winning line exists |
| TicTacToe.Game.OnCellClick | assets/scripts/main.js:273-308 | a click is rejected exactly when the game is over, the index is not an integer or not on the board, or the cell is occupied, and a rejected click changes nothing; an accepted click sets exactly that cell to the mover's symbol and adds one move; it then wins exactly when a winning line exists (line at least `k` long, containing the cell, winner's tally +1, also in the default object while shared), ties exactly when there is none and the board is full (tie tally +1, likewise), and otherwise passes the turn; the game invariant is kept |
| TicTacToe.Game.ApplySettings | assets/scripts/main.js:149-191 | the outcome is `ValidateSettings` of the current preferences; on a symbol collision nothing changes; on success the new preferences are installed and a new game starts with player 1; tallies unchanged |

## Findings

| source | as written | input that shows it | evidently intended | confidence | as-written member | corrected member |
|---|---|---|---|---|---|---|
| assets/scripts/main.js:19 | with nothing stored (or storage failing, lines 21-22), `loadFromStorage` returns the `defaultScores` object itself (line 87), so wins and ties (lines 341, 343, 372) also raise `defaultScores`, and the reset `{ ...defaultScores }` (line 399) copies the live tallies | first visit, player 1 wins, the user confirms the reset: the tallies read 1, 0, 0, and later resets restore that value too | the confirmed reset sets every tally to zero, as its dialog announces | high, not executed | TicTacToe.ResetAfterFirstWin | TicTacToe.ZeroResetAfterFirstWin |

`OnResetScores` models the code as written. `ResetScoresToZero` is the
corrected reset.

## Left out

- Rendering, focus handling and keyboard navigation of the grid are not modelled. They only touch the page.
- `lastMoveIndex` is not modelled. It only feeds the highlight of the last move.
- The highlight of the winning cells in `onWin` is not modelled. `OnWin` therefore takes no line.
- Local storage and JSON are not modelled: `loadFromStorage` and `saveToStorage`. Stored values arrive already parsed, as `RawPrefs` and as `Option<RawScores>`, where `None` stands for the fallback object. If the stored JSON is not an object, the script fails on the field assignments; the model does not capture that.
- The stored preferences can also be the `defaultPrefs` object itself. This alias has no visible effect, because `defaultPrefs` is read only at load.
- TicTacToe.Game.OnWin (and `OnTie`): the tallies are unbounded integers. In the script they are JavaScript numbers, and `toInt` keeps any finite stored value. From 2^53 on, the script's `+= 1` is lost, while the model still adds one.
- Dialogs and their asynchronous callbacks are not modelled. A new game after a win or a tie is a separate `NewGame(true)` call by the caller. The reset confirmation is a `bool` parameter of `OnResetScores`.
- Config.ClampNumber: the input is `parseInt`'s result as an `Option<int>`, not a string. JavaScript's rules for reading a string prefix as a number are not modelled. The `Number.isNaN` test after `toInt` cannot fail and has no counterpart.
- Config.ValidateSettings: `clampNumber` parses again the number that `toInt` already produced, through its string form. For a number of magnitude 10^21 or more that form is exponential, and only its leading digit is read. The script therefore turns a submitted `n` of 10^21 into 3, while the model gives 10. Floating-point rounding of large inputs is not modelled either.
- Config.NormalizeSymbol: `String(value)` on values that are not strings is not modelled. JavaScript's `s[0]` is a UTF-16 code unit, while a Dafny `char` is a Unicode scalar value. For a symbol outside the Basic Multilingual Plane, the script keeps only half of a surrogate pair; the model keeps the whole character. The visible consequence: two such symbols with the same high surrogate, for example U+1F600 and U+1F601, collide in the script's symbol check, while the model accepts them as distinct.
- TicTacToe.Game.OnCellClick: the cell's `data-index` attribute is the `Option<int>` that `parseInt` yields. Reading it from the DOM is not modelled.
