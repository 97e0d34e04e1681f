/**
 * The game-state machine: one game object holding the configuration, the
 * score tallies, the board (an array of `n * n` cells, replaced by a fresh
 * one at every new game), whose turn it is, how many moves were made and
 * whether the game is over. Rendering, dialogs and storage are left to the
 * caller; a dialog's answer or a stored value arrives as a parameter.
 */
module TicTacToe {
  import opened Wrappers
  import opened Config
  import opened Board
  import opened WinDetector

  datatype Player = Player1 | Player2

  function Opponent(p: Player): Player {
    if p == Player1 then Player2 else Player1
  }

  /** Why a click on a cell was ignored. Out of range and occupied cells fail the same test in the game. */
  datatype MoveError = GameNotInProgress | NotAnInteger | OutOfBounds | CellOccupied

  /** What a click on a cell led to. */
  datatype MoveOutcome =
    | Rejected(reason: MoveError)
    | Won(winner: Player, line: seq<int>)
    | Tied
    | Accepted(next: Player)

  /** The tallies after `winner` wins one more game. */
  function WinCounted(s: Scores, winner: Player): Scores {
    if winner == Player1 then s.(player1 := s.player1 + 1) else s.(player2 := s.player2 + 1)
  }

  class Game {
    var prefs: Prefs
    var scores: Scores
    var board: array<Cell>
    var currentPlayer: Player
    var movesMade: int
    var gameOver: bool
    /** The contents of the default tallies object that a reset copies. */
    var defaults: Scores
    /** Whether `scores` is that same object, as it is when nothing usable was stored. */
    var scoresShared: bool

    /** The configuration is valid and the board has `n * n` cells. */
    ghost predicate WellFormed()
      reads this
    {
      ValidPrefs(prefs) && board.Length == prefs.n * prefs.n
    }

    /**
     * The game invariant: the move count is the number of occupied cells,
     * every occupied cell holds one of the two symbols, a game that is not
     * over still has an empty cell, and while the tallies are the default
     * object the two agree.
     */
    ghost predicate Valid()
      reads this, board
    {
      && WellFormed()
      && movesMade == Filled(board[..])
      && (forall i :: 0 <= i < board.Length && board[i].Some? ==>
            board[i].value == prefs.player1Symbol || board[i].value == prefs.player2Symbol)
      && (!gameOver ==> movesMade < board.Length)
      && (scoresShared ==> defaults == scores)
    }

    /** The symbol a player places; with two distinct symbols it tells the players apart. */
    function SymbolOf(p: Player): (c: char)
      reads this
      ensures c == prefs.player1Symbol || c == prefs.player2Symbol
      ensures ValidPrefs(prefs) ==> (c == prefs.player1Symbol <==> p == Player1)
    {
      if p == Player1 then prefs.player1Symbol else prefs.player2Symbol
    }

    /**
     * Start-up: sanitise the stored preferences and scores, then start a game.
     * `storedScores` is `None` when nothing was stored or it could not be
     * read; the tallies are then the default object itself.
     */
    constructor (storedPrefs: RawPrefs, storedScores: Option<RawScores>)
      ensures Valid() && fresh(board)
      ensures RepairedFrom(storedPrefs, prefs)
      ensures scores == if storedScores.Some? then SanitizeScores(storedScores.value) else DEFAULT_SCORES
      ensures defaults == DEFAULT_SCORES && scoresShared == storedScores.None?
      ensures forall i :: 0 <= i < board.Length ==> board[i].None?
      ensures movesMade == 0 && !gameOver && currentPlayer == Player1
    {
      var p := SanitizePrefs(storedPrefs);
      prefs := p;
      defaults := DEFAULT_SCORES;
      if storedScores.Some? {
        scores := SanitizeScores(storedScores.value);
        scoresShared := false;
      } else {
        scores := SanitizeScores(RawScores(Some(0), Some(0), Some(0)));
        scoresShared := true;
      }
      board := new Cell[0];
      currentPlayer := Player1;
      movesMade := 0;
      gameOver := false;
      new;
      NewGame(true);
    }

    /** A fresh empty board of `n * n` cells; the first player moves first when `resetCurrentPlayerToP1`. */
    method NewGame(resetCurrentPlayerToP1: bool)
      requires ValidPrefs(prefs) && (scoresShared ==> defaults == scores)
      modifies this
      ensures Valid() && fresh(board)
      ensures forall i :: 0 <= i < board.Length ==> board[i].None?
      ensures movesMade == 0 && !gameOver
      ensures currentPlayer == if resetCurrentPlayerToP1 then Player1 else old(currentPlayer)
      ensures prefs == old(prefs) && scores == old(scores)
      ensures defaults == old(defaults) && scoresShared == old(scoresShared)
      ensures scoresShared ==> defaults == scores
    {
      if resetCurrentPlayerToP1 {
        currentPlayer := Player1;
      }
      movesMade := 0;
      gameOver := false;
      var size := prefs.n * prefs.n;
      board := new Cell[size](_ => None);
      FilledEmpty(board[..]);
    }

    method TogglePlayer()
      modifies this`currentPlayer
      ensures currentPlayer == Opponent(old(currentPlayer))
    {
      currentPlayer := if currentPlayer == Player1 then Player2 else Player1;
    }

    /** The winner's tally goes up by one (in the default object too while it is shared) and the game ends. */
    method OnWin(winner: Player)
      modifies this`scores, this`defaults, this`gameOver
      ensures scores == WinCounted(old(scores), winner)
      ensures defaults == if scoresShared then scores else old(defaults)
      ensures gameOver
    {
      if winner == Player1 {
        scores := scores.(player1 := scores.player1 + 1);
      } else {
        scores := scores.(player2 := scores.player2 + 1);
      }
      if scoresShared {
        defaults := scores;
      }
      gameOver := true;
    }

    /** The tie tally goes up by one (in the default object too while it is shared) and the game ends. */
    method OnTie()
      modifies this`scores, this`defaults, this`gameOver
      ensures scores == old(scores).(ties := old(scores).ties + 1)
      ensures defaults == if scoresShared then scores else old(defaults)
      ensures gameOver
    {
      scores := scores.(ties := scores.ties + 1);
      if scoresShared {
        defaults := scores;
      }
      gameOver := true;
    }

    /**
     * Once the user confirms, the tallies become a copy of the default
     * object, which is no longer shared. While it was shared it held the
     * live tallies, so the copy need not be zero.
     */
    method OnResetScores(confirmed: bool)
      modifies this`scores, this`scoresShared
      ensures scores == if confirmed then old(defaults) else old(scores)
      ensures scoresShared == (old(scoresShared) && !confirmed)
    {
      if confirmed {
        scores := defaults;
        scoresShared := false;
      }
    }

    /** The reset as intended: once the user confirms, every tally is zero. */
    method ResetScoresToZero(confirmed: bool)
      modifies this`scores, this`scoresShared
      ensures scores == if confirmed then Scores(0, 0, 0) else old(scores)
      ensures scoresShared == (old(scoresShared) && !confirmed)
    {
      if confirmed {
        scores := DEFAULT_SCORES;
        scoresShared := false;
      }
    }

    /** The scan from `(startRow, startCol)` along `(dr, dc)` over the cells holding `symbol`. */
    method CollectLine(startRow: int, startCol: int, dr: int, dc: int, symbol: char, n: int) returns (acc: seq<Pos>)
      requires IsDir(Dir(dr, dc)) && board.Length == n * n
      ensures acc == Run(board[..], n, Pos(startRow, startCol), Dir(dr, dc), symbol)
    {
      var d: Direction := Dir(dr, dc);
      ghost var cells := board[..];
      ghost var start := Pos(startRow, startCol);
      var r := startRow + dr;
      var c := startCol + dc;
      acc := [];
      while 0 <= r < n && 0 <= c < n
        invariant acc + Run(cells, n, Pos(r - dr, c - dc), d, symbol) == Run(cells, n, start, d, symbol)
        decreases Budget(n, Pos(r, c), d)
      {
        var i := r * n + c;
        IndexBound(n, Pos(r, c));
        ghost var prev := Pos(r - dr, c - dc);
        assert Step(prev, d) == Pos(r, c);
        if board[i] == Some(symbol) {
          assert Run(cells, n, prev, d, symbol) == [Pos(r, c)] + Run(cells, n, Pos(r, c), d, symbol);
          acc := acc + [Pos(r, c)];
          r := r + dr;
          c := c + dc;
        } else {
          assert Run(cells, n, prev, d, symbol) == [];
          break;
        }
      }
      assert Run(cells, n, Pos(r - dr, c - dc), d, symbol) == [] by {
        assert Step(Pos(r - dr, c - dc), d) == Pos(r, c);
      }
    }

    /** The winning line through `index` for `symbol`, trying the four directions in order. */
    method GetWinningLine(index: int, symbol: char) returns (line: Option<seq<int>>)
      requires WellFormed() && 0 <= index < board.Length
      ensures line == WinningLine(board[..], prefs.n, prefs.k, index, symbol)
    {
      var n := prefs.n;
      var k := prefs.k;
      var row := index / n;
      var col := index % n;
      ghost var cells := board[..];
      ghost var lines := LinesThrough(cells, n, Pos(row, col), symbol);
      assert Pos(row, col) == CellPos(n, index);
      for t := 0 to |DIRECTIONS|
        invariant FirstLong(lines, n, k, t) == FirstLong(lines, n, k, 0)
      {
        var d := DIRECTIONS[t];
        var forward := CollectLine(row, col, d.dr, d.dc, symbol, n);
        var backward := CollectLine(row, col, -d.dr, -d.dc, symbol, n);
        assert Dir(-d.dr, -d.dc) == Neg(d);
        var full := Reverse(backward) + [Pos(row, col)] + forward;
        assert full == lines[t];
        if |full| >= k {
          return Some(Indices(n, full));
        }
      }
      return None;
    }

    method IsWinningMove(index: int, symbol: char) returns (wins: bool)
      requires WellFormed() && 0 <= index < board.Length
      ensures wins <==> WinningLine(board[..], prefs.n, prefs.k, index, symbol).Some?
    {
      var line := GetWinningLine(index, symbol);
      wins := line.Some?;
    }

    /**
     * A click on cell `index` (`None` when the cell's index does not parse).
     * Ignored when the game is over or the cell is not an empty cell of the
     * board; otherwise the current player's symbol is placed, and the game is
     * won, tied (board full) or passed to the other player.
     */
    method OnCellClick(index: Option<int>) returns (outcome: MoveOutcome)
      requires Valid()
      modifies this, board
      ensures Valid()
      ensures board == old(board) && prefs == old(prefs) && scoresShared == old(scoresShared)
      ensures defaults == if scoresShared then scores else old(defaults)
      ensures (outcome.Rejected?
               <==> old(gameOver) || index.None? || !(0 <= index.value < board.Length) || old(board[index.value]).Some?)
      ensures outcome == Rejected(GameNotInProgress) <==> old(gameOver)
      ensures (outcome.Rejected? ==>
                && board[..] == old(board[..]) && movesMade == old(movesMade)
                && currentPlayer == old(currentPlayer) && gameOver == old(gameOver) && scores == old(scores))
      ensures (!outcome.Rejected? ==>
                var i := index.value;
                var symbol := old(SymbolOf(currentPlayer));
                var line := WinningLine(board[..], prefs.n, prefs.k, i, symbol);
                && board[..] == old(board[..])[i := Some(symbol)]
                && movesMade == old(movesMade) + 1
                && (outcome.Won? <==> line.Some?)
                && (outcome.Tied? <==> line.None? && movesMade >= board.Length)
                && (outcome.Won? ==>
                      && outcome == Won(old(currentPlayer), line.value)
                      && prefs.k <= |outcome.line| && i in outcome.line
                      && gameOver && currentPlayer == old(currentPlayer)
                      && scores == WinCounted(old(scores), old(currentPlayer)))
                && (outcome.Tied? ==>
                      && (forall j :: 0 <= j < board.Length ==> board[j].Some?)
                      && gameOver && currentPlayer == old(currentPlayer)
                      && scores == old(scores).(ties := old(scores).ties + 1))
                && (outcome.Accepted? ==>
                      && !gameOver && currentPlayer == Opponent(old(currentPlayer))
                      && outcome.next == currentPlayer && scores == old(scores)))
    {
      if gameOver {
        return Rejected(GameNotInProgress);
      }
      if index.None? {
        return Rejected(NotAnInteger);
      }
      var i := index.value;
      if !(0 <= i < board.Length) {
        return Rejected(OutOfBounds);
      }
      if board[i].Some? {
        return Rejected(CellOccupied);
      }
      var symbol := SymbolOf(currentPlayer);
      FilledPlace(board[..], i, symbol);
      board[i] := Some(symbol);
      movesMade := movesMade + 1;
      var line := GetWinningLine(i, symbol);
      if line.Some? {
        assert prefs.k <= |line.value| && i in line.value by {
          WinningLineSound(board[..], prefs.n, prefs.k, i, symbol, line.value);
        }
        OnWin(currentPlayer);
        return Won(currentPlayer, line.value);
      }
      if movesMade >= board.Length {
        assert forall j :: 0 <= j < board.Length ==> board[j].Some? by {
          FilledFull(board[..]);
        }
        OnTie();
        return Tied;
      }
      TogglePlayer();
      return Accepted(currentPlayer);
    }

    /**
     * Submitted settings: refused, with nothing changed, when the two symbols
     * coincide; otherwise they become the configuration and a new game starts.
     */
    method ApplySettings(nInput: Option<int>, kInput: Option<int>,
                         p1Input: Option<string>, p2Input: Option<string>) returns (result: Result<Prefs, ConfigError>)
      requires Valid()
      modifies this
      ensures Valid()
      ensures result == ValidateSettings(old(prefs), nInput, kInput, p1Input, p2Input)
      ensures scores == old(scores) && defaults == old(defaults) && scoresShared == old(scoresShared)
      ensures (result.Failure? ==>
                && result.error == SymbolCollision
                && prefs == old(prefs) && board == old(board) && board[..] == old(board[..])
                && movesMade == old(movesMade) && currentPlayer == old(currentPlayer) && gameOver == old(gameOver))
      ensures (result.Success? ==>
                && prefs == result.value && fresh(board)
                && (forall i :: 0 <= i < board.Length ==> board[i].None?)
                && movesMade == 0 && !gameOver && currentPlayer == Player1)
    {
      result := ValidateSettings(prefs, nInput, kInput, p1Input, p2Input);
      if result.Success? {
        prefs := result.value;
        NewGame(true);
      }
    }
  }

  /**
   * With nothing stored, player 1 wins a game and the user confirms the
   * reset: the tallies come back as one win for player 1, not zero.
   */
  method ResetAfterFirstWin(storedPrefs: RawPrefs) returns (s: Scores)
    ensures s == Scores(1, 0, 0)
  {
    var game := new Game(storedPrefs, None);
    game.OnWin(Player1);
    game.OnResetScores(true);
    s := game.scores;
  }

  /** The same session with the intended reset ends with every tally at zero. */
  method ZeroResetAfterFirstWin(storedPrefs: RawPrefs) returns (s: Scores)
    ensures s == Scores(0, 0, 0)
  {
    var game := new Game(storedPrefs, None);
    game.OnWin(Player1);
    game.ResetScoresToZero(true);
    s := game.scores;
  }
}
