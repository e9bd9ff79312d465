/**
 * The state behind the chess screen and its event handlers: taps on the
 * board, the notation field with its Save Game button, the list of saved
 * games and the Previous Move / Next Move buttons.
 */
module ChessScreen {
  import opened Faults
  import opened ChessBoard
  import opened MoveReplay
  import opened MoveNotation

  /** The highest move index navigation reaches in a game of `n` moves. */
  function LastIndex(n: nat): nat {
    if n == 0 then 0 else n - 1
  }

  /**
   * The loop of the Save Game button: the text is cut into windows of five
   * characters at offsets 0, 5, 10, ...; each window is trimmed and, when
   * exactly five characters remain, read as a move. The first rank character
   * that is not a digit raises.
   */
  method ReadMoves(text: string) returns (r: Result<seq<Move>>)
    ensures r == Parse(text)
  {
    var moves: seq<Move> := [];
    var index := 0;
    assert Parse(text) == Extend(moves, Parse(text[Min(index, |text|)..])) by {
      assert text[Min(index, |text|)..] == text;
      if Parse(text).Ok? {
        assert moves + Parse(text).value == Parse(text).value;
      }
    }
    while index < |text|
      invariant 0 <= index
      invariant Parse(text) == Extend(moves, Parse(text[Min(index, |text|)..]))
      decreases |text| - index
    {
      var window := text[index..Min(index + 5, |text|)];
      ParseStep(text, index, moves);
      var moveString := Trim(window);
      if |moveString| == 5 {
        var move := ParseToken(moveString);
        if move.Err? {
          return Err(move.fault);
        }
        moves := moves + [move.value];
      }
      index := index + 5;
    }
    assert Parse(text) == Ok(moves) by {
      assert text[Min(index, |text|)..] == [];
      assert moves + [] == moves;
    }
    return Ok(moves);
  }

  /**
   * What the board shows after replaying one move more than `shown`: the
   * next position when that move stays on the board, the current one
   * otherwise.
   */
  lemma ReplayOneMore(game: seq<Move>, shown: nat, next: nat, fault: Option<Fault>, b: Grid)
    requires next == shown + 1 <= |game| && PrefixOnBoard(game, shown)
    requires fault.None? <==> PrefixOnBoard(game, next)
    requires fault.None? ==> b == Replay(game, next)
    requires fault.Some? ==> CleanPrefix(game) < next && b == Replay(game, CleanPrefix(game))
    ensures fault.None? <==> MoveOnBoard(game[shown])
    ensures fault.Some? ==> b == Replay(game, shown)
  {
    PrefixOnBoardStep(game, shown);
    if fault.Some? {
      CleanPrefixBound(game, shown);
    }
  }

  class ChessSession {
    /** The board on screen. */
    var board: Grid
    /** Notations of the moves made by tapping, oldest first. */
    var moveHistory: seq<string>
    /** Saved games, in the order they were saved. */
    var gameHistory: seq<seq<Move>>
    /** The game picked from the list, if any. */
    var currentGameIndex: Option<nat>
    /** How many moves of the picked game the board shows. */
    var currentMoveIndex: int
    /** Contents of the notation field. */
    var inputText: string
    /** The square tapped first, waiting for a destination. */
    var selected: Option<(int, int)>
    /** The exception that ended the app, if one has been raised. */
    var halted: Option<Fault>

    ghost predicate Valid()
      reads this
    {
      && IsBoard(board)
      && (selected.Some? ==> OnBoard(selected.value.0, selected.value.1))
      && (currentGameIndex.None? ==> currentMoveIndex == 0)
      && (currentGameIndex.Some? ==>
            && currentGameIndex.value < |gameHistory|
            && 0 <= currentMoveIndex <= LastIndex(|gameHistory[currentGameIndex.value]|)
            && (halted.None? ==> PrefixOnBoard(gameHistory[currentGameIndex.value], currentMoveIndex)))
    }

    /** The screen as first composed: starting position, nothing recorded, nothing selected. */
    constructor ()
      ensures Valid() && halted.None?
      ensures board == InitialBoard() && moveHistory == [] && gameHistory == []
      ensures currentGameIndex.None? && currentMoveIndex == 0 && inputText == "" && selected.None?
    {
      var initial := NewInitialBoard();
      board := initial;
      moveHistory := [];
      gameHistory := [];
      currentGameIndex := None;
      currentMoveIndex := 0;
      inputText := "";
      selected := None;
      halted := None;
    }

    /**
     * A tap on a square. With nothing selected, an occupied square becomes
     * the selection and an empty one is ignored. With a square selected, the
     * move from it to the tapped square is always accepted: its notation is
     * appended to the move history, the board changes and the selection is
     * cleared.
     */
    method Tap(row: int, col: int)
      requires Valid() && halted.None? && OnBoard(row, col)
      modifies this`selected, this`moveHistory, this`board
      ensures Valid() && halted.None?
      ensures old(selected).None? ==>
                && board == old(board) && moveHistory == old(moveHistory)
                && selected == (if old(board)[row][col].Some? then Some((row, col)) else None)
      ensures old(selected).Some? ==>
                var m := Move(old(selected).value.0, old(selected).value.1, row, col);
                && selected.None?
                && board == ApplyMove(old(board), m)
                && moveHistory == old(moveHistory) + [Notate(m, old(board)[m.fromRow][m.fromCol])]
    {
      if selected.None? {
        if board[row][col].Some? {
          selected := Some((row, col));
        }
      } else {
        var (fromRow, fromCol) := selected.value;
        if IsValidMove(board, fromRow, fromCol, row, col) {
          var m := Move(fromRow, fromCol, row, col);
          var movingPiece := board[fromRow][fromCol];
          moveHistory := moveHistory + [Notate(m, movingPiece)];
          board := ApplyMove(board, m);
        }
        selected := None;
      }
    }

    /** Typing into the notation field. */
    method EditInput(text: string)
      requires Valid() && halted.None?
      modifies this`inputText
      ensures Valid() && halted.None? && inputText == text
    {
      inputText := text;
    }

    /**
     * The Save Game button: the field is read in five-character windows and
     * exactly one game, possibly empty, is appended; the field is then
     * cleared. A non-digit in a rank position raises an exception instead,
     * and nothing is saved.
     */
    method SaveGame()
      requires Valid() && halted.None?
      modifies this`gameHistory, this`inputText, this`halted
      ensures Valid()
      ensures Parse(old(inputText)).Ok? ==>
                gameHistory == old(gameHistory) + [Parse(old(inputText)).value] && inputText == "" && halted.None?
      ensures Parse(old(inputText)).Err? ==>
                gameHistory == old(gameHistory) && inputText == old(inputText) && halted == Some(Parse(old(inputText)).fault)
    {
      var read := ReadMoves(inputText);
      if read.Err? {
        halted := Some(read.fault);
        return;
      }
      gameHistory := gameHistory + [read.value];
      inputText := "";
    }

    /** A game picked from the list: its move index is reset and the starting position is shown. */
    method SelectGame(index: nat)
      requires Valid() && halted.None? && index < |gameHistory|
      modifies this`currentGameIndex, this`currentMoveIndex, this`board
      ensures Valid() && halted.None?
      ensures currentGameIndex == Some(index) && currentMoveIndex == 0
      ensures board == InitialBoard()
    {
      currentGameIndex := Some(index);
      currentMoveIndex := 0;
      var b, _ := ApplyMoveToBoard(gameHistory[index], 0);
      board := b;
    }

    /**
     * The Previous Move button: with a game picked and index above zero, the
     * index goes down by one and the board is replayed to it; otherwise
     * nothing happens. It never raises.
     */
    method Previous()
      requires Valid() && halted.None?
      modifies this`currentMoveIndex, this`board
      ensures Valid() && halted.None?
      ensures old(currentGameIndex).Some? && old(currentMoveIndex) > 0 ==>
                && currentMoveIndex == old(currentMoveIndex) - 1
                && board == Replay(gameHistory[currentGameIndex.value], currentMoveIndex)
      ensures !(old(currentGameIndex).Some? && old(currentMoveIndex) > 0) ==>
                currentMoveIndex == old(currentMoveIndex) && board == old(board)
    {
      if currentGameIndex.Some? && currentMoveIndex > 0 {
        var previous := currentMoveIndex - 1;
        var b, _ := ApplyMoveToBoard(gameHistory[currentGameIndex.value], previous);
        currentMoveIndex := previous;
        board := b;
      }
    }

    /**
     * The Next Move button: with a game picked and the index below the
     * game's size minus one, the index goes up by one and the board is
     * replayed to it; otherwise nothing happens. The index therefore never
     * reaches the game's size, and the board never shows the game's last
     * move. Replaying a move that leaves the board raises an index error.
     */
    method Next()
      requires Valid() && halted.None?
      modifies this`currentMoveIndex, this`board, this`halted
      ensures Valid()
      ensures currentGameIndex.Some? && |gameHistory[currentGameIndex.value]| > 0 ==>
                currentMoveIndex < |gameHistory[currentGameIndex.value]|
      ensures !(old(currentGameIndex).Some? && old(currentMoveIndex) < |gameHistory[old(currentGameIndex).value]| - 1) ==>
                currentMoveIndex == old(currentMoveIndex) && board == old(board) && halted.None?
      ensures old(currentGameIndex).Some? && old(currentMoveIndex) < |gameHistory[old(currentGameIndex).value]| - 1 ==>
                var game := gameHistory[currentGameIndex.value];
                && currentMoveIndex == old(currentMoveIndex) + 1
                && (halted.None? <==> MoveOnBoard(game[old(currentMoveIndex)]))
                && (halted.None? ==> board == Replay(game, currentMoveIndex))
                && (halted.Some? ==> halted == Some(IndexOutOfBounds) && board == Replay(game, old(currentMoveIndex)))
    {
      if currentGameIndex.Some? && currentMoveIndex < |gameHistory[currentGameIndex.value]| - 1 {
        var game := gameHistory[currentGameIndex.value];
        var shown := currentMoveIndex;
        var next := shown + 1;
        var b, fault := ApplyMoveToBoard(game, next);
        ReplayOneMore(game, shown, next, fault, b);
        currentMoveIndex := next;
        board := b;
        if fault.Some? {
          halted := fault;
        }
      }
    }
  }
}
