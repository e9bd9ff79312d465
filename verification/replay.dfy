/**
 * Rebuilding the board of a saved game at a given move index by replaying
 * the game's first moves from the starting position.
 */
module MoveReplay {
  import opened Faults
  import opened ChessBoard

  /** The first `k` moves all stay on the board, so replaying them raises nothing. */
  predicate PrefixOnBoard(moves: seq<Move>, k: nat)
    requires k <= |moves|
  {
    forall i :: 0 <= i < k ==> MoveOnBoard(moves[i])
  }

  /** A clean prefix grows by one exactly when the next move stays on the board. */
  lemma PrefixOnBoardStep(moves: seq<Move>, k: nat)
    requires k < |moves| && PrefixOnBoard(moves, k)
    ensures PrefixOnBoard(moves, k + 1) <==> MoveOnBoard(moves[k])
  {
  }

  /** The board after the first `k` moves, starting from the standard position. */
  function Replay(moves: seq<Move>, k: nat): (b: Grid)
    requires k <= |moves| && PrefixOnBoard(moves, k)
    ensures IsBoard(b)
    decreases k
  {
    if k == 0 then InitialBoard() else ApplyMove(Replay(moves, k - 1), moves[k - 1])
  }

  /** One more move on the board extends the replay by that move. */
  lemma ReplayStep(moves: seq<Move>, i: nat)
    requires i < |moves| && PrefixOnBoard(moves, i) && MoveOnBoard(moves[i])
    ensures PrefixOnBoard(moves, i + 1)
    ensures Replay(moves, i + 1) == ApplyMove(Replay(moves, i), moves[i])
  {
  }

  /**
   * Length of the longest prefix of `moves` whose moves all stay on the
   * board: replay raises an index error at move `CleanPrefix(moves)`, if any.
   */
  function CleanPrefix(moves: seq<Move>): (n: nat)
    ensures n <= |moves|
    ensures PrefixOnBoard(moves, n)
    ensures n < |moves| ==> !MoveOnBoard(moves[n])
  {
    if moves == [] || !MoveOnBoard(moves[0]) then 0 else 1 + CleanPrefix(moves[1..])
  }

  /** Replaying `k` moves raises nothing exactly when `k` is within the clean prefix. */
  lemma CleanPrefixBound(moves: seq<Move>, k: nat)
    requires k <= |moves|
    ensures PrefixOnBoard(moves, k) <==> k <= CleanPrefix(moves)
  {
  }

  /** The first move that leaves the board ends the clean prefix. */
  lemma CleanPrefixAt(moves: seq<Move>, i: nat)
    requires i < |moves| && PrefixOnBoard(moves, i) && !MoveOnBoard(moves[i])
    ensures CleanPrefix(moves) == i
  {
    CleanPrefixBound(moves, i);
    CleanPrefixBound(moves, i + 1);
  }

  /**
   * Rebuilds the board shown at move index `moveIndex`: the starting
   * position, then the first `moveIndex` moves one at a time. A move that
   * leaves the board raises an index error; the board then holds the moves
   * before it.
   */
  method ApplyMoveToBoard(moves: seq<Move>, moveIndex: nat) returns (board: Grid, fault: Option<Fault>)
    requires moveIndex <= |moves|
    ensures fault.None? <==> PrefixOnBoard(moves, moveIndex)
    ensures fault.None? ==> board == Replay(moves, moveIndex)
    ensures fault.Some? ==> fault.value == IndexOutOfBounds
    ensures fault.Some? ==> CleanPrefix(moves) < moveIndex && board == Replay(moves, CleanPrefix(moves))
  {
    board := NewInitialBoard();
    var i := 0;
    while i < moveIndex
      invariant 0 <= i <= moveIndex
      invariant PrefixOnBoard(moves, i)
      invariant board == Replay(moves, i)
    {
      var move := moves[i];
      if !MoveOnBoard(move) {
        CleanPrefixAt(moves, i);
        return board, Some(IndexOutOfBounds);
      }
      ReplayStep(moves, i);
      board := ApplyMove(board, move);
      i := i + 1;
    }
    CleanPrefixBound(moves, moveIndex);
    return board, None;
  }

  /**
   * The board at index `k` depends only on the first `k` moves: what a game
   * holds after them, and any other game, cannot change it.
   */
  lemma {:induction false} ReplayPrefixOnly(moves: seq<Move>, other: seq<Move>, k: nat)
    requires k <= |moves| && k <= |other| && moves[..k] == other[..k]
    requires PrefixOnBoard(moves, k)
    ensures PrefixOnBoard(other, k)
    ensures Replay(moves, k) == Replay(other, k)
  {
    assert forall i :: 0 <= i < k ==> moves[i] == moves[..k][i] == other[..k][i] == other[i];
    if k > 0 {
      assert moves[..k - 1] == moves[..k][..k - 1] == other[..k][..k - 1] == other[..k - 1];
      ReplayPrefixOnly(moves, other, k - 1);
    }
  }

  /** Moves applied one after another from a given board. */
  function ApplyAll(b: Grid, moves: seq<Move>): (r: Grid)
    requires IsBoard(b) && PrefixOnBoard(moves, |moves|)
    ensures IsBoard(r)
    decreases |moves|
  {
    if moves == [] then b else ApplyAll(ApplyMove(b, moves[0]), moves[1..])
  }

  /** Applying one move after a sequence of moves. */
  lemma {:induction false} ApplyAllSnoc(b: Grid, moves: seq<Move>, m: Move)
    requires IsBoard(b) && PrefixOnBoard(moves, |moves|) && MoveOnBoard(m)
    ensures PrefixOnBoard(moves + [m], |moves| + 1)
    ensures ApplyAll(b, moves + [m]) == ApplyMove(ApplyAll(b, moves), m)
    decreases |moves|
  {
    if moves != [] {
      assert (moves + [m])[1..] == moves[1..] + [m];
      ApplyAllSnoc(ApplyMove(b, moves[0]), moves[1..], m);
    }
  }

  /**
   * Replay to `k` is the first `k` moves applied in order to the starting
   * position: replay carries no state from one step to the next besides the
   * board.
   */
  lemma {:induction false} ReplayIsFold(moves: seq<Move>, k: nat)
    requires k <= |moves| && PrefixOnBoard(moves, k)
    ensures PrefixOnBoard(moves[..k], k)
    ensures Replay(moves, k) == ApplyAll(InitialBoard(), moves[..k])
  {
    if k > 0 {
      var before, m := moves[..k - 1], moves[k - 1];
      assert moves[..k] == before + [m];
      ReplayIsFold(moves, k - 1);
      ApplyAllSnoc(InitialBoard(), before, m);
    }
  }

  /**
   * Two moves replayed: white's king pawn to e4, then black's queen pawn to
   * d5. Both pawns stand on their new squares and their old squares are empty.
   */
  lemma ReplayTwoPawnMoves()
    ensures var moves := [Move(6, 4, 4, 4), Move(1, 3, 3, 3)];
            PrefixOnBoard(moves, 2) &&
            var b := Replay(moves, 2);
            b[4][4] == Some(Piece(Pawn, White)) && b[3][3] == Some(Piece(Pawn, Black)) &&
            b[6][4] == None && b[1][3] == None
  {
    var moves := [Move(6, 4, 4, 4), Move(1, 3, 3, 3)];
    var b1 := Replay(moves, 1);
    assert b1 == ApplyMove(InitialBoard(), moves[0]);
    assert b1[1][3] == InitialBoard()[1][3];
  }
}
