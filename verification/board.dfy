/**
 * The board value of the chess screen: pieces, the 8x8 grid of optional
 * pieces, the standard starting layout and the (rule-free) move application.
 */
module ChessBoard {
  import opened Faults

  datatype PieceType = Pawn | Rook | Knight | Bishop | Queen | King
  datatype PieceColor = White | Black
  datatype Piece = Piece(kind: PieceType, color: PieceColor)

  /**
   * A move as the screen records it: source and destination square, nothing
   * else. The coordinates are unbounded, because text typed into the
   * notation field can produce any value.
   */
  datatype Move = Move(fromRow: int, fromCol: int, toRow: int, toCol: int)

  /** Row-major grid; row 0 is black's back rank, row 7 white's. */
  type Grid = seq<seq<Option<Piece>>>

  const Size: int := 8

  predicate IsBoard(b: Grid) {
    |b| == Size && forall r :: 0 <= r < Size ==> |b[r]| == Size
  }

  predicate OnBoard(row: int, col: int) {
    0 <= row < Size && 0 <= col < Size
  }

  predicate MoveOnBoard(m: Move) {
    OnBoard(m.fromRow, m.fromCol) && OnBoard(m.toRow, m.toCol)
  }

  /** The piece kinds of a back rank, by column. */
  const BackRank: seq<PieceType> := [Rook, Knight, Bishop, Queen, King, Bishop, Knight, Rook]

  /** What the standard starting position has on a square. */
  function StartingOccupant(row: int, col: int): Option<Piece>
    requires OnBoard(row, col)
  {
    if row == 0 then Some(Piece(BackRank[col], Black))
    else if row == 1 then Some(Piece(Pawn, Black))
    else if row == 6 then Some(Piece(Pawn, White))
    else if row == 7 then Some(Piece(BackRank[col], White))
    else None
  }

  /** The starting position, square by square: the reference for `NewInitialBoard`. */
  function InitialBoard(): (b: Grid)
    ensures IsBoard(b)
  {
    seq(Size, r requires 0 <= r < Size => seq(Size, c requires 0 <= c < Size => StartingOccupant(r, c)))
  }

  /** A grid with nothing on it. */
  function EmptyBoard(): (b: Grid)
    ensures IsBoard(b)
  {
    seq(Size, _ => seq(Size, _ => None))
  }

  /** `board[row][col] = p` on a copy. */
  function Put(b: Grid, row: int, col: int, p: Piece): (r: Grid)
    requires IsBoard(b) && OnBoard(row, col)
    ensures IsBoard(r)
  {
    b[row := b[row][col := Some(p)]]
  }

  /**
   * Builds the starting position the way the screen does: an empty 8x8 grid,
   * then one assignment per piece.
   */
  method NewInitialBoard() returns (b: Grid)
    ensures b == InitialBoard()
  {
    b := EmptyBoard();
    // white pieces
    b := Put(b, 7, 0, Piece(Rook, White));
    b := Put(b, 7, 1, Piece(Knight, White));
    b := Put(b, 7, 2, Piece(Bishop, White));
    b := Put(b, 7, 3, Piece(Queen, White));
    b := Put(b, 7, 4, Piece(King, White));
    b := Put(b, 7, 5, Piece(Bishop, White));
    b := Put(b, 7, 6, Piece(Knight, White));
    b := Put(b, 7, 7, Piece(Rook, White));
    assert b[7] == InitialBoard()[7];

    b := Put(b, 6, 0, Piece(Pawn, White));
    b := Put(b, 6, 1, Piece(Pawn, White));
    b := Put(b, 6, 2, Piece(Pawn, White));
    b := Put(b, 6, 3, Piece(Pawn, White));
    b := Put(b, 6, 4, Piece(Pawn, White));
    b := Put(b, 6, 5, Piece(Pawn, White));
    b := Put(b, 6, 6, Piece(Pawn, White));
    b := Put(b, 6, 7, Piece(Pawn, White));
    assert b[6] == InitialBoard()[6];

    // black pieces
    b := Put(b, 0, 0, Piece(Rook, Black));
    b := Put(b, 0, 1, Piece(Knight, Black));
    b := Put(b, 0, 2, Piece(Bishop, Black));
    b := Put(b, 0, 3, Piece(Queen, Black));
    b := Put(b, 0, 4, Piece(King, Black));
    b := Put(b, 0, 5, Piece(Bishop, Black));
    b := Put(b, 0, 6, Piece(Knight, Black));
    b := Put(b, 0, 7, Piece(Rook, Black));
    assert b[0] == InitialBoard()[0];

    b := Put(b, 1, 0, Piece(Pawn, Black));
    b := Put(b, 1, 1, Piece(Pawn, Black));
    b := Put(b, 1, 2, Piece(Pawn, Black));
    b := Put(b, 1, 3, Piece(Pawn, Black));
    b := Put(b, 1, 4, Piece(Pawn, Black));
    b := Put(b, 1, 5, Piece(Pawn, Black));
    b := Put(b, 1, 6, Piece(Pawn, Black));
    b := Put(b, 1, 7, Piece(Pawn, Black));
    assert b[1] == InitialBoard()[1];

    forall r | 2 <= r < 6 ensures b[r] == InitialBoard()[r] {
      assert b[r] == EmptyBoard()[r];
    }
  }

  /**
   * Moves whatever stands on the source square to the destination, on a new
   * board. No rule is checked: an empty source, a capture of one's own piece
   * or a move to the same square are all carried out. The destination is
   * written first and the source cleared second, so a move from a square to
   * itself leaves that square empty.
   */
  function ApplyMove(b: Grid, m: Move): (r: Grid)
    requires IsBoard(b) && MoveOnBoard(m)
    ensures IsBoard(r)
    ensures r[m.fromRow][m.fromCol] == None
    ensures (m.toRow, m.toCol) != (m.fromRow, m.fromCol) ==> r[m.toRow][m.toCol] == b[m.fromRow][m.fromCol]
    ensures forall row, col :: OnBoard(row, col) && (row, col) != (m.fromRow, m.fromCol) && (row, col) != (m.toRow, m.toCol)
              ==> r[row][col] == b[row][col]
  {
    var moved := b[m.toRow := b[m.toRow][m.toCol := b[m.fromRow][m.fromCol]]];
    moved[m.fromRow := moved[m.fromRow][m.fromCol := None]]
  }

  /** A move from a square to itself empties that square and leaves the rest of the board as it was. */
  lemma SelfMoveErases(b: Grid, row: int, col: int)
    requires IsBoard(b) && OnBoard(row, col)
    ensures ApplyMove(b, Move(row, col, row, col)) == b[row := b[row][col := None]]
  {
    var moved := b[row := b[row][col := b[row][col]]];
    assert b[row][col := b[row][col]] == b[row];
    assert moved == b;
  }

  /** The rule check of the screen: every move is accepted. */
  predicate IsValidMove(b: Grid, fromRow: int, fromCol: int, toRow: int, toCol: int): (r: bool)
    ensures r
  {
    true
  }

  // ---------------------------------------------------------------- counting

  /** Number of pieces of `color` in one row. */
  function CountInRow(row: seq<Option<Piece>>, color: PieceColor): nat {
    if row == [] then 0
    else CountInRow(row[..|row| - 1], color) + (if row[|row| - 1] == None || row[|row| - 1].value.color != color then 0 else 1)
  }

  /** Number of pieces of `color` on a grid. */
  function Count(b: Grid, color: PieceColor): nat {
    if b == [] then 0 else Count(b[..|b| - 1], color) + CountInRow(b[|b| - 1], color)
  }

  /** Number of occupied squares. */
  function Occupied(b: Grid): nat {
    Count(b, White) + Count(b, Black)
  }

  lemma {:induction false} CountRowOfColor(row: seq<Option<Piece>>, color: PieceColor)
    requires forall i :: 0 <= i < |row| ==> row[i].Some? && row[i].value.color == color
    ensures CountInRow(row, color) == |row|
    ensures CountInRow(row, if color == White then Black else White) == 0
  {
    if row != [] {
      CountRowOfColor(row[..|row| - 1], color);
    }
  }

  lemma {:induction false} CountEmptyRow(row: seq<Option<Piece>>, color: PieceColor)
    requires forall i :: 0 <= i < |row| ==> row[i].None?
    ensures CountInRow(row, color) == 0
  {
    if row != [] {
      CountEmptyRow(row[..|row| - 1], color);
    }
  }

  /**
   * The starting position holds 32 pieces, 16 of each colour: white only on
   * rows 6 and 7, black only on rows 0 and 1.
   */
  lemma InitialPieceCounts()
    ensures Count(InitialBoard(), White) == 16
    ensures Count(InitialBoard(), Black) == 16
    ensures Occupied(InitialBoard()) == 32
    ensures forall r, c :: OnBoard(r, c) && InitialBoard()[r][c].Some? ==>
              if InitialBoard()[r][c].value.color == White then r == 6 || r == 7 else r == 0 || r == 1
  {
    var b := InitialBoard();
    CountRowOfColor(b[0], Black);
    CountRowOfColor(b[1], Black);
    CountRowOfColor(b[6], White);
    CountRowOfColor(b[7], White);
    forall color: PieceColor
      ensures Count(b, color) == 16
    {
      CountEmptyRow(b[2], color);
      CountEmptyRow(b[3], color);
      CountEmptyRow(b[4], color);
      CountEmptyRow(b[5], color);
      CountByRows(b, color);
    }
  }

  /** A count over eight rows is the sum of the rows' counts. */
  lemma CountByRows(b: Grid, color: PieceColor)
    requires |b| == Size
    ensures Count(b, color) == CountInRow(b[0], color) + CountInRow(b[1], color) + CountInRow(b[2], color)
              + CountInRow(b[3], color) + CountInRow(b[4], color) + CountInRow(b[5], color)
              + CountInRow(b[6], color) + CountInRow(b[7], color)
  {
    ghost var sum := CountInRow(b[0], color);
    assert Count(b[..1], color) == sum by {
      CountStep(b, 0, color);
      assert b[..0] == [];
    }
    assert Count(b[..2], color) == sum + CountInRow(b[1], color) by {
      CountStep(b, 1, color);
    }
    sum := sum + CountInRow(b[1], color);
    assert Count(b[..3], color) == sum + CountInRow(b[2], color) by {
      CountStep(b, 2, color);
    }
    sum := sum + CountInRow(b[2], color);
    assert Count(b[..4], color) == sum + CountInRow(b[3], color) by {
      CountStep(b, 3, color);
    }
    sum := sum + CountInRow(b[3], color);
    assert Count(b[..5], color) == sum + CountInRow(b[4], color) by {
      CountStep(b, 4, color);
    }
    sum := sum + CountInRow(b[4], color);
    assert Count(b[..6], color) == sum + CountInRow(b[5], color) by {
      CountStep(b, 5, color);
    }
    sum := sum + CountInRow(b[5], color);
    assert Count(b[..7], color) == sum + CountInRow(b[6], color) by {
      CountStep(b, 6, color);
    }
    sum := sum + CountInRow(b[6], color);
    assert Count(b[..8], color) == sum + CountInRow(b[7], color) by {
      CountStep(b, 7, color);
    }
    sum := sum + CountInRow(b[7], color);
    assert b[..8] == b;
  }

  lemma CountStep(b: Grid, k: nat, color: PieceColor)
    requires k < |b|
    ensures Count(b[..k + 1], color) == Count(b[..k], color) + CountInRow(b[k], color)
  {
    assert b[..k + 1][..k] == b[..k];
  }

  /** The back ranks read R N B Q K B N R from column 0, pawns fill rows 1 and 6, rows 2 to 5 are empty. */
  lemma InitialRanks()
    ensures InitialBoard()[7] == [Some(Piece(Rook, White)), Some(Piece(Knight, White)), Some(Piece(Bishop, White)),
                                  Some(Piece(Queen, White)), Some(Piece(King, White)), Some(Piece(Bishop, White)),
                                  Some(Piece(Knight, White)), Some(Piece(Rook, White))]
    ensures InitialBoard()[0] == [Some(Piece(Rook, Black)), Some(Piece(Knight, Black)), Some(Piece(Bishop, Black)),
                                  Some(Piece(Queen, Black)), Some(Piece(King, Black)), Some(Piece(Bishop, Black)),
                                  Some(Piece(Knight, Black)), Some(Piece(Rook, Black))]
    ensures forall c :: 0 <= c < Size ==> InitialBoard()[6][c] == Some(Piece(Pawn, White))
    ensures forall c :: 0 <= c < Size ==> InitialBoard()[1][c] == Some(Piece(Pawn, Black))
    ensures forall r, c :: 2 <= r < 6 && 0 <= c < Size ==> InitialBoard()[r][c] == None
  {
  }
}
