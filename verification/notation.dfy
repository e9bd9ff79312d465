/**
 * Move notation in both directions: the string the tap handler appends to
 * the move history, and the parser of the Save Game button, which cuts the
 * text field into five-character windows.
 */
module MoveNotation {
  import opened Faults
  import opened ChessBoard

  // ---------------------------------------------------------------- printing

  /** File letter of a column: 'a' + col. */
  function FileChar(col: int): (c: char)
    requires 0 <= col < Size
    ensures 'a' <= c <= 'h'
  {
    ('a' as int + col) as char
  }

  /** Rank digit of a row: the decimal text of 8 - row, one digit on the board. */
  function RankChar(row: int): (c: char)
    requires 0 <= row < Size
    ensures '1' <= c <= '8'
  {
    ('0' as int + (Size - row)) as char
  }

  /** Whether the notation of a move of `p` starts with a piece letter. */
  predicate HasLetter(p: Option<Piece>) {
    p.Some? && p.value.kind != Pawn
  }

  /** K, Q, R, B or N; nothing for a pawn or an empty square. */
  function PieceSymbol(p: Option<Piece>): (s: string)
    ensures |s| == (if HasLetter(p) then 1 else 0)
    ensures HasLetter(p) ==> s[0] in "KQRBN"
  {
    match p
    case Some(Piece(King, _)) => "K"
    case Some(Piece(Queen, _)) => "Q"
    case Some(Piece(Rook, _)) => "R"
    case Some(Piece(Bishop, _)) => "B"
    case Some(Piece(Knight, _)) => "N"
    case _ => ""
  }

  /** Piece letter, then source square, then destination square, as in "Ng1f3" or "e2e4". */
  function Notate(m: Move, p: Option<Piece>): (s: string)
    requires MoveOnBoard(m)
    ensures |s| == (if HasLetter(p) then 5 else 4)
  {
    PieceSymbol(p) + [FileChar(m.fromCol), RankChar(m.fromRow), FileChar(m.toCol), RankChar(m.toRow)]
  }

  /** Several notations written one after the other. */
  function NotateAll(moves: seq<Move>, pieces: seq<Option<Piece>>): string
    requires |moves| == |pieces|
    requires forall i :: 0 <= i < |moves| ==> MoveOnBoard(moves[i])
  {
    if moves == [] then "" else Notate(moves[0], pieces[0]) + NotateAll(moves[1..], pieces[1..])
  }

  /**
   * The last four characters of a notation give the move back: file letter
   * minus 'a' is the column, 8 minus the rank digit is the row, source first.
   */
  lemma NotationSquares(m: Move, p: Option<Piece>)
    requires MoveOnBoard(m)
    ensures var s := Notate(m, p);
            var k := |s| - 4;
            && s[..k] == PieceSymbol(p)
            && s[k] as int - 'a' as int == m.fromCol && 8 - (s[k + 1] as int - '0' as int) == m.fromRow
            && s[k + 2] as int - 'a' as int == m.toCol && 8 - (s[k + 3] as int - '0' as int) == m.toRow
  {
    var symbol := PieceSymbol(p);
    var squares := [FileChar(m.fromCol), RankChar(m.fromRow), FileChar(m.toCol), RankChar(m.toRow)];
    var s := Notate(m, p);
    assert s == symbol + squares;
    assert s[..|symbol|] == symbol;
    assert s[|symbol|..] == squares;
  }

  // ---------------------------------------------------------------- characters

  /**
   * Kotlin's `Char.isWhitespace`: Java whitespace or a Unicode space separator.
   * Blanks, tabs and line breaks are whitespace; letters and digits never are.
   */
  predicate IsWhitespace(c: char): (r: bool)
    ensures c == ' ' || c == '\t' || c == '\n' || c == '\r' ==> r
    ensures 'a' <= c <= 'z' || 'A' <= c <= 'Z' || '0' <= c <= '9' ==> !r
  {
    ('\t' <= c <= '\r') || ('\U{1C}' <= c <= ' ') || c == '\U{A0}' || c == '\U{1680}'
    || ('\U{2000}' <= c <= '\U{200A}') || c == '\U{2028}' || c == '\U{2029}' || c == '\U{202F}'
    || c == '\U{205F}' || c == '\U{3000}'
  }

  /**
   * `lowercaseChar` on ASCII letters: never an upper-case letter, a letter
   * exactly when given one, and every other character unchanged.
   */
  function Lower(c: char): (r: char)
    ensures !('A' <= r <= 'Z')
    ensures ('a' <= r <= 'z') <==> ('a' <= c <= 'z' || 'A' <= c <= 'Z')
    ensures !('A' <= c <= 'Z') ==> r == c
  {
    if 'A' <= c <= 'Z' then (c as int + 32) as char else c
  }

  /** A file letter of either case gives the same column. */
  lemma LowerFoldsCase(c: char)
    requires 'a' <= c <= 'z'
    ensures Lower(c) == c && Lower((c as int - 32) as char) == c
  {
  }

  /** `digitToInt`: the value of a decimal digit, an exception for anything else. */
  function DigitToInt(c: char): (r: Result<int>)
    ensures r.Ok? <==> '0' <= c <= '9'
    ensures r.Ok? ==> 0 <= r.value <= 9 && c as int == '0' as int + r.value
    ensures r.Err? ==> r.fault == NotADigit(c)
  {
    if '0' <= c <= '9' then Ok(c as int - '0' as int) else Err(NotADigit(c))
  }

  // ---------------------------------------------------------------- trimming

  /** A text made only of whitespace. */
  predicate Blank(s: string) {
    forall i {:trigger IsWhitespace(s[i])} :: 0 <= i < |s| ==> IsWhitespace(s[i])
  }

  /** A whitespace character followed by `k - 1` more of them. */
  lemma BlankStart(s: string, k: nat)
    requires 0 < k <= |s| && IsWhitespace(s[0]) && Blank(s[1..][..k - 1])
    ensures Blank(s[..k])
  {
    forall i | 0 <= i < k
      ensures IsWhitespace(s[i])
    {
      if i > 0 {
        assert s[i] == s[1..][..k - 1][i - 1];
      }
    }
  }

  /** Whitespace from `k` up to a whitespace last character. */
  lemma BlankEnd(s: string, k: nat)
    requires k < |s| && IsWhitespace(s[|s| - 1]) && Blank(s[..|s| - 1][k..])
    ensures Blank(s[k..])
  {
    forall i | 0 <= i < |s| - k
      ensures IsWhitespace(s[k..][i])
    {
      if k + i < |s| - 1 {
        assert s[k..][i] == s[..|s| - 1][k..][i];
      }
    }
  }

  /** Drops the leading whitespace: what is dropped is whitespace, and what is left does not start with it. */
  function TrimStart(s: string): (r: string)
    ensures |r| <= |s| && r == s[|s| - |r|..]
    ensures Blank(s[..|s| - |r|])
    ensures |r| == |s| <==> (s == [] || !IsWhitespace(s[0]))
    ensures r != [] ==> !IsWhitespace(r[0])
    decreases |s|
  {
    if s != [] && IsWhitespace(s[0]) then
      var r := TrimStart(s[1..]);
      BlankStart(s, |s| - |r|);
      r
    else s
  }

  /** Drops the trailing whitespace: what is dropped is whitespace, and what is left does not end with it. */
  function TrimEnd(s: string): (r: string)
    ensures |r| <= |s| && r == s[..|r|]
    ensures Blank(s[|r|..])
    ensures |r| == |s| <==> (s == [] || !IsWhitespace(s[|s| - 1]))
    ensures r != [] ==> !IsWhitespace(r[|r| - 1])
    decreases |s|
  {
    if s != [] && IsWhitespace(s[|s| - 1]) then
      var r := TrimEnd(s[..|s| - 1]);
      BlankEnd(s, |r|);
      r
    else s
  }

  /** Kotlin's `String.trim()`: leading and trailing whitespace removed. */
  function Trim(s: string): (r: string)
    ensures |r| <= |s|
  {
    TrimEnd(TrimStart(s))
  }

  /**
   * Trimming keeps the length of a text exactly when neither end is
   * whitespace, and then leaves the text unchanged; a trimmed text never
   * starts or ends with whitespace.
   */
  lemma TrimKeeps(s: string)
    ensures |Trim(s)| == |s| <==> (s == [] || (!IsWhitespace(s[0]) && !IsWhitespace(s[|s| - 1])))
    ensures |Trim(s)| == |s| ==> Trim(s) == s
    ensures Trim(s) != [] ==> !IsWhitespace(Trim(s)[0]) && !IsWhitespace(Trim(s)[|Trim(s)| - 1])
  {
  }

  // ---------------------------------------------------------------- parsing

  function Min(a: int, b: int): int {
    if a <= b then a else b
  }

  /**
   * One kept five-character token: character 0 is ignored, characters 1 and
   * 3 give columns as (lower-cased letter - 'a'), characters 2 and 4 give rows
   * as 8 - digit. Nothing checks that the result lies on the board. The digit
   * of the source square is read before that of the destination, so it is the
   * one reported when both are bad.
   */
  function ParseToken(t: string): (r: Result<Move>)
    requires |t| == 5
    ensures r.Ok? <==> ('0' <= t[2] <= '9' && '0' <= t[4] <= '9')
    ensures r.Err? ==> r.fault == NotADigit(if '0' <= t[2] <= '9' then t[4] else t[2])
    ensures r.Ok? ==>
              && r.value.fromCol == Lower(t[1]) as int - 'a' as int
              && r.value.toCol == Lower(t[3]) as int - 'a' as int
              && r.value.fromRow == 8 - (t[2] as int - '0' as int)
              && r.value.toRow == 8 - (t[4] as int - '0' as int)
  {
    var fromCol := Lower(t[1]) as int - 'a' as int;
    match DigitToInt(t[2])
    case Err(f) => Err(f)
    case Ok(fromDigit) =>
      var toCol := Lower(t[3]) as int - 'a' as int;
      match DigitToInt(t[4])
      case Err(f) => Err(f)
      case Ok(toDigit) => Ok(Move(8 - fromDigit, fromCol, 8 - toDigit, toCol))
  }

  /** A window is kept when it has five characters and neither end is whitespace. */
  predicate Kept(w: string) {
    |w| == 5 && !IsWhitespace(w[0]) && !IsWhitespace(w[4])
  }

  /**
   * One window of the Save Game loop: trimmed, dropped (`Ok(None)`) unless
   * its trimmed length is exactly five, parsed otherwise.
   */
  function ParseWindow(w: string): (r: Result<Option<Move>>)
    requires |w| <= 5
    ensures !Kept(w) ==> r == Ok(None)
    ensures Kept(w) ==> r == match ParseToken(w) case Ok(m) => Ok(Some(m)) case Err(f) => Err(f)
  {
    TrimKeeps(w);
    var t := Trim(w);
    if |t| == 5 then
      match ParseToken(t)
      case Ok(m) => Ok(Some(m))
      case Err(f) => Err(f)
    else Ok(None)
  }

  /** The moves of one window followed by those of the rest; the first exception wins. */
  function Prepend(first: Result<Option<Move>>, rest: Result<seq<Move>>): Result<seq<Move>> {
    match first
    case Err(f) => Err(f)
    case Ok(w) =>
      match rest
      case Err(f) => Err(f)
      case Ok(ms) => Ok((if w.Some? then [w.value] else []) + ms)
  }

  /** Moves already read, followed by the result of reading the rest. */
  function Extend(done: seq<Move>, rest: Result<seq<Move>>): Result<seq<Move>> {
    match rest
    case Ok(ms) => Ok(done + ms)
    case Err(f) => Err(f)
  }

  /**
   * The text of the notation field, read as the Save Game button reads it:
   * windows at offsets 0, 5, 10, ..., the last one possibly shorter, each
   * dropped or parsed.
   */
  function Parse(text: string): (r: Result<seq<Move>>)
    ensures r.Err? ==> r.fault.NotADigit? && !('0' <= r.fault.ch <= '9')
    decreases |text|
  {
    if text == [] then Ok([])
    else
      var n := Min(5, |text|);
      Prepend(ParseWindow(text[..n]), Parse(text[n..]))
  }

  /** There are never more moves than windows, that is at most one per five characters, rounded up. */
  lemma {:induction false} ParseLengthBound(text: string)
    ensures Parse(text).Ok? ==> |Parse(text).value| <= (|text| + 4) / 5
    decreases |text|
  {
    if text != [] {
      ParseLengthBound(text[Min(5, |text|)..]);
    }
  }

  /** The suffix of a text from window offset `index` on: its first window, then the rest. */
  lemma ParseAt(text: string, index: nat)
    requires index < |text|
    ensures Parse(text[index..]) ==
              Prepend(ParseWindow(text[index..Min(index + 5, |text|)]), Parse(text[Min(index + 5, |text|)..]))
  {
    var suffix := text[index..];
    assert suffix[..Min(5, |suffix|)] == text[index..Min(index + 5, |text|)];
    assert suffix[Min(5, |suffix|)..] == text[Min(index + 5, |text|)..];
  }

  /** Reading one more move keeps the moves in window order. */
  lemma ExtendStep(done: seq<Move>, m: Move, rest: Result<seq<Move>>)
    ensures Extend(done, Prepend(Ok(Some(m)), rest)) == Extend(done + [m], rest)
  {
    if rest.Ok? {
      assert done + ([m] + rest.value) == (done + [m]) + rest.value;
    }
  }

  /** A dropped window adds nothing. */
  lemma ExtendSkip(done: seq<Move>, rest: Result<seq<Move>>)
    ensures Extend(done, Prepend(Ok(None), rest)) == Extend(done, rest)
  {
    if rest.Ok? {
      assert [] + rest.value == rest.value;
    }
  }

  /**
   * One turn of the Save Game loop: with `done` read from the windows before
   * offset `index`, the trimmed window at `index` decides what is read next.
   */
  lemma ParseStep(text: string, index: nat, done: seq<Move>)
    requires index < |text|
    requires Parse(text) == Extend(done, Parse(text[index..]))
    ensures var t := Trim(text[index..Min(index + 5, |text|)]);
            var rest := text[Min(index + 5, |text|)..];
            && (|t| != 5 ==> Parse(text) == Extend(done, Parse(rest)))
            && (|t| == 5 && ParseToken(t).Err? ==> Parse(text) == Err(ParseToken(t).fault))
            && (|t| == 5 && ParseToken(t).Ok? ==> Parse(text) == Extend(done + [ParseToken(t).value], Parse(rest)))
  {
    ParseAt(text, index);
    var window := text[index..Min(index + 5, |text|)];
    var rest := text[Min(index + 5, |text|)..];
    var t := Trim(window);
    TrimKeeps(window);
    assert |t| == 5 <==> Kept(window);
    if |t| != 5 {
      ExtendSkip(done, Parse(rest));
    } else {
      assert t == window;
      if ParseToken(t).Ok? {
        ExtendStep(done, ParseToken(t).value, Parse(rest));
      }
    }
  }

  /** A five-character token followed by more text. */
  lemma ParseSplit(w: string, rest: string)
    requires |w| == 5
    ensures Parse(w + rest) == Prepend(ParseWindow(w), Parse(rest))
  {
    assert (w + rest)[..5] == w && (w + rest)[5..] == rest;
  }

  /** A kept token that reads as `m`, followed by text that reads as `ms`, reads as `m` then `ms`. */
  lemma KeptTokenThen(w: string, rest: string, m: Move, ms: seq<Move>)
    requires |w| == 5 && ParseWindow(w) == Ok(Some(m)) && Parse(rest) == Ok(ms)
    ensures Parse(w + rest) == Ok([m] + ms)
  {
    ParseSplit(w, rest);
  }

  /** A move of a lettered piece prints as a kept token that parses back to the move. */
  lemma TokenRoundTrip(m: Move, p: Piece)
    requires MoveOnBoard(m) && p.kind != Pawn
    ensures Kept(Notate(m, Some(p)))
    ensures ParseToken(Notate(m, Some(p))) == Ok(m)
    ensures ParseWindow(Notate(m, Some(p))) == Ok(Some(m))
  {
    var s := Notate(m, Some(p));
    assert s[1] == FileChar(m.fromCol) && s[2] == RankChar(m.fromRow);
    assert s[3] == FileChar(m.toCol) && s[4] == RankChar(m.toRow);
  }

  /** The last window of a text: at most five characters with nothing after them. */
  lemma ParseLast(w: string)
    requires 0 < |w| <= 5
    ensures Parse(w) == Prepend(ParseWindow(w), Ok([]))
  {
    assert w[..|w|] == w && w[|w|..] == [];
  }

  /** Parsing the notation of a move of a king, queen, rook, bishop or knight gives back that move. */
  lemma NotationRoundTrip(m: Move, p: Piece)
    requires MoveOnBoard(m) && p.kind != Pawn
    ensures Parse(Notate(m, Some(p))) == Ok([m])
  {
    TokenRoundTrip(m, p);
    ParseLast(Notate(m, Some(p)));
    assert [m] + [] == [m];
  }

  /** Notations of lettered pieces written back to back parse to the moves, in order. */
  lemma {:induction false} NotationsRoundTrip(moves: seq<Move>, pieces: seq<Option<Piece>>)
    requires |moves| == |pieces|
    requires forall i :: 0 <= i < |moves| ==> MoveOnBoard(moves[i])
    requires forall i :: 0 <= i < |pieces| ==> HasLetter(pieces[i])
    ensures Parse(NotateAll(moves, pieces)) == Ok(moves)
  {
    if moves != [] {
      var s := Notate(moves[0], pieces[0]);
      var rest := NotateAll(moves[1..], pieces[1..]);
      assert NotateAll(moves, pieces) == s + rest;
      TokenRoundTrip(moves[0], pieces[0].value);
      NotationsRoundTrip(moves[1..], pieces[1..]);
      KeptTokenThen(s, rest, moves[0], moves[1..]);
      assert moves == [moves[0]] + moves[1..];
    }
  }

  /** A pawn move, or a move from an empty square, prints in four characters, and Save Game drops it. */
  lemma ShortNotationDropped(m: Move, p: Option<Piece>)
    requires MoveOnBoard(m) && !HasLetter(p)
    ensures |Notate(m, p)| == 4
    ensures Parse(Notate(m, p)) == Ok([])
  {
    var s := Notate(m, p);
    ParseLast(s);
    assert !Kept(s);
    var none: seq<Move> := [];
    assert none + none == none;
  }

  /** The example in the field's label, "e2e4", is the pawn notation of e2-e4 and yields no move. */
  lemma LabelExampleDropped()
    ensures Notate(Move(6, 4, 4, 4), Some(Piece(Pawn, White))) == "e2e4"
    ensures Parse("e2e4") == Ok([])
  {
    ShortNotationDropped(Move(6, 4, 4, 4), Some(Piece(Pawn, White)));
  }

  /**
   * A four-character pawn notation in front of the notation of a lettered
   * piece shifts the windows: the first window holds the pawn's squares and
   * the piece letter, and the file letter of the pawn's destination stands
   * where a rank digit belongs, so Save Game raises. "e2e4Ng1f3" is an
   * instance.
   */
  lemma PawnNotationShiftsWindows(pawnMove: Move, pawn: Option<Piece>, m: Move, p: Piece)
    requires MoveOnBoard(pawnMove) && !HasLetter(pawn)
    requires MoveOnBoard(m) && p.kind != Pawn
    ensures Parse(Notate(pawnMove, pawn) + Notate(m, Some(p))) == Err(NotADigit(FileChar(pawnMove.toCol)))
  {
    var text := Notate(pawnMove, pawn) + Notate(m, Some(p));
    var w, rest := text[..5], text[5..];
    assert w + rest == text;
    assert w[0] == FileChar(pawnMove.fromCol) && w[2] == FileChar(pawnMove.toCol);
    assert w[4] == PieceSymbol(Some(p))[0];
    assert Kept(w);
    ParseSplit(w, rest);
  }

  /** The line above on the example "e2e4Ng1f3". */
  lemma PawnNotationExample()
    ensures Notate(Move(6, 4, 4, 4), Some(Piece(Pawn, White))) + Notate(Move(7, 6, 5, 5), Some(Piece(Knight, White)))
            == "e2e4Ng1f3"
    ensures Parse("e2e4Ng1f3") == Err(NotADigit('e'))
  {
    var pawnMove, m := Move(6, 4, 4, 4), Move(7, 6, 5, 5);
    var text := Notate(pawnMove, Some(Piece(Pawn, White))) + Notate(m, Some(Piece(Knight, White)));
    assert text == "e2e4Ng1f3" by {
      assert Notate(pawnMove, Some(Piece(Pawn, White))) == "e2e4";
      assert Notate(m, Some(Piece(Knight, White))) == "Ng1f3";
    }
    assert FileChar(pawnMove.toCol) == 'e';
    PawnNotationShiftsWindows(pawnMove, Some(Piece(Pawn, White)), m, Piece(Knight, White));
  }

  /** A blank in front of a five-character token shifts it out of its window: the text yields no move. */
  lemma PaddedTokenDropped(t: string)
    requires |t| == 5
    ensures Parse([' '] + t) == Ok([])
  {
    var text := [' '] + t;
    var w, rest := text[..5], text[5..];
    var none: seq<Move> := [];
    assert ParseWindow(w) == Ok(None) by {
      assert w[0] == ' ' && !Kept(w);
    }
    assert Parse(rest) == Ok(none) by {
      assert |rest| == 1 && !Kept(rest);
      ParseLast(rest);
      assert none + none == none;
    }
    assert text == w + rest;
    ParseSplit(w, rest);
    assert none + none == none;
  }

  /** Nothing checks the range: "Nz9a0" parses to a move from row -1, column 25 to row 8, column 0. */
  lemma OffBoardTokenAccepted()
    ensures Parse("Nz9a0") == Ok([Move(-1, 25, 8, 0)])
  {
    var w := "Nz9a0";
    assert w[0] == 'N' && w[1] == 'z' && w[2] == '9' && w[3] == 'a' && w[4] == '0';
    assert Kept(w);
    assert ParseToken(w) == Ok(Move(-1, 25, 8, 0));
    ParseLast(w);
    assert [Move(-1, 25, 8, 0)] + [] == [Move(-1, 25, 8, 0)];
  }

  /** File letters are lower-cased: "NG1F3" and "Ng1f3" are the same move. */
  lemma UpperCaseFiles()
    ensures Parse("NG1F3") == Parse("Ng1f3") == Ok([Move(7, 6, 5, 5)])
  {
    var upper, lower := "NG1F3", "Ng1f3";
    assert upper[0] == 'N' && upper[1] == 'G' && upper[2] == '1' && upper[3] == 'F' && upper[4] == '3';
    assert lower[0] == 'N' && lower[1] == 'g' && lower[2] == '1' && lower[3] == 'f' && lower[4] == '3';
    assert Kept(upper) && Kept(lower);
    assert Lower('G') == 'g' && Lower('F') == 'f';
    assert ParseToken(upper) == ParseToken(lower) == Ok(Move(7, 6, 5, 5));
    ParseLast(upper);
    ParseLast(lower);
    assert [Move(7, 6, 5, 5)] + [] == [Move(7, 6, 5, 5)];
  }

  /** Two windows that differ at most in a non-blank first character are read alike. */
  lemma WindowFirstCharIgnored(v: string, w: string)
    requires |v| == |w| <= 5 && 0 < |v|
    requires !IsWhitespace(v[0]) && !IsWhitespace(w[0]) && v[1..] == w[1..]
    ensures ParseWindow(v) == ParseWindow(w)
  {
    assert forall i :: 1 <= i < |v| ==> v[i] == v[1..][i - 1] == w[1..][i - 1] == w[i];
  }

  /** The character in the piece position is read only to be trimmed: any non-blank one gives the same result. */
  lemma FirstCharIgnored(c: char, d: char, rest: string)
    requires !IsWhitespace(c) && !IsWhitespace(d)
    ensures Parse([c] + rest) == Parse([d] + rest)
  {
    var v, w := [c] + rest, [d] + rest;
    var n := Min(5, |v|);
    var vw, ww := v[..n], w[..n];
    assert vw[0] == c && ww[0] == d;
    assert vw[1..] == rest[..n - 1] == ww[1..];
    WindowFirstCharIgnored(vw, ww);
    assert v[n..] == rest[n - 1..] == w[n..];
  }
}
