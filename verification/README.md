# Chess screen of ChessAppNimcovichSistem, in Dafny

This project models the logic behind the single chess screen of the Android app
ChessAppNimcovichSistem (`MainActivity.kt`). The screen shows an 8x8 board and a
list of move notations. It also has a text field, a Save Game button, a list of
saved games and Previous Move / Next Move buttons.

The model has five modules:

- `Faults` (faults.dfy): `Option`, `Result` and the two exceptions the handlers can raise.
  - `NotADigit` comes from `digitToInt`.
  - `IndexOutOfBounds` comes from indexing the board with a coordinate outside 0..7.
- `ChessBoard` (board.dfy): the piece types and the `Move` record.
  - The board is an 8x8 grid of optional pieces.
  - `InitialBoard` is the starting position. `NewInitialBoard` builds it the way the app does: 32 assignments on an empty grid.
  - `ApplyMove` is the rule-free move: copy the grid, write the destination, then clear the source.
  - `IsValidMove` is the app's rule check, which accepts every move.
  - Piece counting is used to state what the starting position holds.
- `MoveReplay` (replay.dfy): `Replay`, the board after the first `k` moves of a saved game.
  - `ApplyMoveToBoard` is the app's replay loop, proved against `Replay`.
  - `CleanPrefix` is the index of the first move that leaves the board, which is where the loop raises.
- `MoveNotation` (notation.dfy): the notation the tap handler prints ("Ng1f3", "e2e4").
  - `Parse` is the Save Game parser.
  - It cuts the text at offsets 0, 5, 10, and so on.
  - It trims each window with Kotlin's `trim()`.
  - It keeps only windows whose trimmed length is exactly five.
  - It reads characters 1-4 of a kept window as file, rank, file, rank.
  - The lemmas pin down the round trip and the windowing behaviour.
- `ChessScreen` (session.dfy): the screen's state as the class `ChessSession`, plus `ReadMoves`.
  - The state covers the board, the move history, the saved games, the picked game and move index, the text field and the selected square.
  - There is one method per event handler: tap, typing, Save Game, game select, Previous, Next.
  - `ReadMoves` is the `while` loop of Save Game, proved against `Parse`.

An uncaught exception ends the app. In the model it is the field `halted`.
- Every handler requires `halted == None`.
- The two handlers that can raise state exactly when they do:
  - Save Game raises on a non-digit rank character.
  - Next raises on replaying a move that leaves the board.

## Model

| member | source | states |
|---|---|---|
| ChessBoard.NewInitialBoard | app/src/main/java/com/chess/chessappnimcovichsistem/MainActivity.kt:282-324 | an empty 8x8 grid filled by the 32 piece assignments is exactly the starting position `InitialBoard` |
| ChessBoard.InitialRanks | app/src/main/java/com/chess/chessappnimcovichsistem/MainActivity.kt:286-321 | row 7 reads R N B Q K B N R in white and row 0 the same in black; rows 6 and 1 are white and black pawns; rows 2 to 5 are empty |
| ChessBoard.InitialPieceCounts | app/src/main/java/com/chess/chessappnimcovichsistem/MainActivity.kt:282-324 | the starting position holds 16 white and 16 black pieces, 32 in all; white stands only on rows 6-7 and black only on rows 0-1 |
| ChessBoard.ApplyMove | app/src/main/java/com/chess/chessappnimcovichsistem/MainActivity.kt:161-166 | the result is a new 8x8 board: the source square is empty; when the squares differ, the destination holds the source's old occupant; every other square is unchanged |
| ChessBoard.SelfMoveErases | app/src/main/java/com/chess/chessappnimcovichsistem/MainActivity.kt:164-165 | a move from a square to itself erases the piece there, because the source is cleared after the destination is written, and changes nothing else |
| ChessBoard.IsValidMove | app/src/main/java/com/chess/chessappnimcovichsistem/MainActivity.kt:270-279 | the rule check accepts every move, whatever the board and coordinates, so no chess rule restricts a tap |
| MoveReplay.Replay | app/src/main/java/com/chess/chessappnimcovichsistem/MainActivity.kt:231-238 | replay to 0 is the starting position and replay to k is move k-1 applied to replay to k-1; it is defined only while every replayed move stays on the board, and is always an 8x8 board |
| MoveReplay.ReplayStep | app/src/main/java/com/chess/chessappnimcovichsistem/MainActivity.kt:232-237 | for 0 < k+1 <= size, replay to k+1 is `moves[k]` applied to replay to k |
| MoveReplay.CleanPrefix | app/src/main/java/com/chess/chessappnimcovichsistem/MainActivity.kt:232-236 | the moves before this index all stay on the board, and the move at it, if any, does not: it is where replay raises |
| MoveReplay.CleanPrefixAt | app/src/main/java/com/chess/chessappnimcovichsistem/MainActivity.kt:232-236 | the first move that leaves the board is the end of the clean prefix |
| MoveReplay.ApplyMoveToBoard | app/src/main/java/com/chess/chessappnimcovichsistem/MainActivity.kt:226-239 | the loop raises exactly when one of the first `moveIndex` moves leaves the board; if it does not raise, the board is `Replay(moves, moveIndex)`; if it raises, the board is the replay up to the offending move |
| MoveReplay.ReplayPrefixOnly | app/src/main/java/com/chess/chessappnimcovichsistem/MainActivity.kt:231-238 | the board at index k depends only on the first k moves of the game |
| MoveReplay.ReplayIsFold | app/src/main/java/com/chess/chessappnimcovichsistem/MainActivity.kt:231-238 | replay to k equals the first k moves applied in order from the starting position |
| MoveReplay.ReplayTwoPawnMoves | app/src/main/java/com/chess/chessappnimcovichsistem/MainActivity.kt:231-238 | after e2-e4 and d7-d5 the two pawns stand on e4 and d5 and their old squares are empty |
| MoveNotation.FileChar | app/src/main/java/com/chess/chessappnimcovichsistem/MainActivity.kt:243-244 | the file of a column on the board is a letter 'a' to 'h' |
| MoveNotation.RankChar | app/src/main/java/com/chess/chessappnimcovichsistem/MainActivity.kt:243-244 | the rank of a row on the board is a single digit '1' to '8' |
| MoveNotation.PieceSymbol | app/src/main/java/com/chess/chessappnimcovichsistem/MainActivity.kt:245-252 | one of K Q R B N for a lettered piece; empty for a pawn or an empty square |
| MoveNotation.Notate | app/src/main/java/com/chess/chessappnimcovichsistem/MainActivity.kt:242-254 | five characters for a king, queen, rook, bishop or knight; four for a pawn or an empty square |
| MoveNotation.NotationSquares | app/src/main/java/com/chess/chessappnimcovichsistem/MainActivity.kt:242-254 | the notation is the piece letter followed by four characters; file minus 'a' and 8 minus rank give back the source and destination coordinates |
| MoveNotation.IsWhitespace | app/src/main/java/com/chess/chessappnimcovichsistem/MainActivity.kt:99 | the whitespace set of `Char.isWhitespace` that `trim()` strips: Java whitespace (tab to carriage return, the separators U+001C-U+001F, the blank) or a Unicode space separator; blanks, tabs and line breaks are in it, letters and digits never are |
| MoveNotation.Lower | app/src/main/java/com/chess/chessappnimcovichsistem/MainActivity.kt:101-103 | `lowercaseChar` never yields an upper-case ASCII letter, yields a letter exactly when given one, and leaves every character other than 'A'..'Z' unchanged |
| MoveNotation.LowerFoldsCase | app/src/main/java/com/chess/chessappnimcovichsistem/MainActivity.kt:101-103 | a file letter of either case gives the same lower-case letter, hence the same column |
| MoveNotation.DigitToInt | app/src/main/java/com/chess/chessappnimcovichsistem/MainActivity.kt:102-104 | `digitToInt` succeeds exactly on '0'..'9', with the digit's value, and raises `NotADigit` on that character otherwise |
| MoveNotation.TrimStart | app/src/main/java/com/chess/chessappnimcovichsistem/MainActivity.kt:99 | drops leading whitespace only: the result is a suffix, every dropped character is whitespace (`Blank`), the result is as long as the text exactly when it does not start with whitespace, and never starts with whitespace |
| MoveNotation.TrimEnd | app/src/main/java/com/chess/chessappnimcovichsistem/MainActivity.kt:99 | drops trailing whitespace only: the result is a prefix, every dropped character is whitespace (`Blank`), the result is as long as the text exactly when it does not end with whitespace, and never ends with whitespace |
| MoveNotation.Trim | app/src/main/java/com/chess/chessappnimcovichsistem/MainActivity.kt:99 | `trim()` never lengthens a text; `TrimKeeps` states when it keeps it |
| MoveNotation.TrimKeeps | app/src/main/java/com/chess/chessappnimcovichsistem/MainActivity.kt:99 | trimming keeps a text's length exactly when neither end is whitespace, and then leaves the text unchanged |
| MoveNotation.ParseToken | app/src/main/java/com/chess/chessappnimcovichsistem/MainActivity.kt:101-105 | a five-character token parses exactly when characters 2 and 4 are digits; the column is the lower-cased letter minus 'a' and the row is 8 minus the digit, with no range check; otherwise the first bad rank character is reported |
| MoveNotation.ParseWindow | app/src/main/java/com/chess/chessappnimcovichsistem/MainActivity.kt:98-106 | a window is dropped unless it has five characters with no whitespace at either end; a kept window is read as a token |
| MoveNotation.Parse | app/src/main/java/com/chess/chessappnimcovichsistem/MainActivity.kt:95-108 | the only exception the Save Game parser can raise is `digitToInt` on a character that is not a decimal digit; as the reference for Save Game it reads windows at offsets 0, 5, 10, ..., and `ReadMoves`, `ParseLengthBound`, `ParseStep` and the round-trip lemmas state the rest |
| MoveNotation.ParseLengthBound | app/src/main/java/com/chess/chessappnimcovichsistem/MainActivity.kt:95-108 | a text of length n yields at most ceil(n/5) moves |
| MoveNotation.ParseStep | app/src/main/java/com/chess/chessappnimcovichsistem/MainActivity.kt:97-107 | one loop turn: a trimmed window that is not five long adds nothing; a bad token ends the parse with its exception; a good token is appended after the moves already read |
| MoveNotation.NotationRoundTrip | app/src/main/java/com/chess/chessappnimcovichsistem/MainActivity.kt:101-104 | parsing the notation of a lettered piece's on-board move gives back exactly that move |
| MoveNotation.NotationsRoundTrip | app/src/main/java/com/chess/chessappnimcovichsistem/MainActivity.kt:97-108 | notations of lettered pieces written back to back parse to the moves, in order |
| MoveNotation.ShortNotationDropped | app/src/main/java/com/chess/chessappnimcovichsistem/MainActivity.kt:100 | a pawn's or an empty square's notation has four characters and parses to no move |
| MoveNotation.LabelExampleDropped | app/src/main/java/com/chess/chessappnimcovichsistem/MainActivity.kt:92 | the field's example "e2e4" is the pawn notation of e2-e4, and saving it yields an empty game |
| MoveNotation.PawnNotationShiftsWindows | app/src/main/java/com/chess/chessappnimcovichsistem/MainActivity.kt:99-104 | a pawn notation followed by a lettered one shifts the windows, and Save Game raises on the pawn's destination file letter |
| MoveNotation.PawnNotationExample | app/src/main/java/com/chess/chessappnimcovichsistem/MainActivity.kt:99-104 | "e2e4" + "Ng1f3" raises on the letter 'e' |
| MoveNotation.PaddedTokenDropped | app/src/main/java/com/chess/chessappnimcovichsistem/MainActivity.kt:99-100 | a token preceded by one blank is shifted across two windows and yields no move |
| MoveNotation.OffBoardTokenAccepted | app/src/main/java/com/chess/chessappnimcovichsistem/MainActivity.kt:101-105 | "Nz9a0" is read as a move from row -1, column 25 to row 8, column 0: nothing checks the range |
| MoveNotation.UpperCaseFiles | app/src/main/java/com/chess/chessappnimcovichsistem/MainActivity.kt:101-103 | file letters are lower-cased, so "NG1F3" and "Ng1f3" give the same move |
| MoveNotation.FirstCharIgnored | app/src/main/java/com/chess/chessappnimcovichsistem/MainActivity.kt:99-105 | the character in the piece position is never read: any non-blank character there gives the same result |
| ChessScreen.ReadMoves | app/src/main/java/com/chess/chessappnimcovichsistem/MainActivity.kt:95-108 | the window loop of Save Game computes exactly `Parse(text)`, including the exception it raises |
| ChessScreen.ReplayOneMore | app/src/main/java/com/chess/chessappnimcovichsistem/MainActivity.kt:80-83 | replaying one move more than the shown index raises exactly when that move leaves the board; if it does, the board shows the replay to the shown index |
| ChessScreen.ChessSession.constructor | app/src/main/java/com/chess/chessappnimcovichsistem/MainActivity.kt:58-63 | the screen starts on the starting position with empty histories, no game picked, index 0, an empty field and no selection |
| ChessScreen.ChessSession.Tap | app/src/main/java/com/chess/chessappnimcovichsistem/MainActivity.kt:148-169 | with nothing selected, an occupied square is selected and an empty one is ignored; with a square selected, the move is always accepted: one notation is appended, the board becomes `ApplyMove` of the old board and the selection is cleared |
| ChessScreen.ChessSession.EditInput | app/src/main/java/com/chess/chessappnimcovichsistem/MainActivity.kt:91 | typing replaces the field's text and nothing else |
| ChessScreen.ChessSession.SaveGame | app/src/main/java/com/chess/chessappnimcovichsistem/MainActivity.kt:94-111 | when the text parses, exactly one game, `Parse(text)` and possibly empty, is appended and the field is cleared; when it does not, nothing is saved and the app halts with the digit exception |
| ChessScreen.ChessSession.SelectGame | app/src/main/java/com/chess/chessappnimcovichsistem/MainActivity.kt:114-118 | picking a game sets it as current, resets the index to 0 and shows the starting position |
| ChessScreen.ChessSession.Previous | app/src/main/java/com/chess/chessappnimcovichsistem/MainActivity.kt:72-77 | only with a game picked and index > 0 does the index go down by one and the board show its replay; otherwise nothing changes; it never raises |
| ChessScreen.ChessSession.Next | app/src/main/java/com/chess/chessappnimcovichsistem/MainActivity.kt:80-85 | only with a game picked and index < size - 1 does the index go up by one; the index stays below the game's size, so the last move is never shown and an empty game cannot advance; the step raises exactly when the newly replayed move leaves the board, and then the board shows the replay to the old index |

`ChessSession.Valid()` is kept by every handler. It says:
- the board is 8x8;
- a selected square lies on the board;
- with no game picked, the index is 0;
- with a game picked, the index lies in [0, max(0, size - 1)] and, while the app has not halted, the moves up to it are replayable.

`IsValidMove` (`MainActivity.kt:270-279`) is the constant `true`, and `Tap` branches on it just as the source does.

## Left out

- Jetpack Compose rendering is not modelled: the grid, square colours, coordinate labels, `MoveHistory`, `GameList` and recomposition. Only the state the handlers change is kept.
- `getPieceImageResource` is not modelled, because it maps pieces to Android drawable IDs.
- `MainActivity.onCreate` is not modelled, because it is Android lifecycle code.
- `Beta.kt` is not part of this model, because it only draws cells.
- Chess legality (turns, check, castling, captures of one's own pieces) is not modelled, because the app has none.
- An uncaught Kotlin exception ends the app. In the model it becomes the `halted` field, and every handler requires `halted == None`. What Android does after the crash is not modelled.
- MoveNotation.Notate: requires on-board coordinates. For other values Kotlin would print a rank outside 1..8 ("9" for row -1, "10" for row -2, "-1" for row 9) and a file outside 'a'..'h'. The only caller is the tap handler, which passes grid coordinates.
- MoveNotation.Lower: lower-cases ASCII letters only, while Kotlin's `lowercaseChar` also maps other Unicode letters.
- MoveNotation.DigitToInt: accepts ASCII digits only, while Kotlin's `digitToInt` also accepts other Unicode decimal digits.
- MoveReplay.ApplyMoveToBoard: returns the final board instead of writing the screen's board state after every step, and the handlers assign it once. Nothing reads the board between steps, and on a raise the returned board is the one the source leaves behind.
- ChessScreen.ChessSession.Tap: requires an on-board square, because the grid has only the 64 cells it creates.
- ChessScreen.ChessSession.SelectGame: requires an index below the number of saved games, because the game list shows exactly those.
- 32-bit `Int` overflow is not modelled. Every value the parser computes is a character code minus a small constant, which fits in 32 bits.
- MoveNotation.Parse: the text is a sequence of Unicode scalar values, while Kotlin's `length`, `substring` and indexing count UTF-16 code units. A character outside the Basic Multilingual Plane fills one position here and two in the app, so such text is cut into different windows. For example, "\U{1F600}g1f3" parses to one move here but raises in the app.
- ChessScreen.ReadMoves: computes `Parse`, so it has the same scalar-value windowing instead of UTF-16 windowing for characters outside the Basic Multilingual Plane.
- ChessScreen.ChessSession.SaveGame: appends `Parse` of the field, so for text with characters outside the Basic Multilingual Plane it can save a game where the app raises, or the reverse.
- MoveNotation.FirstCharIgnored: holds for any non-blank character that is one scalar value. In the app, a character outside the Basic Multilingual Plane takes two UTF-16 positions and shifts the token.
- MoveNotation.PaddedTokenDropped: holds for the scalar-value windowing. In the app, a token made of characters outside the Basic Multilingual Plane splits into different UTF-16 windows, which can be kept and raise.
