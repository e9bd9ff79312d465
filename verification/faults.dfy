/** Optional values, results, and the two exceptions the chess screen can raise. */
module Faults {

  /** Kotlin's nullable type `T?`. */
  datatype Option<+T> = None | Some(value: T)

  /** An exception the screen's handlers leave uncaught; on Android it ends the app. */
  datatype Fault =
    | NotADigit(ch: char)   // `Char.digitToInt()` on a character that is not a decimal digit
    | IndexOutOfBounds      // a board index outside 0..7

  /** A computation that either yields a value or raises a `Fault`. */
  datatype Result<+T> = Ok(value: T) | Err(fault: Fault)
}
