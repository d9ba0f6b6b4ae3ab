/** Every way the core of fen.py can fail. Almost all are a `FenException`
    carrying the message fen.py raises; two are `TypeError`s that fen.py
    lets escape. */
module Errors {

  datatype Error =
    | InvalidPiece(piece: char)            // "Invalid piece "
    | ExpectedSpace(got: char)             // "Expected space but got "
    | UnknownSide(side: char)              // "Unknown side to move "
    | UnknownCastlingSide(side: char)      // "Unkown castling side "
    | WrongEnPassant(token: string)        // "Wrong en peassant "
    | UnknownEnPassant(got: char)          // "Unknown en peassant: "
    | NotNumberForDrawMoves(got: char)     // "Not a number for draw_moves: "
    | NotNumberForMoveNumber(got: char)    // "Not a number for move_number: "
    | ExpectedBar                          // "Expected bar"
    | ZeroInFen                            // "0 in fen"
    | NumberTooBig                         // "Number too big in fen"
    | UnrecognizedVariable(name: char)     // "Unrecognized variable name "
    | NonexistentRow(row: char)            // "Nonexistent row "
    | NoneConcatenation(digit: char)       // TypeError: a rank digit appended to an unset en passant
    | InvalidAlignment(alignment: string)  // TypeError: alignment not `tright', `tleft' or empty

  /** The failures that fen.py reports as a `FenException` (the rest are crashes). */
  predicate IsFenException(e: Error) {
    !(e.NoneConcatenation? || e.InvalidAlignment?)
  }
}
