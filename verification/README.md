# fen.py in Dafny

A model of `fen.py`, a small tool that turns a chess position written in
Forsyth–Edwards Notation (FEN, section 16.1 of the PGN Specification and
Implementation Guide) into the chess-diagram template of the Spanish
Wikipedia, with proofs about it. It models:

- `Square` (`square.dfy`). A board cell is a subset type over the piece
  alphabet `PBNRQKpbnrqk AaCcFfGgMmEeSsHhZzWw`, so fairy pieces are
  included and `' '` is the empty cell. The module also has the
  constructor's check and the `isempty`, `iswhite`, `uncolor` and
  `wikiformat` queries.
- The `Position` constructor (`fen.dfy`). This is the FEN reader: one
  left-to-right scan driven by the field it expects next
  (board, bar, blank, side, blank, castling, en passant, blank, half-move
  clock, move number).
  - `Fen.Parse` is the loop of fen.py.
  - Each field has its own method (`ReadSide`, `ReadCastling`, ...).
    A digit on the board is walked cell by cell in `SkipCells`, as the
    inner `while` loop does.
  - Every method is proved equal to the functional specification
    `Step` / `Run` / `ParseFen`. That specification takes a digit run in
    one step.
  - The exceptions are the values of `Errors.Error`.
- The reader's laws (`fen_properties.dfy`):
  - each field's accept/reject rules;
  - a failure is final;
  - truncated input is accepted;
  - castling letters accumulate and a dash resets them;
  - counters are read as `v := 10 * v + d`;
  - the board is the run-length expansion of the board text.
- A FEN writer for canonical positions, and the proof that the reader
  reads back what it writes (`fen_encoding.dfy`). fen.py has no writer;
  this one exists only as the reader's partner.
- `longside` and `substitute_vars` (`template.dfy`).
  - The three-state loop is `SubstituteVars`, and its body, one
    character in the current mode, is `Advance`. The loop is proved equal
    to the recursive specification `Substitute`, which works token by
    token.
  - Further lemmas give the meaning of each variable (`%m %s %e %d %c %%`,
    `%A1`..`%H8`) and the error cases.
- `pos2diagram` (`diagram.dfy`).
  - It is a method with the nested loops of fen.py, proved equal to the
    layout function `DiagramText`.
  - Lemmas locate every rank label and cell in the text and show that the
    diagram determines the board.

Python's character classes `isspace`, `isalpha`, `isnumeric`, `isupper`
and `lower` are taken on ASCII (`chars.dfy`). Whitespace is
`\t`..`\r`, `\x1c`..`\x1f` and `' '`.

Where Python raises a `TypeError` instead of `FenException`, the model
returns an error value like any other:
- `NoneConcatenation` is `None += char`, when a digit starts the en passant
  field.
- `InvalidAlignment` is `pos2diagram`'s refusal of an alignment.

`Errors.IsFenException` tells these apart from the `FenException`s.

## Model

| member | source | states |
|---|---|---|
| Squares.MakeSquare | fen.py:35-41 | `Square(c)` succeeds exactly when `c` is in the piece alphabet, keeping `c`; otherwise it fails with "Invalid piece c" |
| Squares.EmptyIsNotALetter | fen.py:43-44 | `isempty` holds exactly for the one symbol of the alphabet that is not a letter |
| Squares.WhitePieces | fen.py:46-47 | `iswhite` holds exactly for the upper-case half of the alphabet, `PBNRQKACFGMESHZW`, and never for the empty cell |
| Squares.Uncolor | fen.py:49-50 | the lower-case letter of the piece: never upper case, blank exactly for the empty square, the upper-case form of a white piece, a black piece unchanged |
| Squares.Wikiformat | fen.py:52-63 | two characters: `"  "` exactly for the empty square, otherwise the uncoloured letter followed by `l` exactly when the piece is white and `d` otherwise |
| Squares.WikiRoundTrip | fen.py:52-63 | the wiki form of a square can be decoded back to that square |
| Squares.WikiformatInjective | fen.py:52-63 | different squares have different wiki forms |
| Chars.NatToString | fen.py:278 | `str(n)`, also used at fen.py:240 and 287: a nonempty run of decimal digits without a leading zero |
| Chars.DecimalRoundTrip | fen.py:149-154 | accumulating `10 * v + d` over the decimal digits of `n` gives back `n` |
| Chars.AccumulateAppend | fen.py:148-154 | reading the digits of `a + b` into a counter is reading `a`, then `b` |
| Fen.Step | fen.py:98-190 | a step that succeeds keeps the cursors on the board and never moves them back; once the board is finished, no step changes it or returns to it |
| Fen.Run | fen.py:98-190 | the same two laws over a whole string |
| Fen.ReadSeparator | fen.py:99-109 | a blank moves on to the side, castling or half-move field; anything else raises "Expected space" (equals `Step`) |
| Fen.ReadSide | fen.py:110-115 | `w` or `b` is stored as the side to move; anything else raises "Unknown side to move" (equals `Step`) |
| Fen.ReadCastling | fen.py:116-128 | whitespace ends the field, `-` empties it, `KQkq` are appended, anything else raises (equals `Step`) |
| Fen.ReadEnPassant | fen.py:129-143 | a first letter is stored, a second letter raises, a digit completes the target (or fails with no letter before it), `-` moves on, anything else raises (equals `Step`) |
| Fen.ReadCounter | fen.py:144-156 | digits accumulate as `10 * v + d`; whitespace ends the half-move clock; any other character raises (equals `Step`) |
| Fen.ReadBar | fen.py:157-161 | `/` starts the next rank; anything else raises "Expected bar" (equals `Step`) |
| Fen.SkipCells | fen.py:165-181 | the inner loop over a digit equals `Step`: 0 raises "0 in fen", a digit that passes file 8 raises "Number too big", a digit that reaches file 8 ends the rank |
| Fen.PlaceSymbol | fen.py:182-190 | a piece letter is written under the cursor, which advances and ends the rank at file 8; any other symbol raises "Invalid piece" (equals `Step`) |
| Fen.ReadBoardChar | fen.py:165-190 | a board character is handled exactly as `Step` does |
| Fen.ReadChar | fen.py:99-190 | one character is handled exactly as `Step` does, whatever field is expected |
| Fen.Parse | fen.py:76-190 | the constructor's loop returns exactly `ParseFen(fen)`: the position after the whole record, or the first exception |
| FenProperties.RunAppend | fen.py:98 | scanning `a + b` is scanning `a`, then continuing with `b` unless `a` failed |
| FenProperties.RunOne | fen.py:98 | scanning one character is one step |
| FenProperties.ScanningSnoc | fen.py:98 | scanning one more character is one more step after the scan so far |
| FenProperties.TruncatedRecordAccepted | fen.py:81-98 | every prefix of an accepted record is accepted; the empty record gives the empty board, no side, castling or en passant, and counters 0 |
| FenProperties.FailureIsFinal | fen.py:98-190 | once the record fails, nothing appended to it changes the exception |
| FenProperties.Rejects | fen.py:98-190 | a character the current field refuses fails the whole record with that exception, whatever follows |
| FenProperties.BoardRejects | fen.py:165-182 | on the board: `0` raises "0 in fen", a digit that passes file 8 raises "Number too big", a non-digit outside the alphabet raises "Invalid piece", and so does `/` inside a rank |
| FenProperties.SeparatorRejects | fen.py:99-161 | after a full rank only `/` is accepted, each blank between fields is exactly `' '`, and the side is `w` or `b` |
| FenProperties.CastlingRejects | fen.py:116-128 | a castling character other than whitespace, `-` and `KQkq` raises "Unkown castling side" |
| FenProperties.EnPassantRejects | fen.py:129-143 | a second letter raises "Wrong en peassant", a digit first is the `None += char` failure, and any other non-dash character raises |
| FenProperties.DrawMovesRejects | fen.py:144-151 | a half-move clock character other than whitespace or a digit raises |
| FenProperties.MoveNumberRejects | fen.py:152-156 | a move number character other than a digit raises |
| FenProperties.StepFailure | fen.py:99-190 | every exception of one step is a `FenException`, except the `None += char` crash |
| FenProperties.RunFailure | fen.py:98-190 | the same over a whole string |
| FenProperties.ParseFailure | fen.py:76-190 | reading a record raises only `FenException`s, apart from the `TypeError` of a digit that starts the en passant field (fen.py:136-137) |
| FenProperties.CastlingRun | fen.py:116-127 | reading castling characters leaves the castling value `CastlingAfter` and nothing else changed |
| FenProperties.CastlingAfterLetters | fen.py:123-127 | letters only: the castling value is the old one (or empty) followed by the letters in order |
| FenProperties.CastlingAfterDash | fen.py:120-127 | after a dash, only the letters after it remain |
| FenProperties.CastlingLettersAppend | fen.py:123-127 | `KQkq` letters are appended in the order read, repeats included |
| FenProperties.CastlingDashResets | fen.py:120-127 | a dash discards the letters before it; only the letters after the last dash remain |
| FenProperties.CastlingEndsAtBlank | fen.py:117-119 | whitespace ends the castling field and moves on to en passant |
| FenProperties.EnPassantTarget | fen.py:130-139 | a letter then a digit give the two-character target and move on to the blank |
| FenProperties.EnPassantMalformed | fen.py:130-137 | two letters raise "Wrong en peassant"; a digit with no letter before it fails |
| FenProperties.EnPassantNone | fen.py:140-142 | `-` leaves the target unset and moves on |
| FenProperties.CounterField | fen.py:144-156 | a run of digits in either counter accumulates as `v := 10 * v + d`, nothing else changing |
| FenProperties.TrailingDigitsAbsorbed | fen.py:152-155 | digits after the move number extend it instead of being refused |
| FenProperties.PieceExpands | fen.py:182-190 | a piece fills the cell under the cursor, which is the next cell of the expansion |
| FenProperties.SkipExpands | fen.py:157-181 | a digit or a bar leaves the board unchanged and extends the expansion by blanks only |
| FenProperties.StepExpands | fen.py:157-190 | every accepted board character extends the expansion by its own cells |
| FenProperties.BoardIsExpansionOf | fen.py:157-190 | while the board is read, the cursor has passed exactly the run-length expansion of the board text |
| FenProperties.BoardIsExpansion | fen.py:165-190 | while the board is read, the cells passed hold the expansion of the text read and every other cell is still blank |
| FenProperties.BoardRefusesBar | fen.py:182 | `/` on the board field, inside a rank, raises "Invalid piece /" |
| FenProperties.ExpansionLength | fen.py:165-190 | the expansion of the board text read so far is as long as the cells passed |
| FenProperties.BarOnlyAfterFullRank | fen.py:157-190 | a bar is accepted only after a whole number of ranks, between 1 and 7 |
| FenProperties.ExpansionAtBoardEnd | fen.py:172-190 | the character that completes the board leaves a board that is the expansion of the text read |
| FenProperties.CompletedBoardIsExpansion | fen.py:165-190 | an accepted record's board text expands to exactly 64 cells, and these are the final board, cell by cell |
| FenEncoding.SkipEmpties | fen.py:165-181 | a digit skips that many cells, ending the rank at file 8 |
| FenEncoding.PlacePiece | fen.py:182-190 | a piece is placed under the cursor, which advances |
| FenEncoding.EmptiesThenPiece | fen.py:165-190 | a digit and a piece place the piece after the skipped cells |
| FenEncoding.RankRoundTrip | fen.py:165-190 | reading the FEN of a rank, from any number of pending empties, fills exactly that rank |
| FenEncoding.RankBlank | fen.py:165-181 | an empty cell at the head of the rank is absorbed in the pending count |
| FenEncoding.RankLastPiece | fen.py:182-190 | the rank's last cell, a piece, ends the rank |
| FenEncoding.RankInnerPiece | fen.py:182-190 | a piece inside the rank is placed, and the rest of the rank is read after it |
| FenEncoding.ReadFullRank | fen.py:165-190 | reading the FEN of one rank fills that row and ends the rank |
| FenEncoding.BoardRoundTrip | fen.py:157-190 | reading the FEN of the board from any rank fills the rest of the board and moves on to the first blank |
| FenEncoding.BoardNextRank | fen.py:157-161 | after a rank that is not the last, the bar and the next ranks are read |
| FenEncoding.ReadBlank | fen.py:99-109 | a blank is read as a separator |
| FenEncoding.SideRoundTrip | fen.py:99-115 | a blank, a side and a blank store the side and move on to castling |
| FenEncoding.CastlingRoundTrip | fen.py:116-128 | the written castling field is read back, ending at the blank |
| FenEncoding.EnPassantRoundTrip | fen.py:129-143 | the written en passant field is read back, ending at the blank |
| FenEncoding.CountersRoundTrip | fen.py:144-156 | the written counters are read back |
| FenEncoding.TailRoundTrip | fen.py:99-156 | everything after the board is read back |
| FenEncoding.FenRoundTrip | fen.py:76-190 | every canonical position is read back unchanged from its FEN |
| Template.LongSide | fen.py:192-198 | `blancas` exactly for side `w`, `negras` exactly for `b`, and the empty string otherwise |
| Template.Column | fen.py:264-275 | a column exactly for `A`..`H`, numbered from 0 |
| Template.Row | fen.py:297-298 | a row of the board, whose rank label `8 - r` is the digit it was read from |
| Template.NormalChar | fen.py:257-262 | outside a variable, `%` starts one and any other character is copied |
| Template.VariableChar | fen.py:263-295 | after `%`, a column letter waits for a row, a known name emits its value, and anything else raises "Unrecognized variable name" |
| Template.RowChar | fen.py:296-303 | after a column, a rank digit emits that square and anything else raises "Nonexistent row" |
| Template.Advance | fen.py:257-303 | one character in the current mode: the new mode and the text written are exactly what filling the rest from the new mode needs, and an exception is the exception of `Substitute` |
| Template.SubstituteVars | fen.py:248-305 | the three-state loop returns exactly `Substitute(t, p)` |
| Template.SubstituteFailure | fen.py:295-303 | filling a template fails only with a `FenException`, "Unrecognized variable name" or "Nonexistent row" |
| Template.EscapedPercent | fen.py:292-294 | `%%` writes one `%` |
| Template.CopiedChar | fen.py:257-262 | a character other than `%` is copied |
| Template.EscapeRoundTrip | fen.py:256-294 | text with every `%` doubled comes out as the text itself, followed by the expansion of what comes after it |
| Template.NoMarkerIdentity | fen.py:257-262 | text without `%` is copied unchanged |
| Template.SquareVariable | fen.py:263-302 | `%` with column `X` and rank `r` emits the piece on `squares[8 - r][X]` |
| Template.NamedVariable | fen.py:276-294 | `%m` and `%d` emit the counters in decimal, `%s` the long side, `%e` and `%c` the field or `None`, and `%%` a `%` |
| Template.UnknownVariable | fen.py:276-295 | any other name after `%` raises "Unrecognized variable name" |
| Template.RowOutOfBoard | fen.py:296-303 | a column followed by something other than `1`..`8` raises "Nonexistent row" |
| Template.TrailingMarkerDropped | fen.py:256-305 | a `%` or `%X` at the end of the template is dropped without an error |
| Diagram.WikiRowDecodes | fen.py:241-242 | each cell written for a rank reads back to its square |
| Diagram.Label | fen.py:240 | row `j` is labelled with rank `8 - j` between blanks |
| Diagram.Pos2Diagram | fen.py:231-246 | an alignment other than `tright`, `tleft` or none is refused; otherwise the text is the header block, the eight rank lines and the footer block |
| Diagram.LineShowsCell | fen.py:240-243 | a rank line starts with its rank number and holds cell `k` at offset `4 + 3 * k` |
| Diagram.JoinedAt | fen.py:235-245 | character `m` of line `j` sits at that offset after the header block |
| Diagram.DiagramFraming | fen.py:235-245 | the text is the header block, 240 characters of rank lines, and the footer block |
| Diagram.DiagramShowsSquare | fen.py:235-245 | the line of row `j` shows rank `8 - j`, and the square in column `k` is written in wiki form at its offset |
| Diagram.DiagramDeterminesBoard | fen.py:235-245 | two positions with the same diagram have the same board |

## Left out

- The command-line block (fen.py:307-359) is left out. It is argument
  parsing, file reading and printing.
- `__str__` and `__repr__` of `Square` and `Position` (fen.py:65-69,
  200-223) are left out. They are debug printers.
- The runtime type checks are left out: a FEN that is not a string
  (fen.py:78-79), a non-`Position` argument (fen.py:227-229) and a
  non-string piece (fen.py:41). Dafny's types rule these inputs out.
- Unicode character classes are left out. `isspace`, `isalpha`,
  `isnumeric` and `int()` are modelled on ASCII only. Where fen.py accepts
  a non-ASCII character, the model refuses it: a no-break space `\u00a0`
  ends fen.py's castling field but raises `UnknownCastlingSide` here, and
  an `é` is stored by fen.py's en passant field but raises
  `UnknownEnPassant` here. The `*Rejects` lemmas of `FenProperties`
  describe fen.py on ASCII input only.
- The "Unknown state" exceptions (fen.py:163-164, 304) are left out. The
  closed datatypes `Field` and `Mode` make them unreachable.
- The exception messages are not modelled as strings. Each exception is a
  constructor of `Errors.Error` carrying the character or text that the
  message names.
- `Fen.Step` takes a digit run on the board in one step, while fen.py walks
  it cell by cell. The cell-by-cell walk is kept in the method
  `Fen.SkipCells`, which is proved to agree with `Step`.
- `Position` is a value, not an object whose fields change. The fields that
  fen.py updates in place are the fields of the `Scan` value that the loop
  carries, one step to the next.
- `Diagram.Pos2Diagram` tests the alignment against the three accepted
  values directly, where fen.py looks it up in a list.
- The FEN writer `FenEncoding.ToFen` has no counterpart in fen.py.
