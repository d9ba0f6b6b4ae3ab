/** The FEN reader of fen.py (`Position.__init__`, fen.py:76-190): one
    left-to-right scan over the record, driven by the field it expects next,
    that fills an 8x8 board, the side to move, the castling rights, the en
    passant target and the two move counters, or raises at the first bad
    character. */
module Fen {
  import opened Wrappers
  import opened Errors
  import opened Chars
  import opened Squares

  const EmptyRow: seq<Square> := [' ', ' ', ' ', ' ', ' ', ' ', ' ', ' ']

  /** `squares[j][i]`: row 0 is rank 8, column 0 is file a. */
  type Grid = g: seq<seq<Square>> | |g| == 8 && forall r :: 0 <= r < |g| ==> |g[r]| == 8
    witness [EmptyRow, EmptyRow, EmptyRow, EmptyRow, EmptyRow, EmptyRow, EmptyRow, EmptyRow]

  const EmptyGrid: Grid := [EmptyRow, EmptyRow, EmptyRow, EmptyRow, EmptyRow, EmptyRow, EmptyRow, EmptyRow]

  /** A parsed FEN record. `None` is a field the record never reached. */
  datatype Position = Position(
    squares: Grid,
    side: Option<char>,
    castling: Option<string>,
    enPassant: Option<string>,
    drawMoves: nat,
    moveNumber: nat)

  /** What the scanner expects next, in the order the fields appear. */
  datatype Field =
    | Board | Bar | Space1 | Side | Space2 | Castling | EnPassant | Space3 | DrawMoves | MoveNumber

  predicate InBoard(f: Field) {
    f.Board? || f.Bar?
  }

  /** The scanner between two characters: the expected field, the file
      cursor `i` and rank cursor `j`, and the fields filled so far. */
  datatype Scan = Scan(
    field: Field,
    file: nat,
    rank: nat,
    squares: Grid,
    side: Option<char>,
    castling: Option<string>,
    enPassant: Option<string>,
    drawMoves: nat,
    moveNumber: nat)
  {
    function ToPosition(): Position {
      Position(squares, side, castling, enPassant, drawMoves, moveNumber)
    }
  }

  const Start: Scan := Scan(Board, 0, 0, EmptyGrid, None, None, None, 0, 0)

  /** The cursors stay on the board: a rank is left only at file 8, a bar is
      expected only between ranks, and the later fields only after rank 8. */
  predicate Wf(s: Scan) {
    s.file < 8 && s.rank <= 8 &&
    (s.field.Board? ==> s.rank < 8) &&
    (s.field.Bar? ==> 0 < s.rank < 8 && s.file == 0) &&
    (!InBoard(s.field) ==> s.rank == 8 && s.file == 0)
  }

  /** How many cells of the board (row by row) the scan has passed. */
  function Cursor(s: Scan): nat {
    8 * s.rank + s.file
  }

  /** The file cursor reached 8: start the next rank, which must be
      introduced by a bar unless this was the eighth. */
  function EndRank(s: Scan): Scan {
    s.(file := 0, rank := s.rank + 1, field := if s.rank + 1 == 8 then Space1 else Bar)
  }

  /** A blank between two fields. */
  function SeparatorStep(s: Scan, c: char): Result<Scan, Error>
    requires s.field.Space1? || s.field.Space2? || s.field.Space3?
  {
    if c != ' ' then Err(ExpectedSpace(c))
    else Ok(s.(field := if s.field.Space1? then Side else if s.field.Space2? then Castling else DrawMoves))
  }

  function SideStep(s: Scan, c: char): Result<Scan, Error> {
    if c == 'w' || c == 'b' then Ok(s.(field := Space2, side := Some(c)))
    else Err(UnknownSide(c))
  }

  function CastlingStep(s: Scan, c: char): Result<Scan, Error> {
    if IsSpace(c) then Ok(s.(field := EnPassant))
    else if c == '-' then Ok(s.(castling := Some("")))
    else if c in "KQkq" then Ok(s.(castling := Some(s.castling.GetOr("") + [c])))
    else Err(UnknownCastlingSide(c))
  }

  function EnPassantStep(s: Scan, c: char): Result<Scan, Error> {
    if IsAlpha(c) then
      if s.enPassant.None? then Ok(s.(enPassant := Some([c])))
      else Err(WrongEnPassant(s.enPassant.value + [c]))
    else if IsDigit(c) then
      if s.enPassant.None? then Err(NoneConcatenation(c))
      else Ok(s.(enPassant := Some(s.enPassant.value + [c]), field := Space3))
    else if c == '-' then Ok(s.(field := Space3))
    else Err(UnknownEnPassant(c))
  }

  function CounterStep(s: Scan, c: char): Result<Scan, Error>
    requires s.field.DrawMoves? || s.field.MoveNumber?
  {
    if s.field.DrawMoves? then
      if IsSpace(c) then Ok(s.(field := MoveNumber))
      else if IsDigit(c) then Ok(s.(drawMoves := 10 * s.drawMoves + DigitValue(c)))
      else Err(NotNumberForDrawMoves(c))
    else
      if IsDigit(c) then Ok(s.(moveNumber := 10 * s.moveNumber + DigitValue(c)))
      else Err(NotNumberForMoveNumber(c))
  }

  function BarStep(s: Scan, c: char): Result<Scan, Error> {
    if c == '/' then Ok(s.(field := Board)) else Err(ExpectedBar)
  }

  /** A board character. A run of `d` empty cells is taken in one step
      here; the method `SkipCells` walks it cell by cell as fen.py does. */
  function BoardStep(s: Scan, c: char): Result<Scan, Error>
    requires Wf(s) && s.field.Board?
  {
    if IsDigit(c) then
      var d := DigitValue(c);
      if d == 0 then Err(ZeroInFen)
      else if s.file + d > 8 then Err(NumberTooBig)
      else if s.file + d == 8 then Ok(EndRank(s))
      else Ok(s.(file := s.file + d))
    else
      match MakeSquare(c)
      case Err(e) => Err(e)
      case Ok(piece) =>
        var row: seq<Square> := s.squares[s.rank][s.file := piece];
        var placed := s.(squares := s.squares[s.rank := row]);
        if s.file + 1 == 8 then Ok(EndRank(placed)) else Ok(placed.(file := s.file + 1))
  }

  /** One character of the record, read by the field the scan expects. */
  function Step(s: Scan, c: char): (r: Result<Scan, Error>)
    requires Wf(s)
    ensures r.Ok? ==> Wf(r.value) && Cursor(s) <= Cursor(r.value)
    ensures r.Ok? && !InBoard(s.field) ==> !InBoard(r.value.field) && r.value.squares == s.squares
  {
    match s.field
    case Space1 => SeparatorStep(s, c)
    case Space2 => SeparatorStep(s, c)
    case Space3 => SeparatorStep(s, c)
    case Side => SideStep(s, c)
    case Castling => CastlingStep(s, c)
    case EnPassant => EnPassantStep(s, c)
    case DrawMoves => CounterStep(s, c)
    case MoveNumber => CounterStep(s, c)
    case Bar => BarStep(s, c)
    case Board => BoardStep(s, c)
  }

  /** The scan of `t` from `s`: stops at the first failing character and
      performs no check once the input runs out. */
  function Run(s: Scan, t: string): (r: Result<Scan, Error>)
    requires Wf(s)
    ensures r.Ok? ==> Wf(r.value) && Cursor(s) <= Cursor(r.value)
    ensures r.Ok? && !InBoard(s.field) ==> !InBoard(r.value.field) && r.value.squares == s.squares
    decreases |t|
  {
    if t == [] then Ok(s)
    else
      match Step(s, t[0])
      case Err(e) => Err(e)
      case Ok(next) => Run(next, t[1..])
  }

  function Scanning(fen: string): Result<Scan, Error> {
    Run(Start, fen)
  }

  /** `Position(fen)`: the position read from `fen`, or the exception. */
  function ParseFen(fen: string): Result<Position, Error> {
    match Scanning(fen)
    case Err(e) => Err(e)
    case Ok(s) => Ok(s.ToPosition())
  }

  /** A blank that separates two fields (fen.py:99-109). */
  method ReadSeparator(s: Scan, c: char) returns (r: Result<Scan, Error>)
    requires Wf(s) && (s.field.Space1? || s.field.Space2? || s.field.Space3?)
    ensures r == Step(s, c)
  {
    if c != ' ' {
      return Err(ExpectedSpace(c));
    }
    var field := if s.field.Space1? then Side else if s.field.Space2? then Castling else DrawMoves;
    r := Ok(s.(field := field));
  }

  /** The side to move (fen.py:110-115). */
  method ReadSide(s: Scan, c: char) returns (r: Result<Scan, Error>)
    requires Wf(s) && s.field.Side?
    ensures r == Step(s, c)
  {
    if c == 'w' || c == 'b' {
      return Ok(s.(field := Space2, side := Some(c)));
    }
    r := Err(UnknownSide(c));
  }

  /** The castling rights (fen.py:116-128). */
  method ReadCastling(s: Scan, c: char) returns (r: Result<Scan, Error>)
    requires Wf(s) && s.field.Castling?
    ensures r == Step(s, c)
  {
    var castling := s.castling;
    if IsSpace(c) {
      return Ok(s.(field := EnPassant));
    }
    if c == '-' {
      return Ok(s.(castling := Some("")));
    }
    if c in "KQkq" {
      if castling.None? {
        castling := Some("");
      }
      castling := Some(castling.value + [c]);
      return Ok(s.(castling := castling));
    }
    r := Err(UnknownCastlingSide(c));
  }

  /** The en passant target (fen.py:129-143). */
  method ReadEnPassant(s: Scan, c: char) returns (r: Result<Scan, Error>)
    requires Wf(s) && s.field.EnPassant?
    ensures r == Step(s, c)
  {
    if IsAlpha(c) {
      if s.enPassant.None? {
        return Ok(s.(enPassant := Some([c])));
      }
      return Err(WrongEnPassant(s.enPassant.value + [c]));
    }
    if IsDigit(c) {
      if s.enPassant.None? {
        return Err(NoneConcatenation(c));
      }
      return Ok(s.(enPassant := Some(s.enPassant.value + [c]), field := Space3));
    }
    if c == '-' {
      return Ok(s.(field := Space3));
    }
    r := Err(UnknownEnPassant(c));
  }

  /** The half-move clock and the move number (fen.py:144-156). */
  method ReadCounter(s: Scan, c: char) returns (r: Result<Scan, Error>)
    requires Wf(s) && (s.field.DrawMoves? || s.field.MoveNumber?)
    ensures r == Step(s, c)
  {
    if s.field.DrawMoves? {
      if IsSpace(c) {
        return Ok(s.(field := MoveNumber));
      }
      if IsDigit(c) {
        return Ok(s.(drawMoves := 10 * s.drawMoves + DigitValue(c)));
      }
      return Err(NotNumberForDrawMoves(c));
    }
    if IsDigit(c) {
      return Ok(s.(moveNumber := 10 * s.moveNumber + DigitValue(c)));
    }
    r := Err(NotNumberForMoveNumber(c));
  }

  /** The bar between two ranks (fen.py:157-161). */
  method ReadBar(s: Scan, c: char) returns (r: Result<Scan, Error>)
    requires Wf(s) && s.field.Bar?
    ensures r == Step(s, c)
  {
    if c == '/' {
      return Ok(s.(field := Board));
    }
    r := Err(ExpectedBar);
  }

  /** A digit in the board field (fen.py:165-181): skips that many cells
      one at a time; reaching file 8 ends the rank, and a digit that
      overruns it is refused. */
  method SkipCells(s: Scan, c: char) returns (r: Result<Scan, Error>)
    requires Wf(s) && s.field.Board? && IsDigit(c)
    ensures r == Step(s, c)
  {
    var i, j, field := s.file, s.rank, s.field;
    var n := DigitValue(c);
    ghost var d := n;
    if n == 0 {
      return Err(ZeroInFen);
    }
    while n != 0
      invariant n <= d
      invariant s.file + (d - n) < 8 ==> i == s.file + (d - n) && j == s.rank && field.Board?
      invariant s.file + (d - n) >= 8 ==>
        s.file + d == 8 && n == 0 && i == 0 && j == s.rank + 1 && field == (if j == 8 then Space1 else Bar)
    {
      n := n - 1;
      i := i + 1;
      if i == 8 {
        i := 0;
        j := j + 1;
        field := Bar;
        if n != 0 {
          return Err(NumberTooBig);
        }
        if j == 8 {
          field := Space1;
        }
      }
    }
    r := Ok(s.(field := field, file := i, rank := j));
  }

  /** Any other character in the board field (fen.py:182-190): a piece
      symbol fills the cell under the cursor; filling file 8 ends the
      rank. */
  method PlaceSymbol(s: Scan, c: char) returns (r: Result<Scan, Error>)
    requires Wf(s) && s.field.Board? && !IsDigit(c)
    ensures r == Step(s, c)
  {
    assert Step(s, c) == BoardStep(s, c);
    var i, j, field, squares := s.file, s.rank, s.field, s.squares;
    var piece := MakeSquare(c);
    if piece.Err? {
      return Err(piece.error);
    }
    var row: seq<Square> := squares[j][i := piece.value];
    squares := squares[j := row];
    i := i + 1;
    if i == 8 {
      i := 0;
      j := j + 1;
      field := Bar;
      if j == 8 {
        field := Space1;
      }
    }
    r := Ok(s.(field := field, file := i, rank := j, squares := squares));
  }

  /** The board field (fen.py:165-190). */
  method ReadBoardChar(s: Scan, c: char) returns (r: Result<Scan, Error>)
    requires Wf(s) && s.field.Board?
    ensures r == Step(s, c)
  {
    if IsDigit(c) {
      r := SkipCells(s, c);
    } else {
      r := PlaceSymbol(s, c);
    }
  }

  /** One character, handled by the branch of the field the scan expects. */
  method ReadChar(s: Scan, c: char) returns (r: Result<Scan, Error>)
    requires Wf(s)
    ensures r == Step(s, c)
  {
    match s.field
    case Space1 => r := ReadSeparator(s, c);
    case Space2 => r := ReadSeparator(s, c);
    case Space3 => r := ReadSeparator(s, c);
    case Side => r := ReadSide(s, c);
    case Castling => r := ReadCastling(s, c);
    case EnPassant => r := ReadEnPassant(s, c);
    case DrawMoves => r := ReadCounter(s, c);
    case MoveNumber => r := ReadCounter(s, c);
    case Bar => r := ReadBar(s, c);
    case Board => r := ReadBoardChar(s, c);
  }

  /** The constructor of fen.py (fen.py:76-190): an empty board and unset
      fields, then one left-to-right pass over the record that stops at the
      first exception; whatever field the input ends in, the position is
      returned. */
  method Parse(fen: string) returns (r: Result<Position, Error>)
    ensures r == ParseFen(fen)
  {
    var scan := Start;
    var k := 0;
    while k < |fen|
      invariant k <= |fen| && Wf(scan)
      invariant Scanning(fen) == Run(scan, fen[k..])
    {
      assert fen[k..][0] == fen[k] && fen[k..][1..] == fen[k + 1..];
      var next := ReadChar(scan, fen[k]);
      if next.Err? {
        return Err(next.error);
      }
      scan := next.value;
      k := k + 1;
    }
    r := Ok(scan.ToPosition());
  }
}
