/** Filling a text template with values taken from a position: `%m` is the
    move number, `%s` the side to move in words, `%e` the en passant field,
    `%d` the draw-move counter, `%c` the castling field, `%%` a percent
    sign, and `%` followed by a column A-H and a row 1-8 is the symbol of
    the piece on that square. */
module Template {
  import opened Wrappers
  import opened Errors
  import opened Chars
  import opened Squares
  import opened Fen

  /** The side to move, named in Spanish; empty when there is none. */
  function LongSide(p: Position): (r: string)
    ensures r in {"blancas", "negras", ""}
    ensures r == "blancas" <==> p.side == Some('w')
    ensures r == "negras" <==> p.side == Some('b')
  {
    if p.side == Some('w') then "blancas"
    else if p.side == Some('b') then "negras"
    else ""
  }

  /** An optional text field written as Python writes it: an unset field
      reads "None". */
  function OptionText(o: Option<string>): string {
    if o.None? then "None" else o.value
  }

  /** The column a letter names, if it names one. */
  function Column(c: char): (r: Option<nat>)
    ensures r.Some? <==> 'A' <= c <= 'H'
    ensures r.Some? ==> r.value < 8 && ColumnLetter(r.value) == c
  {
    if 'A' <= c <= 'H' then Some(c as int - 'A' as int) else None
  }

  function ColumnLetter(k: nat): char
    requires k < 8
  {
    ('A' as int + k) as char
  }

  /** The row of the board a rank digit names: rank 8 is row 0, at the
      top. */
  function Row(c: char): (r: nat)
    requires '1' <= c <= '8'
    ensures r < 8 && DigitChar(8 - r) == c
  {
    8 - DigitValue(c)
  }

  /** The value of a one-letter variable other than a square. */
  function Value(v: char, p: Position): Option<string> {
    match v
    case 'm' => Some(NatToString(p.moveNumber))
    case 's' => Some(LongSide(p))
    case 'e' => Some(OptionText(p.enPassant))
    case 'd' => Some(NatToString(p.drawMoves))
    case 'c' => Some(OptionText(p.castling))
    case '%' => Some("%")
    case _ => None
  }

  function Prepend(u: string, r: Result<string, Error>): Result<string, Error> {
    if r.Ok? then Ok(u + r.value) else r
  }

  /** The template `t` filled with values from `p`, variable by variable.
      A variable cut short by the end of the template writes nothing. */
  function Substitute(t: string, p: Position): Result<string, Error>
    decreases |t|
  {
    if t == [] then Ok("")
    else if t[0] != '%' then Prepend([t[0]], Substitute(t[1..], p))
    else if |t| == 1 then Ok("")
    else if Column(t[1]).Some? then
      if |t| == 2 then Ok("")
      else if '1' <= t[2] <= '8' then
        Prepend([p.squares[Row(t[2])][Column(t[1]).value]], Substitute(t[3..], p))
      else Err(NonexistentRow(t[2]))
    else if Value(t[1], p).Some? then Prepend(Value(t[1], p).value, Substitute(t[2..], p))
    else Err(UnrecognizedVariable(t[1]))
  }

  /** What the scanner of `SubstituteVars` expects next. */
  datatype Mode = Normal | Var | Number(column: nat)

  /** The part of a variable the scanner has read but not yet written. */
  function Unread(m: Mode): string
    requires m.Number? ==> m.column < 8
  {
    match m
    case Normal => ""
    case Var => "%"
    case Number(k) => ['%', ColumnLetter(k)]
  }

  lemma PrependPrepend(a: string, b: string, r: Result<string, Error>)
    ensures Prepend(a, Prepend(b, r)) == Prepend(a + b, r)
  {
    if r.Ok? {
      assert a + (b + r.value) == (a + b) + r.value;
    }
  }

  // One character of the scan of `SubstituteVars`, in terms of
  // `Substitute`: what it writes and which mode it leaves.

  lemma NormalChar(c: char, rest: string, p: Position)
    ensures c == '%' ==> Substitute(Unread(Normal) + ([c] + rest), p) == Substitute(Unread(Var) + rest, p)
    ensures c != '%' ==>
      Substitute(Unread(Normal) + ([c] + rest), p) == Prepend([c], Substitute(Unread(Normal) + rest, p))
  {
    assert Unread(Normal) + ([c] + rest) == [c] + rest;
    assert Unread(Normal) + rest == rest;
    assert ([c] + rest)[1..] == rest;
  }

  lemma VariableChar(c: char, rest: string, p: Position)
    ensures Column(c).Some? ==>
      Substitute(Unread(Var) + ([c] + rest), p) == Substitute(Unread(Number(Column(c).value)) + rest, p)
    ensures Column(c).None? && Value(c, p).Some? ==>
      Substitute(Unread(Var) + ([c] + rest), p) == Prepend(Value(c, p).value, Substitute(Unread(Normal) + rest, p))
    ensures Column(c).None? && Value(c, p).None? ==>
      Substitute(Unread(Var) + ([c] + rest), p) == Err(UnrecognizedVariable(c))
  {
    var u := Unread(Var) + ([c] + rest);
    if Column(c).Some? {
      assert Unread(Number(Column(c).value)) + rest == u;
    } else {
      assert u[0] == '%' && u[1] == c && u[2..] == rest;
      assert Unread(Normal) + rest == rest;
    }
  }

  lemma RowChar(k: nat, c: char, rest: string, p: Position)
    requires k < 8
    ensures '1' <= c <= '8' ==>
      Substitute(Unread(Number(k)) + ([c] + rest), p) ==
      Prepend([p.squares[Row(c)][k]], Substitute(Unread(Normal) + rest, p))
    ensures !('1' <= c <= '8') ==> Substitute(Unread(Number(k)) + ([c] + rest), p) == Err(NonexistentRow(c))
  {
    var u := Unread(Number(k)) + ([c] + rest);
    assert u[0] == '%' && u[1] == ColumnLetter(k) && u[2] == c && u[3..] == rest;
    assert Unread(Normal) + rest == rest;
  }

  /** One character of the template, read in the scanner's mode `mode`
      (the body of the loop of fen.py): the next mode and the text written,
      or the exception. Whatever `rest` follows, filling what is left from
      the new mode writes the same as filling it from the old one. */
  method Advance(mode: Mode, c: char, ghost rest: string, p: Position)
    returns (r: Result<(Mode, string), Error>)
    requires mode.Number? ==> mode.column < 8
    ensures r.Ok? ==> r.value.0.Number? ==> r.value.0.column < 8
    ensures r.Ok? ==>
      Substitute(Unread(mode) + ([c] + rest), p) == Prepend(r.value.1, Substitute(Unread(r.value.0) + rest, p))
    ensures r.Err? ==> Substitute(Unread(mode) + ([c] + rest), p) == Err(r.error)
  {
    match mode {
      case Normal =>
        NormalChar(c, rest, p);
        if c == '%' {
          PrependNothing(Substitute(Unread(Var) + rest, p));
          return Ok((Var, ""));
        }
        return Ok((Normal, [c]));
      case Var =>
        VariableChar(c, rest, p);
        var column := Column(c);
        if column.Some? {
          PrependNothing(Substitute(Unread(Number(column.value)) + rest, p));
          return Ok((Number(column.value), ""));
        }
        var value := Value(c, p);
        if value.None? {
          return Err(UnrecognizedVariable(c));
        }
        return Ok((Normal, value.value));
      case Number(column) =>
        RowChar(column, c, rest, p);
        if !('1' <= c <= '8') {
          return Err(NonexistentRow(c));
        }
        return Ok((Normal, [p.squares[Row(c)][column]]));
    }
  }

  lemma HeadTail<T>(t: seq<T>, k: nat)
    requires k < |t|
    ensures t[k..] == [t[k]] + t[k + 1..]
  {
  }

  /** Fills the template one character at a time, as fen.py does. */
  method SubstituteVars(t: string, p: Position) returns (r: Result<string, Error>)
    ensures r == Substitute(t, p)
  {
    var result := "";
    var mode := Normal;
    var k := 0;
    assert Unread(mode) + t[k..] == t;
    PrependNothing(Substitute(t, p));
    while k < |t|
      invariant k <= |t|
      invariant mode.Number? ==> mode.column < 8
      invariant Substitute(t, p) == Prepend(result, Substitute(Unread(mode) + t[k..], p))
      decreases |t| - k
    {
      ghost var rest := t[k + 1..];
      HeadTail(t, k);
      var step := Advance(mode, t[k], rest, p);
      if step.Err? {
        return Err(step.error);
      }
      var written := step.value.1;
      PrependPrepend(result, written, Substitute(Unread(step.value.0) + rest, p));
      result := result + written;
      mode := step.value.0;
      k := k + 1;
      assert t[k..] == rest;
    }
    assert Unread(mode) + t[k..] == Unread(mode);
    r := Ok(result);
    assert result + "" == result;
  }

  // ---------------------------------------------------------------------
  // What a template produces

  /** `u` with every percent sign doubled, so that it fills to itself. */
  function Escape(u: string): (r: string)
    ensures |r| >= |u|
  {
    if u == [] then [] else (if u[0] == '%' then "%%" else [u[0]]) + Escape(u[1..])
  }

  lemma PrependNothing(r: Result<string, Error>)
    ensures Prepend("", r) == r
  {
    if r.Ok? {
      assert "" + r.value == r.value;
    }
  }

  /** `%%` writes one percent sign. */
  lemma EscapedPercent(tail: string, p: Position)
    ensures Substitute("%%" + tail, p) == Prepend("%", Substitute(tail, p))
  {
    assert ("%%" + tail)[2..] == tail;
  }

  /** Any other character is copied. */
  lemma CopiedChar(c: char, tail: string, p: Position)
    requires c != '%'
    ensures Substitute([c] + tail, p) == Prepend([c], Substitute(tail, p))
  {
    assert ([c] + tail)[1..] == tail;
  }

  /** Text is copied, `%%` becomes `%`, and whatever follows is filled
      independently of what came before. */
  lemma {:induction false} EscapeRoundTrip(u: string, b: string, p: Position)
    ensures Substitute(Escape(u) + b, p) == Prepend(u, Substitute(b, p))
    decreases |u|
  {
    if u == [] {
      assert Escape(u) + b == b;
      PrependNothing(Substitute(b, p));
    } else {
      var head := if u[0] == '%' then "%%" else [u[0]];
      var tail := Escape(u[1..]) + b;
      assert Escape(u) + b == head + tail;
      EscapeRoundTrip(u[1..], b, p);
      if u[0] == '%' {
        EscapedPercent(tail, p);
      } else {
        CopiedChar(u[0], tail, p);
      }
      PrependPrepend([u[0]], u[1..], Substitute(b, p));
      assert [u[0]] + u[1..] == u;
    }
  }

  /** Filling a template fails only with a `FenException`. */
  lemma {:induction false} SubstituteFailure(t: string, p: Position)
    requires Substitute(t, p).Err?
    ensures IsFenException(Substitute(t, p).error)
    ensures Substitute(t, p).error.UnrecognizedVariable? || Substitute(t, p).error.NonexistentRow?
    decreases |t|
  {
    if t[0] != '%' {
      SubstituteFailure(t[1..], p);
    } else if Column(t[1]).Some? {
      if '1' <= t[2] <= '8' {
        SubstituteFailure(t[3..], p);
      }
    } else if Value(t[1], p).Some? {
      SubstituteFailure(t[2..], p);
    }
  }

  /** A template without variables is left as it is. */
  lemma {:induction false} NoMarkerIdentity(t: string, p: Position)
    requires '%' !in t
    ensures Substitute(t, p) == Ok(t)
    decreases |t|
  {
    if t != [] {
      assert t[0] in t;
      assert forall c :: c in t[1..] ==> c in t;
      NoMarkerIdentity(t[1..], p);
      assert [t[0]] + t[1..] == t;
    }
  }

  /** `%` followed by a column and a row gives the symbol of the piece on
      that square (rank 8 being the top row), and the text around it is
      filled as usual. */
  lemma SquareVariable(a: string, col: char, row: char, b: string, p: Position)
    requires 'A' <= col <= 'H' && '1' <= row <= '8'
    ensures Substitute(Escape(a) + (['%', col, row] + b), p) ==
      Prepend(a + [p.squares[8 - DigitValue(row)][col as int - 'A' as int]], Substitute(b, p))
  {
    var v := ['%', col, row] + b;
    EscapeRoundTrip(a, v, p);
    assert v[1] == col && v[2] == row && v[3..] == b;
    PrependPrepend(a, [p.squares[Row(row)][Column(col).value]], Substitute(b, p));
  }

  /** `%m`, `%s`, `%e`, `%d`, `%c` and `%%` give the move number, the side
      in words, the en passant field, the draw-move counter, the castling
      field and a percent sign. */
  lemma NamedVariable(a: string, v: char, b: string, p: Position)
    requires v in "msedc%"
    ensures Value(v, p).Some?
    ensures Substitute(Escape(a) + (['%', v] + b), p) == Prepend(a + Value(v, p).value, Substitute(b, p))
    ensures v == 'm' ==> Value(v, p).value == NatToString(p.moveNumber)
    ensures v == 'd' ==> Value(v, p).value == NatToString(p.drawMoves)
    ensures v == 's' ==> Value(v, p).value == LongSide(p)
    ensures v == 'e' ==> Value(v, p).value == (if p.enPassant.None? then "None" else p.enPassant.value)
    ensures v == 'c' ==> Value(v, p).value == (if p.castling.None? then "None" else p.castling.value)
    ensures v == '%' ==> Value(v, p).value == "%"
  {
    var u := ['%', v] + b;
    EscapeRoundTrip(a, u, p);
    assert u[1] == v && u[2..] == b;
    PrependPrepend(a, Value(v, p).value, Substitute(b, p));
  }

  /** Any other letter after `%` fails the whole template, whatever text
      came before or follows. */
  lemma UnknownVariable(a: string, v: char, b: string, p: Position)
    requires !('A' <= v <= 'H') && v !in "msedc%"
    ensures Substitute(Escape(a) + (['%', v] + b), p) == Err(UnrecognizedVariable(v))
  {
    var u := ['%', v] + b;
    EscapeRoundTrip(a, u, p);
    assert u[1] == v;
  }

  /** A column not followed by a row 1-8 fails the whole template. */
  lemma RowOutOfBoard(a: string, col: char, row: char, b: string, p: Position)
    requires 'A' <= col <= 'H' && !('1' <= row <= '8')
    ensures Substitute(Escape(a) + (['%', col, row] + b), p) == Err(NonexistentRow(row))
  {
    var u := ['%', col, row] + b;
    EscapeRoundTrip(a, u, p);
    assert u[1] == col && u[2] == row;
  }

  /** A variable cut short by the end of the template is dropped without
      an error. */
  lemma TrailingMarkerDropped(a: string, col: char, p: Position)
    requires 'A' <= col <= 'H'
    ensures Substitute(Escape(a) + "%", p) == Ok(a)
    ensures Substitute(Escape(a) + ['%', col], p) == Ok(a)
  {
    EscapeRoundTrip(a, "%", p);
    EscapeRoundTrip(a, ['%', col], p);
    assert a + "" == a;
  }
}
