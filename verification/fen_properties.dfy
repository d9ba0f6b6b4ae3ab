/** What the FEN reader of fen.py accepts and what it fills in: the scan
    composes over concatenated input, an exception is final, input may stop
    anywhere, and each field follows its own small grammar. */
module FenProperties {
  import opened Wrappers
  import opened Errors
  import opened Chars
  import opened Squares
  import opened Fen

  /** Continue a scan that has not failed. */
  function Then(r: Result<Scan, Error>, t: string): Result<Scan, Error>
    requires r.Ok? ==> Wf(r.value)
  {
    match r
    case Err(e) => Err(e)
    case Ok(s) => Run(s, t)
  }

  /** Reading `a + b` is reading `a`, then `b` from where `a` left off. */
  lemma {:induction false} RunAppend(s: Scan, a: string, b: string)
    requires Wf(s)
    ensures Run(s, a + b) == Then(Run(s, a), b)
    decreases |a|
  {
    if a == [] {
      assert a + b == b;
    } else {
      assert (a + b)[0] == a[0];
      assert (a + b)[1..] == a[1..] + b;
      match Step(s, a[0])
      case Err(e) =>
      case Ok(next) => RunAppend(next, a[1..], b);
    }
  }

  lemma RunOne(s: Scan, c: char)
    requires Wf(s)
    ensures Run(s, [c]) == Step(s, c)
  {
    assert [c][1..] == [];
  }

  /** Scanning one more character is one more step. */
  lemma ScanningSnoc(t: string, c: char)
    ensures Scanning(t + [c]) == (match Scanning(t) case Err(e) => Err(e) case Ok(s) => Step(s, c))
  {
    RunAppend(Start, t, [c]);
    if Scanning(t).Ok? {
      RunOne(Scanning(t).value, c);
    }
  }

  /** There is no end-of-input check: every prefix of an accepted record is
      accepted too, down to the empty string, which gives an empty board with
      every other field unset and both counters 0. */
  lemma TruncatedRecordAccepted(fen: string, k: nat)
    requires ParseFen(fen).Ok? && k <= |fen|
    ensures ParseFen(fen[..k]).Ok?
    ensures ParseFen([]) == Ok(Position(EmptyGrid, None, None, None, 0, 0))
  {
    assert fen == fen[..k] + fen[k..];
    RunAppend(Start, fen[..k], fen[k..]);
  }

  /** An exception aborts the parse: nothing after it can repair it. */
  lemma FailureIsFinal(fen: string, rest: string)
    requires ParseFen(fen).Err?
    ensures ParseFen(fen + rest) == ParseFen(fen)
  {
    RunAppend(Start, fen, rest);
  }

  /** A character the current field refuses makes the whole record fail
      with that field's exception, whatever follows. */
  lemma Rejects(t: string, s: Scan, c: char, rest: string)
    requires Scanning(t) == Ok(s) && Step(s, c).Err?
    ensures ParseFen(t + [c] + rest) == Err(Step(s, c).error)
  {
    ScanningSnoc(t, c);
    FailureIsFinal(t + [c], rest);
  }

  /** The board field refuses a 0, a digit run that passes file 8 (raised at
      the overflow, before the next rank), and anything that is neither a
      digit nor a piece symbol, including a bar before the rank is full. */
  lemma BoardRejects(t: string, s: Scan, c: char, rest: string)
    requires Scanning(t) == Ok(s) && s.field.Board?
    ensures c == '0' ==> ParseFen(t + [c] + rest) == Err(ZeroInFen)
    ensures IsDigit(c) && s.file + DigitValue(c) > 8 ==> ParseFen(t + [c] + rest) == Err(NumberTooBig)
    ensures !IsDigit(c) && c !in Pieces ==> ParseFen(t + [c] + rest) == Err(InvalidPiece(c))
    ensures ParseFen(t + "/" + rest) == Err(InvalidPiece('/'))
  {
    assert Step(s, c) == BoardStep(s, c);
    if c == '0' || (IsDigit(c) && s.file + DigitValue(c) > 8) || (!IsDigit(c) && c !in Pieces) {
      Rejects(t, s, c, rest);
    }
    BoardRefusesBar(s);
    Rejects(t, s, '/', rest);
  }

  /** After a full rank only a bar may follow; each blank between fields is
      exactly one ' '; the side to move is `w` or `b`. */
  lemma SeparatorRejects(t: string, s: Scan, c: char, rest: string)
    requires Scanning(t) == Ok(s)
    ensures s.field.Bar? && c != '/' ==> ParseFen(t + [c] + rest) == Err(ExpectedBar)
    ensures (s.field.Space1? || s.field.Space2? || s.field.Space3?) && c != ' ' ==>
      ParseFen(t + [c] + rest) == Err(ExpectedSpace(c))
    ensures s.field.Side? && c != 'w' && c != 'b' ==> ParseFen(t + [c] + rest) == Err(UnknownSide(c))
  {
    if Step(s, c).Err? {
      Rejects(t, s, c, rest);
    }
  }

  /** Castling takes only K, Q, k, q, a dash, or the blank that ends it. */
  lemma CastlingRejects(t: string, s: Scan, c: char, rest: string)
    requires Scanning(t) == Ok(s) && s.field.Castling?
    requires !IsSpace(c) && c != '-' && c !in "KQkq"
    ensures ParseFen(t + [c] + rest) == Err(UnknownCastlingSide(c))
  {
    assert Step(s, c) == CastlingStep(s, c) == Err(UnknownCastlingSide(c));
    Rejects(t, s, c, rest);
  }

  /** En passant takes letters, digits and a dash: one letter before one
      digit, never a second letter, never a digit first. */
  lemma EnPassantRejects(t: string, s: Scan, c: char, rest: string)
    requires Scanning(t) == Ok(s) && s.field.EnPassant?
    ensures IsAlpha(c) && s.enPassant.Some? ==>
      ParseFen(t + [c] + rest) == Err(WrongEnPassant(s.enPassant.value + [c]))
    ensures IsDigit(c) && s.enPassant.None? ==> ParseFen(t + [c] + rest) == Err(NoneConcatenation(c))
    ensures !IsAlpha(c) && !IsDigit(c) && c != '-' ==> ParseFen(t + [c] + rest) == Err(UnknownEnPassant(c))
  {
    assert Step(s, c) == EnPassantStep(s, c);
    if EnPassantStep(s, c).Err? {
      Rejects(t, s, c, rest);
    }
  }

  /** The half-move clock takes digits and the blank that ends it. */
  lemma DrawMovesRejects(t: string, s: Scan, c: char, rest: string)
    requires Scanning(t) == Ok(s) && s.field.DrawMoves? && !IsSpace(c) && !IsDigit(c)
    ensures ParseFen(t + [c] + rest) == Err(NotNumberForDrawMoves(c))
  {
    assert Step(s, c) == CounterStep(s, c);
    Rejects(t, s, c, rest);
  }

  /** The move number takes digits only. */
  lemma MoveNumberRejects(t: string, s: Scan, c: char, rest: string)
    requires Scanning(t) == Ok(s) && s.field.MoveNumber? && !IsDigit(c)
    ensures ParseFen(t + [c] + rest) == Err(NotNumberForMoveNumber(c))
  {
    assert Step(s, c) == CounterStep(s, c);
    Rejects(t, s, c, rest);
  }

  /** Every exception of a step is a `FenException`, except the `None +=
      char` crash of a digit-first en passant field. */
  lemma StepFailure(s: Scan, c: char)
    requires Wf(s) && Step(s, c).Err?
    ensures IsFenException(Step(s, c).error) <==> !Step(s, c).error.NoneConcatenation?
  {
  }

  lemma {:induction false} RunFailure(s: Scan, t: string)
    requires Wf(s) && Run(s, t).Err?
    ensures IsFenException(Run(s, t).error) <==> !Run(s, t).error.NoneConcatenation?
    decreases |t|
  {
    match Step(s, t[0])
    case Err(e) => StepFailure(s, t[0]);
    case Ok(next) => RunFailure(next, t[1..]);
  }

  /** The reader raises only `FenException`s, apart from the `TypeError` of
      a digit that starts the en passant field. */
  lemma ParseFailure(fen: string)
    requires ParseFen(fen).Err?
    ensures IsFenException(ParseFen(fen).error) <==> !ParseFen(fen).error.NoneConcatenation?
  {
    RunFailure(Start, fen);
  }

  // ---------------------------------------------------------------------
  // Castling

  predicate CastlingChars(w: string) {
    forall k :: 0 <= k < |w| ==> w[k] in "KQkq-"
  }

  /** The castling value after reading `w` in the castling field. */
  function CastlingAfter(c0: Option<string>, w: string): Option<string>
    decreases |w|
  {
    if w == [] then c0
    else if w[|w| - 1] == '-' then Some("")
    else Some(CastlingAfter(c0, w[..|w| - 1]).GetOr("") + [w[|w| - 1]])
  }

  lemma {:induction false} CastlingRun(s: Scan, w: string)
    requires Wf(s) && s.field.Castling? && CastlingChars(w)
    ensures Run(s, w) == Ok(s.(castling := CastlingAfter(s.castling, w)))
    decreases |w|
  {
    if w != [] {
      var a, c := w[..|w| - 1], w[|w| - 1];
      assert w == a + [c];
      CastlingRun(s, a);
      RunAppend(s, a, [c]);
      RunOne(s.(castling := CastlingAfter(s.castling, a)), c);
    }
  }

  lemma {:induction false} CastlingAfterLetters(c0: Option<string>, w: string)
    requires w != [] && forall k :: 0 <= k < |w| ==> w[k] in "KQkq"
    ensures CastlingAfter(c0, w) == Some(c0.GetOr("") + w)
    decreases |w|
  {
    var a := w[..|w| - 1];
    assert w[|w| - 1] != '-';
    if a != [] {
      CastlingAfterLetters(c0, a);
      assert c0.GetOr("") + a + [w[|w| - 1]] == c0.GetOr("") + w;
    } else {
      assert w == [w[|w| - 1]];
    }
  }

  lemma {:induction false} CastlingAfterDash(c0: Option<string>, a: string, b: string)
    requires forall k :: 0 <= k < |b| ==> b[k] in "KQkq"
    ensures CastlingAfter(c0, a + "-" + b) == Some(b)
    decreases |b|
  {
    if b == [] {
      assert a + "-" + b == a + "-";
    } else {
      var b' := b[..|b| - 1];
      assert (a + "-" + b)[..|a + "-" + b| - 1] == a + "-" + b';
      CastlingAfterDash(c0, a, b');
      assert b == b' + [b[|b| - 1]];
    }
  }

  /** Castling letters are appended in the order read, repeats included. */
  lemma CastlingLettersAppend(s: Scan, b: string)
    requires Wf(s) && s.field.Castling?
    requires b != [] && forall k :: 0 <= k < |b| ==> b[k] in "KQkq"
    ensures Run(s, b) == Ok(s.(castling := Some(s.castling.GetOr("") + b)))
  {
    assert CastlingChars(b);
    CastlingRun(s, b);
    CastlingAfterLetters(s.castling, b);
  }

  /** A dash empties the castling field, dropping the letters read before
      it; only the letters after the last dash remain. */
  lemma CastlingDashResets(s: Scan, a: string, b: string)
    requires Wf(s) && s.field.Castling?
    requires CastlingChars(a) && forall k :: 0 <= k < |b| ==> b[k] in "KQkq"
    ensures Run(s, a + "-" + b) == Ok(s.(castling := Some(b)))
  {
    assert CastlingChars(a + "-" + b);
    CastlingRun(s, a + "-" + b);
    CastlingAfterDash(s.castling, a, b);
  }

  /** Whitespace ends the castling field and moves on to en passant. */
  lemma CastlingEndsAtBlank(s: Scan, a: string, blank: char)
    requires Wf(s) && s.field.Castling?
    requires CastlingChars(a) && IsSpace(blank)
    ensures Run(s, a + [blank]) == Ok(s.(castling := CastlingAfter(s.castling, a), field := EnPassant))
  {
    CastlingRun(s, a);
    RunAppend(s, a, [blank]);
    var s' := s.(castling := CastlingAfter(s.castling, a));
    RunOne(s', blank);
    assert Step(s', blank) == CastlingStep(s', blank);
  }

  // ---------------------------------------------------------------------
  // En passant

  /** One letter and one digit make the en passant target. */
  lemma EnPassantTarget(s: Scan, f: char, g: char)
    requires Wf(s) && s.field.EnPassant? && s.enPassant.None?
    requires IsAlpha(f) && IsDigit(g)
    ensures Run(s, [f, g]) == Ok(s.(enPassant := Some([f, g]), field := Space3))
  {
    assert [f, g] == [f] + [g];
    RunAppend(s, [f], [g]);
    RunOne(s, f);
    assert Step(s, f) == EnPassantStep(s, f);
    var s' := s.(enPassant := Some([f]));
    RunOne(s', g);
    assert Step(s', g) == EnPassantStep(s', g);
  }

  /** A second letter fails; so does a digit with no letter before it. */
  lemma EnPassantMalformed(s: Scan, f: char, g: char)
    requires Wf(s) && s.field.EnPassant? && s.enPassant.None?
    ensures IsAlpha(f) && IsAlpha(g) ==> Run(s, [f, g]) == Err(WrongEnPassant([f, g]))
    ensures IsDigit(f) ==> Run(s, [f, g]) == Err(NoneConcatenation(f))
  {
    assert [f, g] == [f] + [g];
    RunAppend(s, [f], [g]);
    RunOne(s, f);
    assert Step(s, f) == EnPassantStep(s, f);
    if IsAlpha(f) {
      var s' := s.(enPassant := Some([f]));
      RunOne(s', g);
      assert Step(s', g) == EnPassantStep(s', g);
    }
  }

  /** A dash leaves the target unset and moves on. */
  lemma EnPassantNone(s: Scan)
    requires Wf(s) && s.field.EnPassant?
    ensures Run(s, "-") == Ok(s.(field := Space3))
  {
    RunOne(s, '-');
    assert Step(s, '-') == EnPassantStep(s, '-');
  }

  // ---------------------------------------------------------------------
  // Counters

  /** The half-move clock and the move number read a run of digits as
      `v := 10 * v + d`. */
  lemma {:induction false} CounterField(s: Scan, w: string)
    requires Wf(s) && (s.field.DrawMoves? || s.field.MoveNumber?) && AllDigits(w)
    ensures s.field.DrawMoves? ==> Run(s, w) == Ok(s.(drawMoves := Accumulate(s.drawMoves, w)))
    ensures s.field.MoveNumber? ==> Run(s, w) == Ok(s.(moveNumber := Accumulate(s.moveNumber, w)))
    decreases |w|
  {
    if w != [] {
      var next := Step(s, w[0]).value;
      CounterField(next, w[1..]);
    }
  }

  /** Digits after the move number are not refused: they extend it. */
  lemma TrailingDigitsAbsorbed(fen: string, s: Scan, w: string)
    requires Scanning(fen) == Ok(s) && s.field.MoveNumber? && AllDigits(w)
    ensures ParseFen(fen + w) == Ok(s.ToPosition().(moveNumber := Accumulate(s.moveNumber, w)))
  {
    RunAppend(Start, fen, w);
    CounterField(s, w);
  }

  // ---------------------------------------------------------------------
  // The board

  function Spaces(n: nat): (r: seq<char>)
    ensures |r| == n && forall k :: 0 <= k < n ==> r[k] == ' '
  {
    seq(n, _ => ' ')
  }

  /** The cells one board character stands for: a digit that many empty
      cells, a bar none, anything else itself. */
  function ExpandChar(c: char): seq<char> {
    if IsDigit(c) then Spaces(DigitValue(c)) else if c == '/' then [] else [c]
  }

  /** Run-length expansion of board text into its cells, row by row. */
  function Expand(t: string): seq<char>
    decreases |t|
  {
    if t == [] then [] else Expand(t[..|t| - 1]) + ExpandChar(t[|t| - 1])
  }

  /** The cells of `g`, row by row, are `e` followed by blanks. */
  ghost predicate Matches(g: seq<seq<char>>, e: seq<char>) {
    |g| == 8 && (forall r :: 0 <= r < 8 ==> |g[r]| == 8) &&
    forall r, f :: 0 <= r < 8 && 0 <= f < 8 ==>
      g[r][f] == if 8 * r + f < |e| then e[8 * r + f] else ' '
  }

  /** The scan has passed exactly the cells `e`, which are on the board,
      and every cell it has not reached is still empty. */
  ghost predicate Expanded(s: Scan, e: seq<char>) {
    |e| == Cursor(s) && Matches(s.squares, e)
  }

  /** Writing the next cell extends the cells passed by one. */
  lemma MatchesPlace(g: seq<seq<char>>, e: seq<char>, r0: nat, f0: nat, c: char)
    requires Matches(g, e) && r0 < 8 && f0 < 8 && |e| == 8 * r0 + f0
    ensures Matches(g[r0 := g[r0][f0 := c]], e + [c])
  {
    var g' := g[r0 := g[r0][f0 := c]];
    var e' := e + [c];
    forall r, f | 0 <= r < 8 && 0 <= f < 8
      ensures g'[r][f] == if 8 * r + f < |e'| then e'[8 * r + f] else ' '
    {
      if r == r0 && f == f0 {
        assert 8 * r + f == |e|;
      } else {
        assert g'[r][f] == g[r][f];
        if 8 * r + f < |e| {
          assert e'[8 * r + f] == e[8 * r + f];
        }
      }
    }
  }

  /** Passing cells that are still empty extends the cells passed by
      blanks. */
  lemma MatchesBlanks(g: seq<seq<char>>, e: seq<char>, x: seq<char>)
    requires Matches(g, e) && forall i :: 0 <= i < |x| ==> x[i] == ' '
    ensures Matches(g, e + x)
  {
    var e' := e + x;
    forall r, f | 0 <= r < 8 && 0 <= f < 8
      ensures g[r][f] == if 8 * r + f < |e'| then e'[8 * r + f] else ' '
    {
      if 8 * r + f < |e| {
        assert e'[8 * r + f] == e[8 * r + f];
      } else if 8 * r + f < |e'| {
        assert e'[8 * r + f] == x[8 * r + f - |e|];
      }
    }
  }

  /** A piece fills the cell under the cursor, the next cell of the
      expansion. */
  lemma PieceExpands(s: Scan, e: seq<char>, c: char)
    requires Wf(s) && s.field.Board? && !IsDigit(c) && Expanded(s, e) && Step(s, c).Ok?
    ensures Expanded(Step(s, c).value, e + [c])
  {
    assert Step(s, c) == BoardStep(s, c);
    var row: seq<Square> := s.squares[s.rank][s.file := c];
    assert Step(s, c).value.squares == s.squares[s.rank := row];
    MatchesPlace(s.squares, e, s.rank, s.file, c);
  }

  /** Skipping cells, or reading a bar, leaves the board as it is and
      extends the expansion by blanks only. */
  lemma SkipExpands(s: Scan, e: seq<char>, c: char)
    requires Wf(s) && InBoard(s.field) && (s.field.Bar? || IsDigit(c)) && Expanded(s, e) && Step(s, c).Ok?
    ensures Expanded(Step(s, c).value, e + ExpandChar(c))
  {
    if s.field.Bar? {
      assert Step(s, c) == BarStep(s, c);
    } else {
      assert Step(s, c) == BoardStep(s, c);
    }
    assert Step(s, c).value.squares == s.squares;
    MatchesBlanks(s.squares, e, ExpandChar(c));
  }

  lemma StepExpands(s: Scan, e: seq<char>, c: char)
    requires Wf(s) && InBoard(s.field) && Expanded(s, e) && Step(s, c).Ok?
    ensures Expanded(Step(s, c).value, e + ExpandChar(c))
  {
    if s.field.Board? && !IsDigit(c) {
      assert c != '/' by {
        BoardRefusesBar(s);
      }
      PieceExpands(s, e, c);
    } else {
      SkipExpands(s, e, c);
    }
  }

  lemma {:induction false} BoardIsExpansionOf(t: string)
    requires Scanning(t).Ok? && InBoard(Scanning(t).value.field)
    ensures Expanded(Scanning(t).value, Expand(t))
    decreases |t|
  {
    if t == [] {
      assert Scanning(t) == Ok(Start);
    } else {
      var a, c, s := LastStep(t);
      ExpandSnoc(a, c);
      BoardIsExpansionOf(a);
      StepExpands(s, Expand(a), c);
    }
  }

  lemma ExpandSnoc(a: string, c: char)
    ensures Expand(a + [c]) == Expand(a) + ExpandChar(c)
  {
    assert (a + [c])[..|a + [c]| - 1] == a;
  }

  /** The scan of a nonempty record is the scan of all but its last
      character, followed by one step; the board is left only once. */
  lemma LastStep(t: string) returns (a: string, c: char, s: Scan)
    requires t != [] && Scanning(t).Ok?
    ensures |a| < |t| && Scanning(a) == Ok(s) && Wf(s) && Step(s, c) == Scanning(t)
    ensures t == a + [c]
    ensures InBoard(Scanning(t).value.field) ==> InBoard(s.field)
  {
    a, c := t[..|t| - 1], t[|t| - 1];
    assert t == a + [c];
    ScanningSnoc(a, c);
    s := Scanning(a).value;
  }

  /** While the board is being read, the cursor has passed exactly the
      cells the board text expands to, those cells hold that expansion, and
      every cell not yet reached is empty. */
  lemma BoardIsExpansion(t: string, s: Scan)
    requires Scanning(t) == Ok(s) && InBoard(s.field)
    ensures |Expand(t)| == 8 * s.rank + s.file
    ensures forall r, f :: 0 <= r < 8 && 0 <= f < 8 ==>
      s.squares[r][f] == if 8 * r + f < |Expand(t)| then Expand(t)[8 * r + f] else ' '
  {
    BoardIsExpansionOf(t);
  }

  lemma BoardRefusesBar(s: Scan)
    requires Wf(s) && s.field.Board?
    ensures Step(s, '/') == Err(InvalidPiece('/'))
  {
    assert !IsDigit('/') && MakeSquare('/').Err?;
    assert Step(s, '/') == BoardStep(s, '/');
  }

  lemma ExpansionLength(t: string, s: Scan)
    requires Scanning(t) == Ok(s) && InBoard(s.field)
    ensures |Expand(t)| == 8 * s.rank + s.file
  {
    BoardIsExpansionOf(t);
  }

  /** A bar is accepted only after a whole number of ranks: each rank covers
      exactly 8 files. */
  lemma BarOnlyAfterFullRank(t: string, s: Scan)
    requires Scanning(t) == Ok(s) && InBoard(s.field) && Scanning(t + "/").Ok?
    ensures |Expand(t)| % 8 == 0 && 8 <= |Expand(t)| <= 56
  {
    ScanningSnoc(t, '/');
    if s.field.Board? {
      BoardRefusesBar(s);
      assert false;
    }
    ExpansionLength(t, s);
    assert |Expand(t)| == 8 * s.rank && 0 < s.rank < 8;
    WholeRanks(s.rank);
  }

  lemma WholeRanks(k: nat)
    ensures (8 * k) % 8 == 0
  {
  }

  /** The board text up to and including the character that completes
      the board expands to the board then read. */
  lemma ExpansionAtBoardEnd(fen: string, k: nat)
    requires k < |fen|
    requires Scanning(fen[..k]).Ok? && InBoard(Scanning(fen[..k]).value.field)
    requires Scanning(fen[..k + 1]).Ok?
    ensures Expanded(Scanning(fen[..k + 1]).value, Expand(fen[..k + 1]))
  {
    var t := fen[..k + 1];
    assert t == fen[..k] + [fen[k]];
    ScanningSnoc(fen[..k], fen[k]);
    BoardIsExpansionOf(fen[..k]);
    StepExpands(Scanning(fen[..k]).value, Expand(fen[..k]), fen[k]);
    ExpandSnoc(fen[..k], fen[k]);
  }

  /** The character that completes the board leaves exactly 64 cells, and
      the board of every later position is their expansion, cell by cell. */
  lemma CompletedBoardIsExpansion(fen: string, k: nat)
    requires k < |fen| && ParseFen(fen).Ok?
    requires Scanning(fen[..k]).Ok? && InBoard(Scanning(fen[..k]).value.field)
    requires Scanning(fen[..k + 1]).Ok? && !InBoard(Scanning(fen[..k + 1]).value.field)
    ensures |Expand(fen[..k + 1])| == 64
    ensures forall r, f :: 0 <= r < 8 && 0 <= f < 8 ==>
      ParseFen(fen).value.squares[r][f] == Expand(fen[..k + 1])[8 * r + f]
  {
    var t := fen[..k + 1];
    ExpansionAtBoardEnd(fen, k);
    assert fen == t + fen[k + 1..];
    RunAppend(Start, t, fen[k + 1..]);
    assert ParseFen(fen).value.squares == Scanning(t).value.squares;
  }
}
