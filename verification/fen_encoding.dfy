/** Writing a position as a standard FEN record, and reading it back: the
    reader of fen.py accepts every standard record and recovers exactly the
    position it was written from. fen.py itself has no writer; this one
    exists to state what the reader accepts. */
module FenEncoding {
  import opened Wrappers
  import opened Errors
  import opened Chars
  import opened Squares
  import opened Fen
  import opened FenProperties

  /** A digit for `n` pending empty cells, or nothing. */
  function Pending(n: nat): string
    requires n <= 8
  {
    if n == 0 then "" else [DigitChar(n)]
  }

  /** Run-length encoding of the rest of a rank, `empties` blank cells
      being still unwritten: each maximal run of empty cells becomes one
      digit, each piece its own symbol. */
  function RankFen(row: seq<Square>, empties: nat): string
    requires empties + |row| <= 8
    decreases |row|
  {
    if row == [] then Pending(empties)
    else if row[0] == ' ' then RankFen(row[1..], empties + 1)
    else Pending(empties) + [row[0]] + RankFen(row[1..], 0)
  }

  /** Ranks `j` to 8 (rows `j` to 7), separated by bars. */
  function BoardFen(g: Grid, j: nat): string
    requires j < 8
    decreases 8 - j
  {
    RankFen(g[j], 0) + (if j == 7 then "" else "/" + BoardFen(g, j + 1))
  }

  /** A position a standard FEN record can describe: a side to move, a
      castling field of K, Q, k, q (empty for none), and an en passant
      target that is unset or one letter and one digit. */
  predicate Canonical(p: Position) {
    (p.side == Some('w') || p.side == Some('b')) &&
    p.castling.Some? && (forall k :: 0 <= k < |p.castling.value| ==> p.castling.value[k] in "KQkq") &&
    (p.enPassant.Some? ==>
      |p.enPassant.value| == 2 && IsAlpha(p.enPassant.value[0]) && IsDigit(p.enPassant.value[1]))
  }

  function CastlingFen(c: string): string {
    if c == "" then "-" else c
  }

  function EnPassantFen(ep: Option<string>): string {
    if ep.None? then "-" else ep.value
  }

  /** The six fields after the board, each introduced by one blank. */
  function TailFen(p: Position): string
    requires Canonical(p)
  {
    " " + ([p.side.value] + (" " + (CastlingFen(p.castling.value) + (" " + (EnPassantFen(p.enPassant) +
      (" " + (NatToString(p.drawMoves) + (" " + NatToString(p.moveNumber)))))))))
  }

  function ToFen(p: Position): string
    requires Canonical(p)
  {
    BoardFen(p.squares, 0) + TailFen(p)
  }

  // ---------------------------------------------------------------------
  // Reading a rank back

  lemma SkipEmpties(s: Scan, e: nat)
    requires Wf(s) && s.field.Board? && 1 <= e && s.file + e <= 8
    ensures s.file + e < 8 ==> Run(s, Pending(e)) == Ok(s.(file := s.file + e))
    ensures s.file + e == 8 ==> Run(s, Pending(e)) == Ok(EndRank(s))
  {
    RunOne(s, DigitChar(e));
    assert Step(s, DigitChar(e)) == BoardStep(s, DigitChar(e));
  }

  lemma PlacePiece(s: Scan, p: Square)
    requires Wf(s) && s.field.Board? && p != ' '
    ensures var row: seq<Square> := s.squares[s.rank][s.file := p];
      var placed := s.(squares := s.squares[s.rank := row]);
      Run(s, [p]) == Ok(if s.file + 1 == 8 then EndRank(placed) else placed.(file := s.file + 1))
  {
    RunOne(s, p);
    assert !IsDigit(p) by {
      assert p in Pieces;
    }
    assert Step(s, p) == BoardStep(s, p);
  }

  /** The row of `s.rank` after the rest of the rank is read. */
  function FilledRow(s: Scan, row: seq<Square>, e: nat): (r: seq<Square>)
    requires s.rank < 8 && s.file + e + |row| == 8
    ensures |r| == 8
  {
    s.squares[s.rank][..s.file + e] + row
  }

  function WithRow(s: Scan, row: seq<Square>): Scan
    requires s.rank < 8 && |row| == 8
  {
    s.(squares := s.squares[s.rank := row])
  }

  /** Pending empty cells, then a piece: the piece lands after them. */
  lemma EmptiesThenPiece(s: Scan, e: nat, p: Square) returns (s2: Scan)
    requires Wf(s) && s.field.Board? && s.file + e < 8 && p != ' '
    ensures Wf(s2)
    ensures Run(s, Pending(e) + [p]) == Ok(s2)
    ensures var placed := WithRow(s, s.squares[s.rank][s.file + e := p]);
      s2 == if s.file + e + 1 == 8 then EndRank(placed) else placed.(file := s.file + e + 1)
  {
    var s1 := if e == 0 then s else s.(file := s.file + e);
    if e > 0 {
      SkipEmpties(s, e);
    }
    PlacePiece(s1, p);
    RunAppend(s, Pending(e), [p]);
    var placed := WithRow(s1, s1.squares[s1.rank][s1.file := p]);
    s2 := if s1.file + 1 == 8 then EndRank(placed) else placed.(file := s1.file + 1);
  }

  /** Writing `row[0]` at `t`, then appending the rest of `row`, is
      appending all of `row` after the first `t` cells. */
  lemma SpliceFirst<T>(cells: seq<T>, row: seq<T>, t: nat)
    requires t < |cells| && row != []
    ensures cells[t := row[0]][..t + 1] + row[1..] == cells[..t] + row
  {
    assert cells[t := row[0]][..t + 1] == cells[..t] + [row[0]];
    assert row == [row[0]] + row[1..];
  }

  /** A cell that already holds `row[0]` can be kept instead. */
  lemma KeepFirst<T>(cells: seq<T>, row: seq<T>, t: nat)
    requires t < |cells| && row != [] && cells[t] == row[0]
    ensures cells[..t + 1] + row[1..] == cells[..t] + row
  {
    assert cells[..t + 1] == cells[..t] + [cells[t]];
    assert row == [row[0]] + row[1..];
  }

  /** What reading the rest of a rank leaves: the rank is complete, its
      cells are those already there followed by `row`. */
  ghost predicate ReadsRank(s: Scan, row: seq<Square>, e: nat)
    requires Wf(s) && s.field.Board? && s.file + e + |row| == 8
  {
    Run(s, RankFen(row, e)) == Ok(EndRank(WithRow(s, FilledRow(s, row, e))))
  }

  predicate RestOfRankEmpty(s: Scan)
    requires s.rank < 8
  {
    forall f :: s.file <= f < 8 ==> s.squares[s.rank][f] == ' '
  }

  lemma {:induction false} RankRoundTrip(s: Scan, row: seq<Square>, e: nat)
    requires Wf(s) && s.field.Board? && RestOfRankEmpty(s)
    requires s.file + e + |row| == 8 && e + |row| >= 1
    ensures ReadsRank(s, row, e)
    decreases |row|, 1
  {
    if row == [] {
      var cells := s.squares[s.rank];
      SkipEmpties(s, e);
      assert FilledRow(s, row, e) == cells;
      assert WithRow(s, cells) == s;
    } else if row[0] == ' ' {
      RankBlank(s, row, e);
    } else if |row| == 1 {
      RankLastPiece(s, row, e);
    } else {
      RankInnerPiece(s, row, e);
    }
  }

  lemma {:induction false} RankBlank(s: Scan, row: seq<Square>, e: nat)
    requires Wf(s) && s.field.Board? && RestOfRankEmpty(s)
    requires s.file + e + |row| == 8 && row != [] && row[0] == ' '
    ensures ReadsRank(s, row, e)
    decreases |row|, 0
  {
    var cells := s.squares[s.rank];
    RankRoundTrip(s, row[1..], e + 1);
    KeepFirst(cells, row, s.file + e);
    assert RankFen(row, e) == RankFen(row[1..], e + 1);
    assert FilledRow(s, row[1..], e + 1) == FilledRow(s, row, e);
  }

  /** A piece in the last cell of the rank ends it. */
  lemma RankLastPiece(s: Scan, row: seq<Square>, e: nat)
    requires Wf(s) && s.field.Board?
    requires s.file + e + 1 == 8 && |row| == 1 && row[0] != ' '
    ensures ReadsRank(s, row, e)
  {
    var cells, p, t := s.squares[s.rank], row[0], s.file + e;
    var s2 := EmptiesThenPiece(s, e, p);
    assert RankFen(row, e) == Pending(e) + [p];
    SpliceFirst(cells, row, t);
    assert FilledRow(s, row, e) == cells[t := p];
  }

  /** A piece before the last cell: the rest of the rank is read from the
      next cell on. */
  lemma {:induction false} RankInnerPiece(s: Scan, row: seq<Square>, e: nat)
    requires Wf(s) && s.field.Board? && RestOfRankEmpty(s)
    requires s.file + e + |row| == 8 && |row| > 1 && row[0] != ' '
    ensures ReadsRank(s, row, e)
    decreases |row|, 0
  {
    var cells, p, t := s.squares[s.rank], row[0], s.file + e;
    var s2 := EmptiesThenPiece(s, e, p);
    var rest := RankFen(row[1..], 0);
    assert RankFen(row, e) == Pending(e) + [p] + rest;
    RunAppend(s, Pending(e) + [p], rest);
    RankRoundTrip(s2, row[1..], 0);
    var filled := FilledRow(s, row, e);
    SpliceFirst(cells, row, t);
    assert FilledRow(s2, row[1..], 0) == filled;
    EndRankForgetsRow(s, s2, cells[t := p], filled);
  }

  /** Ending a rank after rewriting its row keeps only the last rewrite. */
  lemma EndRankForgetsRow(s: Scan, s2: Scan, a: seq<Square>, b: seq<Square>)
    requires s.rank < 8 && |a| == 8 && |b| == 8
    requires s2 == WithRow(s, a).(file := s2.file)
    ensures EndRank(WithRow(s2, b)) == EndRank(WithRow(s, b))
  {
    assert s.squares[s.rank := a][s.rank := b] == s.squares[s.rank := b];
  }

  // ---------------------------------------------------------------------
  // Reading the board back

  /** Rank `j` of `g` read onto an empty rank: the rank becomes `g[j]`. */
  lemma ReadFullRank(s: Scan, g: Grid, j: nat)
    requires Wf(s) && s.field.Board? && s.rank == j && s.file == 0
    requires s.squares[j] == EmptyRow
    ensures Run(s, RankFen(g[j], 0)) == Ok(EndRank(WithRow(s, g[j])))
  {
    assert RestOfRankEmpty(s);
    RankRoundTrip(s, g[j], 0);
    assert FilledRow(s, g[j], 0) == g[j];
  }

  lemma {:induction false} BoardRoundTrip(s: Scan, g: Grid, j: nat)
    requires Wf(s) && s.field.Board? && s.rank == j && s.file == 0
    requires forall r :: 0 <= r < j ==> s.squares[r] == g[r]
    requires forall r :: j <= r < 8 ==> s.squares[r] == EmptyRow
    ensures Run(s, BoardFen(g, j)) == Ok(s.(field := Space1, rank := 8, file := 0, squares := g))
    decreases 8 - j
  {
    ReadFullRank(s, g, j);
    var s1 := EndRank(WithRow(s, g[j]));
    if j == 7 {
      assert BoardFen(g, j) == RankFen(g[j], 0);
      assert s1.squares == g;
    } else {
      BoardNextRank(s, g, j, s1);
    }
  }

  /** A bar, then ranks `j + 2` onwards. */
  lemma {:induction false} BoardNextRank(s: Scan, g: Grid, j: nat, s1: Scan)
    requires Wf(s) && s.field.Board? && s.rank == j && s.file == 0 && j < 7
    requires forall r :: 0 <= r < j ==> s.squares[r] == g[r]
    requires forall r :: j <= r < 8 ==> s.squares[r] == EmptyRow
    requires Run(s, RankFen(g[j], 0)) == Ok(s1) && s1 == EndRank(WithRow(s, g[j]))
    ensures Run(s, BoardFen(g, j)) == Ok(s.(field := Space1, rank := 8, file := 0, squares := g))
    decreases 8 - j, 0
  {
    var rest := BoardFen(g, j + 1);
    assert BoardFen(g, j) == RankFen(g[j], 0) + ("/" + rest);
    RunAppend(s, RankFen(g[j], 0), "/" + rest);
    RunAppend(s1, "/", rest);
    RunOne(s1, '/');
    assert Step(s1, '/') == BarStep(s1, '/');
    var s2 := s1.(field := Board);
    assert forall r :: 0 <= r < j + 1 ==> s2.squares[r] == g[r];
    BoardRoundTrip(s2, g, j + 1);
  }

  // ---------------------------------------------------------------------
  // Reading the other fields back

  lemma ReadBlank(s: Scan)
    requires Wf(s) && (s.field.Space1? || s.field.Space2? || s.field.Space3?)
    ensures Run(s, " ") == SeparatorStep(s, ' ')
  {
    RunOne(s, ' ');
  }

  lemma SideRoundTrip(s: Scan, side: char, rest: string)
    requires Wf(s) && s.field.Space1? && (side == 'w' || side == 'b')
    ensures Run(s, " " + ([side] + (" " + rest))) == Run(s.(field := Castling, side := Some(side)), rest)
  {
    RunAppend(s, " ", [side] + (" " + rest));
    ReadBlank(s);
    var s1 := s.(field := Side);
    RunAppend(s1, [side], " " + rest);
    RunOne(s1, side);
    var s2 := s1.(field := Space2, side := Some(side));
    RunAppend(s2, " ", rest);
    ReadBlank(s2);
  }

  lemma CastlingRoundTrip(s: Scan, c: string, rest: string)
    requires Wf(s) && s.field.Castling? && s.castling.None?
    requires forall k :: 0 <= k < |c| ==> c[k] in "KQkq"
    ensures Run(s, CastlingFen(c) + (" " + rest)) == Run(s.(castling := Some(c), field := EnPassant), rest)
  {
    var w := CastlingFen(c);
    RunAppend(s, w, " " + rest);
    if c == "" {
      RunOne(s, '-');
      assert Step(s, '-') == CastlingStep(s, '-');
    } else {
      CastlingLettersAppend(s, c);
      assert s.castling.GetOr("") + c == c;
    }
    var s1 := s.(castling := Some(c));
    RunAppend(s1, " ", rest);
    RunOne(s1, ' ');
    assert Step(s1, ' ') == CastlingStep(s1, ' ');
  }

  lemma EnPassantRoundTrip(s: Scan, ep: Option<string>, rest: string)
    requires Wf(s) && s.field.EnPassant? && s.enPassant.None?
    requires ep.Some? ==> |ep.value| == 2 && IsAlpha(ep.value[0]) && IsDigit(ep.value[1])
    ensures Run(s, EnPassantFen(ep) + (" " + rest)) == Run(s.(enPassant := ep, field := DrawMoves), rest)
  {
    RunAppend(s, EnPassantFen(ep), " " + rest);
    if ep.None? {
      EnPassantNone(s);
    } else {
      assert ep.value == [ep.value[0], ep.value[1]];
      EnPassantTarget(s, ep.value[0], ep.value[1]);
    }
    var s1 := s.(enPassant := ep, field := Space3);
    RunAppend(s1, " ", rest);
    ReadBlank(s1);
  }

  lemma CountersRoundTrip(s: Scan, draw: nat, move: nat)
    requires Wf(s) && s.field.DrawMoves? && s.drawMoves == 0 && s.moveNumber == 0
    ensures Run(s, NatToString(draw) + (" " + NatToString(move))) ==
      Ok(s.(drawMoves := draw, moveNumber := move, field := MoveNumber))
  {
    RunAppend(s, NatToString(draw), " " + NatToString(move));
    CounterField(s, NatToString(draw));
    DecimalRoundTrip(draw);
    var s1 := s.(drawMoves := draw);
    RunAppend(s1, " ", NatToString(move));
    RunOne(s1, ' ');
    assert Step(s1, ' ') == CounterStep(s1, ' ');
    var s2 := s1.(field := MoveNumber);
    CounterField(s2, NatToString(move));
    DecimalRoundTrip(move);
  }

  lemma TailRoundTrip(s: Scan, p: Position)
    requires Canonical(p)
    requires Wf(s) && s.field.Space1? && s.side.None? && s.castling.None? && s.enPassant.None?
    requires s.drawMoves == 0 && s.moveNumber == 0
    ensures Run(s, TailFen(p)) == Ok(s.(field := MoveNumber, side := p.side, castling := p.castling,
      enPassant := p.enPassant, drawMoves := p.drawMoves, moveNumber := p.moveNumber))
  {
    var counters := NatToString(p.drawMoves) + (" " + NatToString(p.moveNumber));
    var afterCastling := EnPassantFen(p.enPassant) + (" " + counters);
    SideRoundTrip(s, p.side.value, CastlingFen(p.castling.value) + (" " + afterCastling));
    var s1 := s.(field := Castling, side := p.side);
    CastlingRoundTrip(s1, p.castling.value, afterCastling);
    var s2 := s1.(castling := p.castling, field := EnPassant);
    EnPassantRoundTrip(s2, p.enPassant, counters);
    var s3 := s2.(enPassant := p.enPassant, field := DrawMoves);
    CountersRoundTrip(s3, p.drawMoves, p.moveNumber);
  }

  /** Every standard FEN record is accepted, and reading the record written
      from a position gives that position back, cell by cell and field by
      field. */
  lemma FenRoundTrip(p: Position)
    requires Canonical(p)
    ensures ParseFen(ToFen(p)) == Ok(p)
  {
    BoardRoundTrip(Start, p.squares, 0);
    RunAppend(Start, BoardFen(p.squares, 0), TailFen(p));
    TailRoundTrip(Start.(field := Space1, rank := 8, file := 0, squares := p.squares), p);
  }
}
