/** The chess-diagram template of the Spanish Wikipedia for a position:
    a head naming the alignment and a header, one line per rank from 8
    down to 1 with a two-character cell per square, the file letters and
    a footer. */
module Diagram {
  import opened Wrappers
  import opened Errors
  import opened Chars
  import opened Squares
  import opened Fen

  predicate ValidAlignment(alignment: string) {
    alignment == "tright" || alignment == "tleft" || alignment == ""
  }

  function Head(alignment: string, header: string): string {
    "{{Diagrama de ajedrez" + "\n| " + alignment + "\n| " + header + "\n|=\n"
  }

  const Files: string := "    a  b  c  d  e  f  g  h\n"

  /** Every cell is two characters wide. */
  predicate Paired(ws: seq<string>) {
    forall i :: 0 <= i < |ws| ==> |ws[i]| == 2
  }

  /** The cells of a row in wiki form. */
  function WikiRow(row: seq<Square>): (ws: seq<string>)
    ensures |ws| == |row| && Paired(ws)
  {
    seq(|row|, i requires 0 <= i < |row| => Wikiformat(row[i]))
  }

  /** Each cell of a row in wiki form reads back to its square. */
  lemma WikiRowDecodes(row: seq<Square>)
    ensures forall i :: 0 <= i < |row| ==> FromWiki(WikiRow(row)[i]) == Some(row[i])
  {
    forall i | 0 <= i < |row|
      ensures FromWiki(WikiRow(row)[i]) == Some(row[i])
    {
      WikiRoundTrip(row[i]);
    }
  }

  /** The first `n` cells, each after a bar. */
  function Bars(ws: seq<string>, n: nat): (r: string)
    requires n <= |ws| && Paired(ws)
    ensures |r| == 3 * n
  {
    if n == 0 then "" else Bars(ws, n - 1) + "|" + ws[n - 1]
  }

  /** The rank number of row `j`, between blanks. */
  function Label(j: nat): (r: string)
    requires j < 8
    ensures r == [' ', DigitChar(8 - j), ' ']
  {
    " " + NatToString(8 - j) + " "
  }

  /** The line of row `j`, rank `8 - j`, with the cells `ws`. */
  function RankText(j: nat, ws: seq<string>): (r: string)
    requires j < 8 && |ws| == 8 && Paired(ws)
    ensures |r| == 30
  {
    Label(j) + Bars(ws, 8) + "|=\n"
  }

  /** The line of row `j` of the board. */
  function RankLine(g: Grid, j: nat): (r: string)
    requires j < 8
    ensures |r| == 30
  {
    RankText(j, WikiRow(g[j]))
  }

  /** Every line is thirty characters long. */
  predicate Lined(ls: seq<string>) {
    forall i :: 0 <= i < |ls| ==> |ls[i]| == 30
  }

  /** The lines of the board, row by row. */
  function Lines(g: Grid): (ls: seq<string>)
    ensures |ls| == 8 && Lined(ls)
    ensures forall j :: 0 <= j < 8 ==> ls[j] == RankLine(g, j)
  {
    seq(8, j requires 0 <= j < 8 => RankLine(g, j))
  }

  /** The first `n` lines, one after the other. */
  function Join(ls: seq<string>, n: nat): (r: string)
    requires n <= |ls| && Lined(ls)
    ensures |r| == 30 * n
  {
    if n == 0 then "" else Join(ls, n - 1) + ls[n - 1]
  }

  /** The file letters and the footer, closing the template. */
  function Foot(footer: string): string {
    Files + "| " + footer + "\n}}"
  }

  function DiagramText(p: Position, alignment: string, header: string, footer: string): string {
    Head(alignment, header) + Join(Lines(p.squares), 8) + Foot(footer)
  }

  lemma Associative(a: string, b: string, c: string)
    ensures a + (b + c) == (a + b) + c
  {
  }

  /** Writes the diagram line by line and cell by cell, as fen.py does;
      an alignment other than `tright`, `tleft` or none is refused. */
  method Pos2Diagram(p: Position, alignment: string, header: string, footer: string)
    returns (r: Result<string, Error>)
    ensures ValidAlignment(alignment) ==> r == Ok(DiagramText(p, alignment, header, footer))
    ensures !ValidAlignment(alignment) ==> r == Err(InvalidAlignment(alignment))
  {
    if !ValidAlignment(alignment) {
      return Err(InvalidAlignment(alignment));
    }
    var s := "{{Diagrama de ajedrez";
    s := s + "\n| " + alignment;
    s := s + "\n| " + header;
    s := s + "\n|=\n";
    ghost var lines := Lines(p.squares);
    var j := 0;
    while j < 8
      invariant j <= 8
      invariant s == Head(alignment, header) + Join(lines, j)
    {
      var line := " " + NatToString(8 - j) + " ";
      ghost var cells := WikiRow(p.squares[j]);
      var i := 0;
      while i < 8
        invariant i <= 8
        invariant line == Label(j) + Bars(cells, i)
      {
        Associative(Label(j), Bars(cells, i) + "|", cells[i]);
        Associative(Label(j), Bars(cells, i), "|");
        line := line + "|" + Wikiformat(p.squares[j][i]);
        i := i + 1;
      }
      line := line + "|=\n";
      assert line == lines[j];
      Associative(Head(alignment, header), Join(lines, j), line);
      s := s + line;
      j := j + 1;
    }
    s := s + Files;
    s := s + "| " + footer + "\n}}";
    Associative(Head(alignment, header) + Join(lines, 8), Files + "| " + footer, "\n}}");
    Associative(Head(alignment, header) + Join(lines, 8), Files + "| ", footer);
    Associative(Head(alignment, header) + Join(lines, 8), Files, "| ");
    return Ok(s);
  }

  // ---------------------------------------------------------------------
  // Reading the board off the diagram

  lemma {:induction false} BarAt(ws: seq<string>, n: nat, k: nat)
    requires k < n <= |ws| && Paired(ws)
    ensures Bars(ws, n)[3 * k] == '|'
    ensures Bars(ws, n)[3 * k + 1] == ws[k][0]
    ensures Bars(ws, n)[3 * k + 2] == ws[k][1]
    decreases n
  {
    var prefix := Bars(ws, n - 1);
    if k < n - 1 {
      BarAt(ws, n - 1, k);
    } else {
      assert Bars(ws, n) == prefix + ("|" + ws[k]);
    }
  }

  lemma {:induction false} LineAt(ls: seq<string>, n: nat, j: nat, m: nat)
    requires j < n <= |ls| && Lined(ls) && m < 30
    ensures Join(ls, n)[30 * j + m] == ls[j][m]
    decreases n
  {
    var prev := Join(ls, n - 1);
    assert Join(ls, n) == prev + ls[n - 1];
    if j < n - 1 {
      LineAt(ls, n - 1, j, m);
      assert 30 * j + m < |prev|;
    } else {
      assert |prev| == 30 * j;
    }
  }

  /** Where the cell of a square sits in the text. */
  function CellOffset(alignment: string, header: string, j: nat, k: nat): nat {
    |Head(alignment, header)| + 30 * j + 4 + 3 * k
  }

  /** A rank line starts with its rank number and holds cell `k` at
      offset `4 + 3 * k`. */
  lemma LineShowsCell(j: nat, ws: seq<string>, k: nat)
    requires j < 8 && |ws| == 8 && Paired(ws) && k < 8
    ensures var line := RankText(j, ws);
      line[1] == DigitChar(8 - j) && line[4 + 3 * k] == ws[k][0] && line[5 + 3 * k] == ws[k][1]
  {
    var cells := Bars(ws, 8);
    var line := RankText(j, ws);
    BarAt(ws, 8, k);
    assert line == Label(j) + (cells + "|=\n");
    assert line[4 + 3 * k] == cells[3 * k + 1] && line[5 + 3 * k] == cells[3 * k + 2];
  }

  /** Character `m` of line `j`, found in the whole text. */
  lemma JoinedAt(head: string, ls: seq<string>, foot: string, j: nat, m: nat)
    requires |ls| == 8 && Lined(ls) && j < 8 && m < 30
    ensures |head| + 30 * j + m < |head + Join(ls, 8) + foot|
    ensures (head + Join(ls, 8) + foot)[|head| + 30 * j + m] == ls[j][m]
  {
    LineAt(ls, 8, j, m);
  }

  /** The diagram is the head, the eight rank lines and the foot. */
  lemma DiagramFraming(p: Position, alignment: string, header: string, footer: string)
    ensures var d := DiagramText(p, alignment, header, footer);
      var h := |Head(alignment, header)|;
      |d| == h + 240 + |Foot(footer)| && d[..h] == Head(alignment, header) && d[h + 240..] == Foot(footer)
  {
  }

  /** The line of row `j` starts with its rank number, and the square in
      column `k` of that row is written at `CellOffset` in wiki form. */
  lemma DiagramShowsSquare(p: Position, alignment: string, header: string, footer: string, j: nat, k: nat)
    requires j < 8 && k < 8
    ensures var d := DiagramText(p, alignment, header, footer);
      var h := |Head(alignment, header)|;
      var c := CellOffset(alignment, header, j, k);
      c + 1 < |d| && d[h + 30 * j + 1] == DigitChar(8 - j) &&
      d[c] == Wikiformat(p.squares[j][k])[0] && d[c + 1] == Wikiformat(p.squares[j][k])[1]
  {
    var head, ls, foot := Head(alignment, header), Lines(p.squares), Foot(footer);
    JoinedAt(head, ls, foot, j, 1);
    JoinedAt(head, ls, foot, j, 4 + 3 * k);
    JoinedAt(head, ls, foot, j, 5 + 3 * k);
    var ws := WikiRow(p.squares[j]);
    assert ls[j] == RankText(j, ws);
    assert ws[k] == Wikiformat(p.squares[j][k]);
    LineShowsCell(j, ws, k);
  }

  /** The diagram determines the board: two positions with the same
      diagram (for the same alignment and header) hold the same piece on
      every square. */
  lemma DiagramDeterminesBoard(p: Position, q: Position, alignment: string, header: string, footer: string)
    requires DiagramText(p, alignment, header, footer) == DiagramText(q, alignment, header, footer)
    ensures p.squares == q.squares
  {
    forall j, k | 0 <= j < 8 && 0 <= k < 8
      ensures p.squares[j][k] == q.squares[j][k]
    {
      DiagramShowsSquare(p, alignment, header, footer, j, k);
      DiagramShowsSquare(q, alignment, header, footer, j, k);
      var w, v := Wikiformat(p.squares[j][k]), Wikiformat(q.squares[j][k]);
      assert w == [w[0], w[1]] && v == [v[0], v[1]];
      WikiformatInjective(p.squares[j][k], q.squares[j][k]);
    }
    forall j | 0 <= j < 8
      ensures p.squares[j] == q.squares[j]
    {
    }
  }
}
