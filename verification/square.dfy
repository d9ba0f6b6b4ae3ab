/** One board cell of fen.py (`class Square`, fen.py:32-63): a symbol from
    a closed alphabet of standard and fairy pieces, or a blank for an empty
    cell. */
module Squares {
  import opened Wrappers
  import opened Errors
  import opened Chars

  /** The symbols `Square` accepts: the twelve standard pieces, the blank,
      and ten fairy pieces in both colours. */
  const Pieces: string := "PBNRQKpbnrqk AaCcFfGgMmEeSsHhZzWw"

  type Square = c: char | c in Pieces witness ' '

  /** `Square(c)`: succeeds exactly on the alphabet, otherwise raises
      "Invalid piece" naming the character. */
  function MakeSquare(c: char): (r: Result<Square, Error>)
    ensures r.Ok? <==> c in Pieces
    ensures r.Ok? ==> r.value == c
    ensures r.Err? ==> r.error == InvalidPiece(c)
  {
    if c in Pieces then Ok(c) else Err(InvalidPiece(c))
  }

  predicate IsEmpty(s: Square) {
    s == ' '
  }

  /** In FEN an upper-case symbol is a white piece. */
  predicate IsWhite(s: Square) {
    IsUpper(s)
  }

  /** The empty cell is the one symbol of the alphabet that is not a
      letter. */
  lemma EmptyIsNotALetter(s: Square)
    ensures IsEmpty(s) <==> !IsAlpha(s)
  {
  }

  /** The white pieces are the upper-case half of the alphabet; the empty
      cell has no colour. */
  lemma WhitePieces(s: Square)
    ensures IsWhite(s) <==> s in "PBNRQKACFGMESHZW"
    ensures IsWhite(s) ==> !IsEmpty(s)
  {
  }

  /** The piece without its colour: its lower-case symbol. */
  function Uncolor(s: Square): (r: char)
    ensures !IsUpper(r) && (r == ' ' <==> IsEmpty(s))
    ensures IsWhite(s) ==> ToUpper(r) == s
    ensures !IsWhite(s) ==> r == s
  {
    ToLower(s)
  }

  /** The two-character cell of the wiki template: two blanks for an empty
      cell, otherwise the lower-case piece followed by `l` (light, white) or
      `d` (dark, black). */
  function Wikiformat(s: Square): (r: string)
    ensures |r| == 2
    ensures r == "  " <==> IsEmpty(s)
    ensures !IsEmpty(s) ==> r[0] == Uncolor(s) && r[1] in "ld"
    ensures !IsEmpty(s) ==> (r[1] == 'l' <==> IsWhite(s))
  {
    if IsEmpty(s) then "  "
    else
      var cell := [Uncolor(s), if IsWhite(s) then 'l' else 'd'];
      assert cell[1] != "  "[1];
      cell
  }

  /** Reads a cell of the wiki template back into a FEN symbol. */
  function FromWiki(w: string): Option<Square>
    requires |w| == 2
  {
    if w == "  " then Some(' ')
    else
      var c := if w[1] == 'l' then ToUpper(w[0]) else w[0];
      if c in Pieces && w[1] in "ld" then Some(c) else None
  }

  /** The wiki cell of a square reads back to that square. */
  lemma WikiRoundTrip(s: Square)
    ensures FromWiki(Wikiformat(s)) == Some(s)
  {
  }

  /** No two squares share a wiki cell: the cell determines the square. */
  lemma WikiformatInjective(s: Square, t: Square)
    requires Wikiformat(s) == Wikiformat(t)
    ensures s == t
  {
    WikiRoundTrip(s);
    WikiRoundTrip(t);
  }
}
