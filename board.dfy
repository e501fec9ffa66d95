/** The board model: colours, pieces, coordinates, moves, the 8x8 grid and
    the algebraic square names ("e4") the engine uses to identify squares. */
module Board {

  datatype Option<T> = None | Some(value: T)

  datatype Color = White | Black
  datatype Kind = Pawn | Knight | Bishop | Rook | Queen | King

  /** A materialized piece; `moved` is set the first time the piece moves. */
  datatype Piece = Piece(kind: Kind, color: Color, moved: bool)

  /** A square as (row, column); row 0 is Black's back rank, row 7 White's. */
  datatype Coord = Coord(r: int, c: int)

  /** The labels the move generator attaches to its moves:
      "move", "double", "capture", "attack", "enpassant", "castle-k", "castle-q". */
  datatype MoveKind = Step | Double | Capture | Attack | EnPassant | CastleK | CastleQ

  /** A candidate move: its destination square and its label. */
  datatype Move = Move(r: int, c: int, kind: MoveKind)

  /** Rows of cells; a cell holds at most one materialized piece. */
  type Board = seq<seq<Option<Piece>>>

  function Opponent(color: Color): (o: Color)
    ensures o != color
  {
    if color == White then Black else White
  }

  predicate InBounds(r: int, c: int)
  {
    0 <= r < 8 && 0 <= c < 8
  }

  predicate ValidBoard(b: Board)
  {
    |b| == 8 && forall i :: 0 <= i < 8 ==> |b[i]| == 8
  }

  /** Writes one cell of a board. */
  function Put(b: Board, r: int, c: int, p: Option<Piece>): (b': Board)
    requires ValidBoard(b) && InBounds(r, c)
    ensures ValidBoard(b') && b'[r][c] == p
    ensures forall i, j :: InBounds(i, j) && (i != r || j != c) ==> b'[i][j] == b[i][j]
  {
    b[r := b[r][c := p]]
  }

  // ---------------------------------------------------------------------
  // Square names

  const Files: string := "abcdefgh"

  /** The first index of `x` in `s`, or -1 (JavaScript's indexOf). */
  function IndexOf(s: string, x: char): (i: int)
    ensures i == -1 <==> x !in s
    ensures i != -1 ==> 0 <= i < |s| && s[i] == x && x !in s[..i]
  {
    if |s| == 0 then -1
    else if s[0] == x then 0
    else
      var k := IndexOf(s[1..], x);
      if k == -1 then -1
      else
        assert s[..k + 1] == [s[0]] + s[1..][..k];
        k + 1
  }

  predicate IsSquareName(s: string)
  {
    |s| == 2 && s[0] in Files && '1' <= s[1] <= '8'
  }

  /** toSquare: the file letter followed by the rank digit 8 - r. */
  function ToSquare(r: int, c: int): (s: string)
    requires InBounds(r, c)
    ensures IsSquareName(s)
  {
    [Files[c], (('0' as int) + 8 - r) as char]
  }

  /** toCoord: the inverse of ToSquare on well-formed names. */
  function ToCoord(s: string): (p: Coord)
    requires IsSquareName(s)
    ensures InBounds(p.r, p.c)
  {
    Coord(8 - (s[1] as int - '0' as int), IndexOf(Files, s[0]))
  }

  /** The letter of column c is found at index c. */
  lemma FileIndex(c: int)
    requires 0 <= c < 8
    ensures IndexOf(Files, Files[c]) == c
  {
  }

  /** Naming a square and reading the name back gives the same square. */
  lemma {:induction false} CoordOfSquare(r: int, c: int)
    requires InBounds(r, c)
    ensures ToCoord(ToSquare(r, c)) == Coord(r, c)
  {
    FileIndex(c);
  }

  /** Reading a well-formed name and naming the square gives the same name. */
  lemma {:induction false} SquareOfCoord(s: string)
    requires IsSquareName(s)
    ensures ToSquare(ToCoord(s).r, ToCoord(s).c) == s
  {
    var p := ToCoord(s);
    assert Files[p.c] == s[0];
  }

  /** Square names identify squares, so comparing names is comparing coordinates. */
  lemma {:induction false} SquareNamesInjective(r1: int, c1: int, r2: int, c2: int)
    requires InBounds(r1, c1) && InBounds(r2, c2)
    ensures ToSquare(r1, c1) == ToSquare(r2, c2) <==> r1 == r2 && c1 == c2
  {
    CoordOfSquare(r1, c1);
    CoordOfSquare(r2, c2);
  }

  // ---------------------------------------------------------------------
  // The starting position

  function BackRank(c: int): Kind
    requires 0 <= c < 8
  {
    [Rook, Knight, Bishop, Queen, King, Bishop, Knight, Rook][c]
  }

  function InitialCell(r: int, c: int): Option<Piece>
    requires InBounds(r, c)
  {
    if r == 0 then Some(Piece(BackRank(c), Black, false))
    else if r == 1 then Some(Piece(Pawn, Black, false))
    else if r == 6 then Some(Piece(Pawn, White, false))
    else if r == 7 then Some(Piece(BackRank(c), White, false))
    else None
  }

  /** The board of initialGameState: back ranks on rows 0 and 7, pawns on 1 and 6. */
  function InitialBoard(): (b: Board)
    ensures ValidBoard(b)
    ensures forall r, c :: InBounds(r, c) ==> b[r][c] == InitialCell(r, c)
    ensures b[7][4] == Some(Piece(King, White, false)) && b[0][4] == Some(Piece(King, Black, false))
  {
    seq(8, r requires 0 <= r < 8 => seq(8, c requires 0 <= c < 8 => InitialCell(r, c)))
  }
}
