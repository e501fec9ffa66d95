/** Applying a move to a board copy, locating kings, and the legality filter
    that drops moves leaving the mover's own king attacked. */
module Legality {
  import opened Board
  import opened Quantum
  import opened MoveGen

  // ---------------------------------------------------------------------
  // findKing

  predicate IsKingOf(p: Option<Piece>, color: Color)
  {
    p.Some? && p.value.kind == King && p.value.color == color
  }

  /** The row-major scan of findKing from square index i (row i / 8, column i % 8). */
  function FindKingFrom(b: Board, color: Color, i: int): (k: Option<Coord>)
    requires ValidBoard(b) && 0 <= i <= 64
    ensures k.Some? ==> InBounds(k.value.r, k.value.c) && IsKingOf(b[k.value.r][k.value.c], color)
    ensures k.Some? ==> i <= 8 * k.value.r + k.value.c
    ensures forall rr, cc :: InBounds(rr, cc) && i <= 8 * rr + cc && (k.Some? ==> 8 * rr + cc < 8 * k.value.r + k.value.c)
              ==> !IsKingOf(b[rr][cc], color)
    decreases 64 - i
  {
    if i == 64 then None
    else if IsKingOf(b[i / 8][i % 8], color) then Some(Coord(i / 8, i % 8))
    else FindKingFrom(b, color, i + 1)
  }

  /** findKing: the first materialized king of `color` in row-major order,
      or None. Superposed kings are not seen. */
  function FindKing(b: Board, color: Color): (k: Option<Coord>)
    requires ValidBoard(b)
    ensures k.Some? ==> InBounds(k.value.r, k.value.c) && IsKingOf(b[k.value.r][k.value.c], color)
    ensures k.None? <==> forall rr, cc :: InBounds(rr, cc) ==> !IsKingOf(b[rr][cc], color)
    ensures k.Some? ==> forall rr, cc :: InBounds(rr, cc) && 8 * rr + cc < 8 * k.value.r + k.value.c ==> !IsKingOf(b[rr][cc], color)
  {
    FindKingFrom(b, color, 0)
  }

  // ---------------------------------------------------------------------
  // applyMove

  /** The row of the pawn an en-passant capture removes: behind the destination. */
  function VictimRow(m: Move, color: Color): int
  {
    if color == White then m.r + 1 else m.r - 1
  }

  /** What applyMove needs of a move: its destination is on the board and,
      for en passant, so is the captured pawn's square (otherwise the source
      would index outside the board). */
  predicate Applicable(m: Move, color: Color)
  {
    InBounds(m.r, m.c) && (m.kind == EnPassant ==> 0 <= VictimRow(m, color) < 8)
  }

  /** The moving piece as it lands: marked moved, and a pawn reaching row 0
      or row 7 becomes a queen. */
  function Landed(p: Piece, row: int): (q: Piece)
    ensures q.moved && q.color == p.color
    ensures q.kind == if p.kind == Pawn && (row == 0 || row == 7) then Queen else p.kind
  {
    var q := p.(moved := true);
    if q.kind == Pawn && (row == 0 || row == 7) then q.(kind := Queen) else q
  }

  function MarkMoved(p: Option<Piece>): Option<Piece>
  {
    if p.Some? then Some(p.value.(moved := true)) else None
  }

  /** The squares applyMove clears or fills before the moving piece lands. */
  predicate Cleared(from: Coord, m: Move, color: Color, rr: int, cc: int)
  {
    (rr == from.r && cc == from.c)
    || (m.kind == EnPassant && rr == VictimRow(m, color) && cc == m.c)
    || (m.kind == CastleK && rr == m.r && (cc == 5 || cc == 7))
    || (m.kind == CastleQ && rr == m.r && (cc == 3 || cc == 0))
  }

  /** The first part of applyMove: empty the origin, remove the pawn taken
      en passant and move the castling rook (marked moved). */
  function Vacate(b: Board, from: Coord, m: Move, color: Color): (b': Board)
    requires ValidBoard(b) && InBounds(from.r, from.c) && Applicable(m, color)
    ensures ValidBoard(b')
    ensures !(m.kind == CastleK && from == Coord(m.r, 5)) && !(m.kind == CastleQ && from == Coord(m.r, 3))
            ==> b'[from.r][from.c] == None
    ensures m.kind == EnPassant ==> b'[VictimRow(m, color)][m.c] == None
    ensures m.kind == CastleK ==> b'[m.r][5] == (if from == Coord(m.r, 7) then None else MarkMoved(b[m.r][7])) && b'[m.r][7] == None
    ensures m.kind == CastleQ ==> b'[m.r][3] == (if from == Coord(m.r, 0) then None else MarkMoved(b[m.r][0])) && b'[m.r][0] == None
    ensures forall rr, cc :: InBounds(rr, cc) && !Cleared(from, m, color, rr, cc) ==> b'[rr][cc] == b[rr][cc]
  {
    var b1 := Put(b, from.r, from.c, None);
    var b2 := if m.kind == EnPassant then Put(b1, VictimRow(m, color), m.c, None) else b1;
    var b3 := if m.kind == CastleK then Put(Put(b2, m.r, 5, MarkMoved(b2[m.r][7])), m.r, 7, None) else b2;
    if m.kind == CastleQ then Put(Put(b3, m.r, 3, MarkMoved(b3[m.r][0])), m.r, 0, None) else b3
  }

  /** applyMove on a fresh copy of the board (so the input board is left
      as it was): Vacate, then land the moving piece if there was one. */
  function ApplyMove(b: Board, from: Coord, m: Move, color: Color): (after: Board)
    requires ValidBoard(b) && InBounds(from.r, from.c) && Applicable(m, color)
    ensures ValidBoard(after)
    ensures b[from.r][from.c].Some? ==> after[m.r][m.c] == Some(Landed(b[from.r][from.c].value, m.r))
    ensures (from.r != m.r || from.c != m.c)
            && !(m.kind == CastleK && from == Coord(m.r, 5)) && !(m.kind == CastleQ && from == Coord(m.r, 3))
            ==> after[from.r][from.c] == None
    ensures m.kind == EnPassant ==> after[VictimRow(m, color)][m.c] == None
    ensures m.kind == CastleK && from != Coord(m.r, 7) && m.c != 5 ==> after[m.r][5] == MarkMoved(b[m.r][7])
    ensures m.kind == CastleK && m.c != 7 ==> after[m.r][7] == None
    ensures m.kind == CastleQ && from != Coord(m.r, 0) && m.c != 3 ==> after[m.r][3] == MarkMoved(b[m.r][0])
    ensures m.kind == CastleQ && m.c != 0 ==> after[m.r][0] == None
    ensures forall rr, cc :: InBounds(rr, cc) && !Cleared(from, m, color, rr, cc) && (rr != m.r || cc != m.c)
              ==> after[rr][cc] == b[rr][cc]
    ensures b[from.r][from.c].None? ==>
              (forall rr, cc :: InBounds(rr, cc) && !Cleared(from, m, color, rr, cc) ==> after[rr][cc] == b[rr][cc])
              && (!(m.kind == CastleK && from == Coord(m.r, 5)) && !(m.kind == CastleQ && from == Coord(m.r, 3))
                  ==> after[from.r][from.c] == None)
  {
    var piece := b[from.r][from.c];
    var b' := Vacate(b, from, m, color);
    if piece.Some? then Put(b', m.r, m.c, Some(Landed(piece.value, m.r))) else b'
  }

  /** A double push lands two rows ahead, so the midpoint executeMove records
      as the en-passant target is the square the pawn passed over; an enemy
      pawn taking en passant onto that square removes exactly the pushed pawn. */
  lemma EnPassantTakesPushedPawn(b: Board, qs: seq<QuantumPiece>, ep: Option<Coord>, from: Coord, push: Move, color: Color,
                                 b': Board, take: Move)
    requires ValidBoard(b) && InBounds(from.r, from.c)
    requires push in PseudoMoves(b, qs, ep, from.r, from.c, color, false) && push.kind == Double
    requires ValidBoard(b') && take.kind == EnPassant && Applicable(take, Opponent(color))
    requires take.r == (from.r + push.r) / 2 && take.c == from.c
    ensures take.r == from.r + Dir(color)
    ensures VictimRow(take, Opponent(color)) == push.r && take.c == push.c
    ensures forall f: Coord :: InBounds(f.r, f.c) ==> ApplyMove(b', f, take, Opponent(color))[push.r][push.c] == None
  {
  }

  // ---------------------------------------------------------------------
  // The legality filter

  /** The filter of legalMovesForSquare: after the move, the mover still has
      a materialized king and that king is not attacked. */
  predicate KingSafeAfter(b: Board, qs: seq<QuantumPiece>, from: Coord, m: Move, color: Color)
    requires ValidBoard(b) && InBounds(from.r, from.c) && Applicable(m, color)
  {
    var after := ApplyMove(b, from, m, color);
    var k := FindKing(after, color);
    k.Some? && !IsSquareAttacked(after, qs, k.value.r, k.value.c, color)
  }

  function SafeMoves(b: Board, qs: seq<QuantumPiece>, from: Coord, ms: seq<Move>, color: Color): (safe: seq<Move>)
    requires ValidBoard(b) && InBounds(from.r, from.c)
    requires forall m :: m in ms ==> Applicable(m, color)
    ensures forall m :: m in safe <==> m in ms && KingSafeAfter(b, qs, from, m, color)
  {
    if ms == [] then []
    else (if KingSafeAfter(b, qs, from, ms[0], color) then [ms[0]] else []) + SafeMoves(b, qs, from, ms[1..], color)
  }

  /** legalMovesForSquare: the pseudo-legal moves (non-attack mode) of the
      mover's piece at (r, c) that leave its king on the board and not attacked. */
  function LegalMovesForSquare(b: Board, qs: seq<QuantumPiece>, ep: Option<Coord>, r: int, c: int, color: Color): (ms: seq<Move>)
    requires ValidBoard(b) && InBounds(r, c)
    ensures forall m :: m in ms ==> Applicable(m, color)
  {
    if b[r][c].None? || b[r][c].value.color != color then []
    else
      var pseudo := PseudoMoves(b, qs, ep, r, c, color, false);
      SafeMoves(b, qs, Coord(r, c), pseudo, color)
  }

  lemma LegalMovesForSquareSpec(b: Board, qs: seq<QuantumPiece>, ep: Option<Coord>, r: int, c: int, color: Color, m: Move)
    requires ValidBoard(b) && InBounds(r, c)
    ensures m in LegalMovesForSquare(b, qs, ep, r, c, color) <==>
      b[r][c].Some? && b[r][c].value.color == color
      && m in PseudoMoves(b, qs, ep, r, c, color, false) && KingSafeAfter(b, qs, Coord(r, c), m, color)
  {
  }

  /** A legal move is a pseudo-legal move after which the mover's king
      exists and is not attacked; in particular it never hands a piece of
      the mover's own colour to the capture. */
  lemma {:induction false} LegalMoveIsSafe(b: Board, qs: seq<QuantumPiece>, ep: Option<Coord>, r: int, c: int, color: Color, m: Move)
    requires ValidBoard(b) && InBounds(r, c)
    requires m in LegalMovesForSquare(b, qs, ep, r, c, color)
    ensures m in PseudoMoves(b, qs, ep, r, c, color, false) && WellPlaced(b, qs, color, m)
    ensures var after := ApplyMove(b, Coord(r, c), m, color);
      FindKing(after, color).Some?
      && !IsSquareAttacked(after, qs, FindKing(after, color).value.r, FindKing(after, color).value.c, color)
  {
    LegalMovesForSquareSpec(b, qs, ep, r, c, color, m);
  }

  // ---------------------------------------------------------------------
  // allLegalMoves

  /** A legal move paired with the square it starts from. */
  datatype Play = Play(from: Coord, move: Move)

  function Tagged(from: Coord, ms: seq<Move>): (ps: seq<Play>)
    ensures forall p :: p in ps <==> p.from == from && p.move in ms
  {
    if ms == [] then [] else [Play(from, ms[0])] + Tagged(from, ms[1..])
  }

  /** The plays one iteration of allLegalMoves's inner loop pushes: the
      legal moves of square (r, c) when it holds a piece of `color`. */
  function SquarePlays(b: Board, qs: seq<QuantumPiece>, ep: Option<Coord>, color: Color, r: int, c: int): (ps: seq<Play>)
    requires ValidBoard(b) && InBounds(r, c)
    ensures forall p :: p in ps <==> p.from == Coord(r, c) && p.move in LegalMovesForSquare(b, qs, ep, r, c, color)
  {
    if b[r][c].Some? && b[r][c].value.color == color
    then Tagged(Coord(r, c), LegalMovesForSquare(b, qs, ep, r, c, color)) else []
  }

  /** The legal plays of every square, as a table indexed by row and column
      (empty off the board). */
  function PlayTable(b: Board, qs: seq<QuantumPiece>, ep: Option<Coord>, color: Color): (t: (int, int) -> seq<Play>)
    requires ValidBoard(b)
    ensures forall rr, cc, p :: p in t(rr, cc) ==> p.from == Coord(rr, cc)
  {
    (rr, cc) => if InBounds(rr, cc) then SquarePlays(b, qs, ep, color, rr, cc) else []
  }

  /** What nested row and column loops have collected when they reach square
      (r, c): the table's entries of every earlier square in row-major order. */
  function Gather(t: (int, int) -> seq<Play>, r: int, c: int): seq<Play>
    requires 0 <= r <= 8 && 0 <= c <= 8
    decreases r, c
  {
    if c == 0 then (if r == 0 then [] else Gather(t, r - 1, 8))
    else if r == 8 then Gather(t, r, 0)
    else Gather(t, r, c - 1) + t(r, c - 1)
  }

  /** A play has been gathered exactly when its square comes before (r, c)
      and the play is in that square's entry. */
  lemma {:induction false} GatherMembers(t: (int, int) -> seq<Play>, r: int, c: int)
    requires 0 <= r <= 8 && 0 <= c <= 8
    requires forall rr, cc, p :: p in t(rr, cc) ==> p.from == Coord(rr, cc)
    ensures forall p :: p in Gather(t, r, c) <==>
      InBounds(p.from.r, p.from.c) && (p.from.r < r || (p.from.r == r && p.from.c < c))
      && p in t(p.from.r, p.from.c)
    decreases r, c
  {
    if c == 0 {
      if r > 0 {
        GatherMembers(t, r - 1, 8);
      }
    } else if r == 8 {
      GatherMembers(t, r, 0);
    } else {
      GatherMembers(t, r, c - 1);
      var before := Gather(t, r, c - 1);
      assert Gather(t, r, c) == before + t(r, c - 1);
      forall p
        ensures p in Gather(t, r, c) <==>
          InBounds(p.from.r, p.from.c) && (p.from.r < r || (p.from.r == r && p.from.c < c))
          && p in t(p.from.r, p.from.c)
      {
        assert p in Gather(t, r, c) <==> p in before || p in t(r, c - 1);
      }
    }
  }

  /** allLegalMoves: every legal move of every square holding a piece of `color`. */
  function AllLegalMoves(b: Board, qs: seq<QuantumPiece>, ep: Option<Coord>, color: Color): (ps: seq<Play>)
    requires ValidBoard(b)
    ensures forall p :: p in ps <==>
      InBounds(p.from.r, p.from.c) && p.move in LegalMovesForSquare(b, qs, ep, p.from.r, p.from.c, color)
  {
    var t := PlayTable(b, qs, ep, color);
    GatherMembers(t, 8, 0);
    Gather(t, 8, 0)
  }

  /** One step of the inner loop appends the entry of the square it visits. */
  lemma GatherStep(t: (int, int) -> seq<Play>, r: int, c: int)
    requires 0 <= r < 8 && 0 <= c < 8
    ensures Gather(t, r, c + 1) == Gather(t, r, c) + t(r, c)
  {
  }

  /** The table's entry for a square on the board. */
  lemma PlayTableAt(b: Board, qs: seq<QuantumPiece>, ep: Option<Coord>, color: Color, r: int, c: int)
    requires ValidBoard(b) && InBounds(r, c)
    ensures PlayTable(b, qs, ep, color)(r, c) ==
      if b[r][c].Some? && b[r][c].value.color == color then Tagged(Coord(r, c), LegalMovesForSquare(b, qs, ep, r, c, color)) else []
  {
  }

  /** The nested loops of allLegalMoves, pushing each square's legal moves. */
  method CollectLegalMoves(b: Board, qs: seq<QuantumPiece>, ep: Option<Coord>, color: Color) returns (plays: seq<Play>)
    requires ValidBoard(b)
    ensures plays == AllLegalMoves(b, qs, ep, color)
  {
    ghost var t := PlayTable(b, qs, ep, color);
    plays := [];
    for r := 0 to 8
      invariant plays == Gather(t, r, 0)
    {
      for c := 0 to 8
        invariant plays == Gather(t, r, c)
      {
        GatherStep(t, r, c);
        PlayTableAt(b, qs, ep, color, r, c);
        var p := b[r][c];
        if p.Some? && p.value.color == color {
          plays := plays + Tagged(Coord(r, c), LegalMovesForSquare(b, qs, ep, r, c, color));
        }
      }
      assert Gather(t, r + 1, 0) == Gather(t, r, 8);
    }
  }

  /** Every move allLegalMoves offers starts from one of the mover's pieces
      and leaves the mover's king on the board and not attacked. */
  lemma {:induction false} AllLegalMovesAreSafe(b: Board, qs: seq<QuantumPiece>, ep: Option<Coord>, color: Color, p: Play)
    requires ValidBoard(b) && p in AllLegalMoves(b, qs, ep, color)
    ensures InBounds(p.from.r, p.from.c) && b[p.from.r][p.from.c].Some? && b[p.from.r][p.from.c].value.color == color
    ensures Applicable(p.move, color) && KingSafeAfter(b, qs, p.from, p.move, color)
  {
    LegalMovesForSquareSpec(b, qs, ep, p.from.r, p.from.c, color, p.move);
  }

  // ---------------------------------------------------------------------
  // Check, checkmate and stalemate

  /** The side's materialized king exists and is attacked (false when there
      is no such king). */
  predicate InCheck(b: Board, qs: seq<QuantumPiece>, side: Color)
    requires ValidBoard(b)
  {
    var k := FindKing(b, side);
    k.Some? && IsSquareAttacked(b, qs, k.value.r, k.value.c, side)
  }

  /** The side has no legal move on any square. */
  ghost predicate NoLegalMove(b: Board, qs: seq<QuantumPiece>, ep: Option<Coord>, side: Color)
    requires ValidBoard(b)
  {
    forall rr, cc :: InBounds(rr, cc) ==> LegalMovesForSquare(b, qs, ep, rr, cc, side) == []
  }

  /** allLegalMoves is empty exactly when no square has a legal move. */
  lemma NoPlaysNoMoves(b: Board, qs: seq<QuantumPiece>, ep: Option<Coord>, side: Color)
    requires ValidBoard(b)
    ensures AllLegalMoves(b, qs, ep, side) == [] <==> NoLegalMove(b, qs, ep, side)
  {
    var plays := AllLegalMoves(b, qs, ep, side);
    if plays != [] {
      var p := plays[0];
      assert p in plays;
      var ms := LegalMovesForSquare(b, qs, ep, p.from.r, p.from.c, side);
      assert InBounds(p.from.r, p.from.c) && p.move in ms;
    } else {
      forall rr, cc | InBounds(rr, cc) ensures LegalMovesForSquare(b, qs, ep, rr, cc, side) == [] {
        var ms := LegalMovesForSquare(b, qs, ep, rr, cc, side);
        if ms != [] {
          PlayOfLegalMove(b, qs, ep, side, Coord(rr, cc), ms[0]);
        }
      }
    }
  }

  lemma PlayOfLegalMove(b: Board, qs: seq<QuantumPiece>, ep: Option<Coord>, side: Color, from: Coord, m: Move)
    requires ValidBoard(b) && InBounds(from.r, from.c) && m in LegalMovesForSquare(b, qs, ep, from.r, from.c, side)
    ensures Play(from, m) in AllLegalMoves(b, qs, ep, side)
  {
  }
}
