/** Pseudo-legal move generation and attack detection. Superposed pieces
    count as solid blockers and capture targets (pieceAt), but only
    materialized pieces attack (isSquareAttacked scans the board alone). */
module MoveGen {
  import opened Board
  import opened Quantum

  /** What pieceAt sees on a square: a materialized piece, or a stand-in for
      a superposition entry that has the square among its positions. */
  datatype Occupant = Solid(piece: Piece) | Superposed(q: QuantumPiece) {
    function Side(): Color
    {
      match this
      case Solid(p) => p.color
      case Superposed(q) => q.color
    }
  }

  /** pieceAt with quantumAsSolid = true: the materialized piece if there is
      one, else the first superposition entry holding the square. */
  function PieceAt(b: Board, qs: seq<QuantumPiece>, r: int, c: int): (o: Option<Occupant>)
    requires ValidBoard(b) && InBounds(r, c)
    ensures b[r][c].Some? ==> o == Some(Solid(b[r][c].value))
    ensures b[r][c].None? ==> (o.None? <==> forall q :: q in qs ==> !Holds(q, Coord(r, c)))
    ensures b[r][c].None? && o.Some? ==> o.value.Superposed? && o.value.q in qs && Holds(o.value.q, Coord(r, c))
    ensures b[r][c].None? && o.Some? ==>
              exists i :: 0 <= i < |qs| && qs[i] == o.value.q && forall k :: 0 <= k < i ==> !Holds(qs[k], Coord(r, c))
  {
    if b[r][c].Some? then Some(Solid(b[r][c].value))
    else
      match QuantumAt(qs, Coord(r, c))
      case None => None
      case Some(q) => Some(Superposed(q))
  }

  /** The forward direction of a side's pawns. */
  function Dir(color: Color): int
  {
    if color == White then -1 else 1
  }

  function HomeRow(color: Color): int
  {
    if color == White then 7 else 0
  }

  /** What every generated move satisfies: it lands on the board; a quiet
      move or double push lands on a square pieceAt sees as empty; a capture
      lands on a square pieceAt sees as holding an enemy. */
  predicate WellPlaced(b: Board, qs: seq<QuantumPiece>, color: Color, m: Move)
    requires ValidBoard(b)
  {
    InBounds(m.r, m.c)
    && ((m.kind == Step || m.kind == Double) ==> PieceAt(b, qs, m.r, m.c).None?)
    && (m.kind == Capture ==> PieceAt(b, qs, m.r, m.c).Some? && PieceAt(b, qs, m.r, m.c).value.Side() != color)
  }

  /** A jump or step onto (tr, tc) is listed when that square is on the
      board and empty to pieceAt (a quiet move) or holds an enemy (a capture). */
  predicate Reached(b: Board, qs: seq<QuantumPiece>, color: Color, tr: int, tc: int, ms: seq<Move>)
    requires ValidBoard(b)
  {
    InBounds(tr, tc) ==>
      (PieceAt(b, qs, tr, tc).None? ==> Move(tr, tc, Step) in ms)
      && (PieceAt(b, qs, tr, tc).Some? && PieceAt(b, qs, tr, tc).value.Side() != color ==> Move(tr, tc, Capture) in ms)
  }

  /** The one-square jumps of a knight or king: each lands if the target is
      empty or holds an enemy, as a capture in the latter case. */
  function JumpMoves(b: Board, qs: seq<QuantumPiece>, r: int, c: int, color: Color, offsets: seq<(int, int)>): (ms: seq<Move>)
    requires ValidBoard(b)
    ensures forall m :: m in ms ==> WellPlaced(b, qs, color, m) && (m.kind == Step || m.kind == Capture)
    ensures forall m :: m in ms ==> (m.r - r, m.c - c) in offsets
    ensures forall k :: 0 <= k < |offsets| ==> Reached(b, qs, color, r + offsets[k].0, c + offsets[k].1, ms)
  {
    if offsets == [] then []
    else
      var tr, tc := r + offsets[0].0, c + offsets[0].1;
      var here :=
        if !InBounds(tr, tc) then []
        else
          var t := PieceAt(b, qs, tr, tc);
          if t.None? then [Move(tr, tc, Step)]
          else if t.value.Side() != color then [Move(tr, tc, Capture)]
          else [];
      var rest := JumpMoves(b, qs, r, c, color, offsets[1..]);
      ReachedKept(b, qs, color, r, c, offsets, here, rest);
      here + rest
  }

  /** What the jumps after the first reach stays reached with the first jump's moves in front. */
  lemma ReachedKept(b: Board, qs: seq<QuantumPiece>, color: Color, r: int, c: int, offsets: seq<(int, int)>, front: seq<Move>, rest: seq<Move>)
    requires ValidBoard(b) && offsets != []
    requires forall k :: 0 <= k < |offsets[1..]| ==> Reached(b, qs, color, r + offsets[1..][k].0, c + offsets[1..][k].1, rest)
    ensures forall k :: 0 < k < |offsets| ==> Reached(b, qs, color, r + offsets[k].0, c + offsets[k].1, front + rest)
  {
    forall k | 0 < k < |offsets|
      ensures Reached(b, qs, color, r + offsets[k].0, c + offsets[k].1, front + rest)
    {
      assert offsets[1..][k - 1] == offsets[k];
    }
  }

  const KnightJumps: seq<(int, int)> := [(-2, -1), (-2, 1), (-1, -2), (-1, 2), (1, -2), (1, 2), (2, -1), (2, 1)]

  /** The eight neighbours, in the order of the nested dr/dc loops. */
  const KingSteps: seq<(int, int)> := [(-1, -1), (-1, 0), (-1, 1), (0, -1), (0, 1), (1, -1), (1, 0), (1, 1)]

  predicate UnitDir(dr: int, dc: int)
  {
    -1 <= dr <= 1 && -1 <= dc <= 1 && (dr != 0 || dc != 0)
  }

  /** Squares left to walk in one coordinate along a direction. */
  function Span(x: int, d: int): int
  {
    if d > 0 then 8 - x else if d < 0 then x + 1 else 0
  }

  /** One slider ray starting at (tr, tc): quiet moves over empty squares,
      stopping at the first occupied square, which is included as a capture
      only when the occupant is an enemy. */
  function SlideRay(b: Board, qs: seq<QuantumPiece>, tr: int, tc: int, dr: int, dc: int, color: Color): (ms: seq<Move>)
    requires ValidBoard(b) && UnitDir(dr, dc)
    ensures forall m :: m in ms ==> WellPlaced(b, qs, color, m) && (m.kind == Step || m.kind == Capture)
    decreases Span(tr, dr) + Span(tc, dc)
  {
    if !InBounds(tr, tc) then []
    else
      var t := PieceAt(b, qs, tr, tc);
      if t.None? then [Move(tr, tc, Step)] + SlideRay(b, qs, tr + dr, tc + dc, dr, dc, color)
      else if t.value.Side() != color then [Move(tr, tc, Capture)]
      else []
  }

  /** The while loop of one slider direction, pushing moves as it walks. The
      generator itself is a function (attack detection and the legality
      filter call it), so it uses SlideRay; this method shows that the loop
      collects exactly that ray. */
  method CastRay(b: Board, qs: seq<QuantumPiece>, r: int, c: int, dr: int, dc: int, color: Color) returns (moves: seq<Move>)
    requires ValidBoard(b) && UnitDir(dr, dc)
    ensures moves == SlideRay(b, qs, r + dr, c + dc, dr, dc, color)
  {
    moves := [];
    var tr, tc := r + dr, c + dc;
    while InBounds(tr, tc)
      invariant moves + SlideRay(b, qs, tr, tc, dr, dc, color) == SlideRay(b, qs, r + dr, c + dc, dr, dc, color)
      decreases Span(tr, dr) + Span(tc, dc)
    {
      RayFirstSquare(b, qs, tr, tc, dr, dc, color);
      SpanShrinks(tr, tc, dr, dc);
      var t := PieceAt(b, qs, tr, tc);
      if t.None? {
        moves := moves + [Move(tr, tc, Step)];
      } else {
        if t.value.Side() != color {
          moves := moves + [Move(tr, tc, Capture)];
        }
        break;
      }
      tr, tc := tr + dr, tc + dc;
    }
  }

  /** The rook directions unless a bishop, then the bishop directions unless a rook. */
  function SliderDirs(kind: Kind): (ds: seq<(int, int)>)
    ensures forall d :: d in ds ==> UnitDir(d.0, d.1)
    ensures kind == Rook ==> forall d :: d in ds <==> UnitDir(d.0, d.1) && (d.0 == 0 || d.1 == 0)
    ensures kind == Bishop ==> forall d :: d in ds <==> UnitDir(d.0, d.1) && d.0 != 0 && d.1 != 0
    ensures kind == Queen ==> forall d :: d in ds <==> UnitDir(d.0, d.1)
  {
    (if kind != Bishop then [(1, 0), (-1, 0), (0, 1), (0, -1)] else [])
    + (if kind != Rook then [(1, 1), (1, -1), (-1, 1), (-1, -1)] else [])
  }

  function SliderMoves(b: Board, qs: seq<QuantumPiece>, r: int, c: int, color: Color, dirs: seq<(int, int)>): (ms: seq<Move>)
    requires ValidBoard(b)
    requires forall d :: d in dirs ==> UnitDir(d.0, d.1)
    ensures forall m :: m in ms ==> WellPlaced(b, qs, color, m) && (m.kind == Step || m.kind == Capture)
    ensures forall m :: m in ms <==> exists d :: d in dirs && m in SlideRay(b, qs, r + d.0, c + d.1, d.0, d.1, color)
  {
    if dirs == [] then []
    else SlideRay(b, qs, r + dirs[0].0, c + dirs[0].1, dirs[0].0, dirs[0].1, color)
         + SliderMoves(b, qs, r, c, color, dirs[1..])
  }

  /** The diagonal one row ahead and dc columns aside is listed when it is on
      the board: always as an attack in attack mode, otherwise as a capture
      when pieceAt sees an enemy there. */
  predicate DiagonalListed(b: Board, qs: seq<QuantumPiece>, r: int, c: int, color: Color, dc: int, forAttack: bool, ms: seq<Move>)
    requires ValidBoard(b)
  {
    var tr, tc := r + Dir(color), c + dc;
    InBounds(tr, tc) ==>
      (forAttack ==> Move(tr, tc, Attack) in ms)
      && (!forAttack && PieceAt(b, qs, tr, tc).Some? && PieceAt(b, qs, tr, tc).value.Side() != color ==> Move(tr, tc, Capture) in ms)
  }

  /** One diagonal of a pawn: always reported in attack mode, otherwise only
      onto a square pieceAt sees as holding an enemy. */
  function PawnDiagonal(b: Board, qs: seq<QuantumPiece>, r: int, c: int, color: Color, dc: int, forAttack: bool): (ms: seq<Move>)
    requires ValidBoard(b)
    ensures forall m :: m in ms ==> WellPlaced(b, qs, color, m) && m.r == r + Dir(color) && m.c == c + dc
    ensures forall m :: m in ms ==> m.kind == (if forAttack then Attack else Capture)
    ensures DiagonalListed(b, qs, r, c, color, dc, forAttack, ms)
  {
    var tr, tc := r + Dir(color), c + dc;
    if !InBounds(tr, tc) then []
    else if forAttack then [Move(tr, tc, Attack)]
    else
      var t := PieceAt(b, qs, tr, tc);
      if t.Some? && t.value.Side() != color then [Move(tr, tc, Capture)] else []
  }

  /** The pawn pushes: one step onto an empty square, then two from an
      unmoved pawn when that square is empty too; none in attack mode. */
  function PawnPushes(b: Board, qs: seq<QuantumPiece>, r: int, c: int, color: Color, moved: bool, forAttack: bool): (ms: seq<Move>)
    requires ValidBoard(b)
    ensures forall m :: m in ms ==> WellPlaced(b, qs, color, m) && m.c == c
    ensures forall m :: m in ms ==>
      (m.kind == Step && m.r == r + Dir(color)) || (m.kind == Double && !moved && m.r == r + 2 * Dir(color))
    ensures forAttack ==> ms == []
    ensures !forAttack && InBounds(r + Dir(color), c) && PieceAt(b, qs, r + Dir(color), c).None?
            ==> Move(r + Dir(color), c, Step) in ms
    ensures !forAttack && !moved && InBounds(r + Dir(color), c) && PieceAt(b, qs, r + Dir(color), c).None?
            && InBounds(r + 2 * Dir(color), c) && PieceAt(b, qs, r + 2 * Dir(color), c).None?
            ==> Move(r + 2 * Dir(color), c, Double) in ms
    ensures forall m :: m in ms && m.kind == Double ==> InBounds(r + Dir(color), c) && PieceAt(b, qs, r + Dir(color), c).None?
  {
    var one := r + Dir(color);
    if !forAttack && InBounds(one, c) && PieceAt(b, qs, one, c).None? then
      var two := r + 2 * Dir(color);
      [Move(one, c, Step)]
      + (if !moved && InBounds(two, c) && PieceAt(b, qs, two, c).None? then [Move(two, c, Double)] else [])
    else []
  }

  /** The en-passant destination: the current target, when it is diagonally
      ahead of the pawn; never in attack mode. */
  function PawnPassant(ep: Option<Coord>, r: int, c: int, color: Color, forAttack: bool): (ms: seq<Move>)
    ensures forall m :: m in ms ==> InBounds(m.r, m.c) && m.kind == EnPassant
    ensures forall m :: m in ms ==> m.r == r + Dir(color) && ep == Some(Coord(m.r, m.c)) && (m.c == c - 1 || m.c == c + 1)
    ensures forAttack ==> ms == []
    ensures !forAttack && ep.Some? && ep.value.r == r + Dir(color) && (ep.value.c == c - 1 || ep.value.c == c + 1)
              && InBounds(ep.value.r, ep.value.c)
            ==> Move(ep.value.r, ep.value.c, EnPassant) in ms
  {
    if !forAttack && ep.Some? && ep.value.r == r + Dir(color) && (ep.value.c - c == 1 || c - ep.value.c == 1)
       && InBounds(ep.value.r, ep.value.c)
    then [Move(ep.value.r, ep.value.c, EnPassant)]
    else []
  }

  /** The moves the pawn case must list: the single push onto an empty
      square, the double push of an unmoved pawn over two empty squares, both
      diagonals as DiagonalListed says, and the en-passant destination when
      it is one row ahead and one column aside. */
  predicate PawnComplete(b: Board, qs: seq<QuantumPiece>, ep: Option<Coord>, r: int, c: int, color: Color, moved: bool,
                         forAttack: bool, ms: seq<Move>)
    requires ValidBoard(b)
  {
    var one, two := r + Dir(color), r + 2 * Dir(color);
    (!forAttack && InBounds(one, c) && PieceAt(b, qs, one, c).None? ==> Move(one, c, Step) in ms)
    && (!forAttack && !moved && InBounds(one, c) && PieceAt(b, qs, one, c).None? && InBounds(two, c) && PieceAt(b, qs, two, c).None?
        ==> Move(two, c, Double) in ms)
    && DiagonalListed(b, qs, r, c, color, -1, forAttack, ms) && DiagonalListed(b, qs, r, c, color, 1, forAttack, ms)
    && (!forAttack && ep.Some? && ep.value.r == one && (ep.value.c == c - 1 || ep.value.c == c + 1) && InBounds(ep.value.r, ep.value.c)
        ==> Move(ep.value.r, ep.value.c, EnPassant) in ms)
  }

  /** The only squares a pawn's moves reach: a quiet move one row ahead, a
      double push two rows ahead from an unmoved pawn, both in its own
      column, and a capture, attack or en passant onto one of the two
      diagonals one row ahead. */
  predicate PawnTarget(r: int, c: int, color: Color, moved: bool, m: Move)
  {
    match m.kind
    case Step => m.r == r + Dir(color) && m.c == c
    case Double => !moved && m.r == r + 2 * Dir(color) && m.c == c
    case Capture | Attack | EnPassant => m.r == r + Dir(color) && (m.c == c - 1 || m.c == c + 1)
    case _ => false
  }

  /** The pawn case: pushes, the two diagonals, and the en-passant destination. */
  function PawnMoves(b: Board, qs: seq<QuantumPiece>, ep: Option<Coord>, r: int, c: int, color: Color, moved: bool, forAttack: bool): (ms: seq<Move>)
    requires ValidBoard(b)
    ensures forall m :: m in ms ==> WellPlaced(b, qs, color, m)
    ensures forall m :: m in ms && m.kind == Double ==> !moved && m.r == r + 2 * Dir(color) && m.c == c
    ensures forall m :: m in ms && m.kind == EnPassant ==> m.r == r + Dir(color) && ep == Some(Coord(m.r, m.c))
    ensures forall m :: m in ms ==> m.kind != CastleK && m.kind != CastleQ
    ensures forAttack ==> forall m :: m in ms ==> m.kind == Attack
    ensures !forAttack ==> forall m :: m in ms ==> m.kind != Attack
    ensures forall m :: m in ms && m.kind == Double ==> InBounds(r + Dir(color), c) && PieceAt(b, qs, r + Dir(color), c).None?
    ensures PawnComplete(b, qs, ep, r, c, color, moved, forAttack, ms)
  {
    var pushes, left, right := PawnPushes(b, qs, r, c, color, moved, forAttack),
      PawnDiagonal(b, qs, r, c, color, -1, forAttack), PawnDiagonal(b, qs, r, c, color, 1, forAttack);
    var passant := PawnPassant(ep, r, c, color, forAttack);
    assert forall m :: m in pushes + left + right + passant <==> m in pushes || m in left || m in right || m in passant;
    pushes + left + right + passant
  }

  /** A pawn lists nothing but moves onto its own squares: a quiet move or
      double push straight ahead, a capture, attack or en passant onto a
      diagonal one row ahead. */
  lemma PawnMovesReach(b: Board, qs: seq<QuantumPiece>, ep: Option<Coord>, r: int, c: int, color: Color, moved: bool, forAttack: bool)
    requires ValidBoard(b)
    ensures forall m :: m in PawnMoves(b, qs, ep, r, c, color, moved, forAttack) ==> PawnTarget(r, c, color, moved, m)
  {
    var pushes, left, right := PawnPushes(b, qs, r, c, color, moved, forAttack),
      PawnDiagonal(b, qs, r, c, color, -1, forAttack), PawnDiagonal(b, qs, r, c, color, 1, forAttack);
    var passant := PawnPassant(ep, r, c, color, forAttack);
    assert PawnMoves(b, qs, ep, r, c, color, moved, forAttack) == pushes + left + right + passant;
    forall m | m in PawnMoves(b, qs, ep, r, c, color, moved, forAttack)
      ensures PawnTarget(r, c, color, moved, m)
    {
      assert m in pushes || m in left || m in right || m in passant;
    }
  }

  /** pseudoMoves: the moves of the piece materialized at (r, c) if it
      belongs to `color`. Attack mode (forAttack) reports pawn diagonals
      unconditionally and skips pushes, en passant and castling; skipping
      castling is what ends the recursion through IsSquareAttacked. */
  function PseudoMoves(b: Board, qs: seq<QuantumPiece>, ep: Option<Coord>, r: int, c: int, color: Color, forAttack: bool): (ms: seq<Move>)
    requires ValidBoard(b) && InBounds(r, c)
    ensures forall m :: m in ms ==> WellPlaced(b, qs, color, m)
    ensures forall m :: m in ms && m.kind == EnPassant ==> m.r == r + Dir(color) && ep == Some(Coord(m.r, m.c))
    ensures forall m :: m in ms && m.kind == Double ==> m.r == r + 2 * Dir(color) && m.c == c
    ensures forAttack ==> forall m :: m in ms ==> m.kind in {Step, Capture, Attack}
    ensures !forAttack ==> forall m :: m in ms ==> m.kind != Attack
    ensures b[r][c].None? || b[r][c].value.color != color ==> ms == []
    ensures forall m :: m in ms && (m.kind == CastleK || m.kind == CastleQ) ==> !forAttack && b[r][c] == Some(Piece(King, color, false))
    decreases if forAttack then 0 else 4, 1
  {
    match b[r][c]
    case None => []
    case Some(p) =>
      if p.color != color then []
      else
        match p.kind
        case Pawn => PawnMoves(b, qs, ep, r, c, color, p.moved, forAttack)
        case Knight => JumpMoves(b, qs, r, c, color, KnightJumps)
        case King => KingMoves(b, qs, r, c, color, p.moved, forAttack)
        case _ => SliderMoves(b, qs, r, c, color, SliderDirs(p.kind))
  }

  /** The king case: the eight steps, then castling for an unmoved king
      outside attack mode. */
  function KingMoves(b: Board, qs: seq<QuantumPiece>, r: int, c: int, color: Color, moved: bool, forAttack: bool): (ms: seq<Move>)
    requires ValidBoard(b) && InBounds(r, c)
    ensures forall m :: m in ms ==> WellPlaced(b, qs, color, m)
    ensures forall m :: m in ms ==>
      m.kind == Step || m.kind == Capture
      || (!forAttack && !moved && (m == Move(HomeRow(color), 6, CastleK) || m == Move(HomeRow(color), 2, CastleQ)))
    ensures forall m :: m in ms && (m.kind == Step || m.kind == Capture) ==> (m.r - r, m.c - c) in KingSteps
    ensures forall k :: 0 <= k < |KingSteps| ==> Reached(b, qs, color, r + KingSteps[k].0, c + KingSteps[k].1, ms)
    decreases if forAttack then 0 else 4, 0
  {
    JumpMoves(b, qs, r, c, color, KingSteps)
    + (if !forAttack && !moved then CastleMoves(b, qs, r, c, color) else [])
  }

  /** An unmoved rook of the given colour. */
  predicate UnmovedRook(p: Option<Piece>, color: Color)
  {
    p.Some? && p.value.kind == Rook && p.value.color == color && !p.value.moved
  }

  /** The castling part of the king case: from the home square (row, 4),
      when that square is not attacked, kingside needs the unmoved rook on
      column 7, empty columns 5 and 6 and neither attacked; queenside needs
      the unmoved rook on column 0, empty columns 1, 2, 3, and columns 3 and
      2 not attacked. */
  function CastleMoves(b: Board, qs: seq<QuantumPiece>, r: int, c: int, color: Color): (ms: seq<Move>)
    requires ValidBoard(b) && InBounds(r, c)
    ensures forall m :: m in ms ==> m == Move(HomeRow(color), 6, CastleK) || m == Move(HomeRow(color), 2, CastleQ)
    decreases 3, 0
  {
    var row := HomeRow(color);
    if r == row && c == 4 && !IsSquareAttacked(b, qs, row, 4, color) then
      (if UnmovedRook(b[row][7], color) && PieceAt(b, qs, row, 5).None? && PieceAt(b, qs, row, 6).None?
          && !IsSquareAttacked(b, qs, row, 5, color) && !IsSquareAttacked(b, qs, row, 6, color)
       then [Move(row, 6, CastleK)] else [])
      + (if UnmovedRook(b[row][0], color) && PieceAt(b, qs, row, 1).None? && PieceAt(b, qs, row, 2).None?
            && PieceAt(b, qs, row, 3).None? && !IsSquareAttacked(b, qs, row, 3, color)
            && !IsSquareAttacked(b, qs, row, 2, color)
         then [Move(row, 2, CastleQ)] else [])
    else []
  }

  /** isSquareAttacked: some materialized enemy piece has (r, c) among its
      attack-mode moves. */
  predicate IsSquareAttacked(b: Board, qs: seq<QuantumPiece>, r: int, c: int, own: Color)
    requires ValidBoard(b)
    decreases 2, 0
  {
    exists rr, cc | 0 <= rr < 8 && 0 <= cc < 8 :: Attacks(b, qs, rr, cc, Opponent(own), r, c)
  }

  /** The materialized piece at (rr, cc) belongs to `enemy` and reaches (r, c)
      in attack mode. */
  predicate Attacks(b: Board, qs: seq<QuantumPiece>, rr: int, cc: int, enemy: Color, r: int, c: int)
    requires ValidBoard(b)
    decreases 1, 0
  {
    InBounds(rr, cc) && b[rr][cc].Some? && b[rr][cc].value.color == enemy
    && exists m :: m in PseudoMoves(b, qs, None, rr, cc, enemy, true) && m.r == r && m.c == c
  }

  // ---------------------------------------------------------------------
  // Properties of the generator

  /** The square just past the last move of a ray (the start if the ray is empty). */
  function RayEnd(ms: seq<Move>, tr: int, tc: int, dr: int, dc: int): Coord
  {
    if ms == [] then Coord(tr, tc) else Coord(ms[|ms| - 1].r + dr, ms[|ms| - 1].c + dc)
  }

  /** Moves that walk square by square from (tr, tc) in direction (dr, dc),
      every one but the last a quiet move. */
  predicate Contiguous(ms: seq<Move>, tr: int, tc: int, dr: int, dc: int)
  {
    (ms != [] ==> ms[0].r == tr && ms[0].c == tc)
    && forall i :: 0 <= i < |ms| - 1 ==> ms[i].kind == Step && ms[i + 1].r == ms[i].r + dr && ms[i + 1].c == ms[i].c + dc
  }

  /** A quiet move in front of a walk from the next square is a walk from this one. */
  lemma ContiguousCons(rest: seq<Move>, tr: int, tc: int, dr: int, dc: int)
    requires Contiguous(rest, tr + dr, tc + dc, dr, dc)
    ensures Contiguous([Move(tr, tc, Step)] + rest, tr, tc, dr, dc)
  {
  }

  /** Putting a quiet move in front of a walk keeps its last move and its end. */
  lemma RayEndCons(rest: seq<Move>, tr: int, tc: int, dr: int, dc: int)
    ensures var ms := [Move(tr, tc, Step)] + rest;
      RayEnd(ms, tr, tc, dr, dc) == RayEnd(rest, tr + dr, tc + dc, dr, dc)
      && ms[|ms| - 1].kind == (if rest == [] then Step else rest[|rest| - 1].kind)
  {
  }

  /** A ray walks square by square from its start, and every move but the
      last is a quiet move (over an empty square, by SlideRay's contract). */
  lemma {:induction false} RayIsContiguous(b: Board, qs: seq<QuantumPiece>, tr: int, tc: int, dr: int, dc: int, color: Color)
    requires ValidBoard(b) && UnitDir(dr, dc)
    ensures Contiguous(SlideRay(b, qs, tr, tc, dr, dc, color), tr, tc, dr, dc)
    decreases Span(tr, dr) + Span(tc, dc)
  {
    if InBounds(tr, tc) && PieceAt(b, qs, tr, tc).None? {
      RayIsContiguous(b, qs, tr + dr, tc + dc, dr, dc, color);
      ContiguousCons(SlideRay(b, qs, tr + dr, tc + dc, dr, dc, color), tr, tc, dr, dc);
    }
  }

  /** The square a ray stopped at without capturing: off the board, or
      holding a piece of the mover's side (materialized or superposed). */
  predicate Blocks(b: Board, qs: seq<QuantumPiece>, e: Coord, color: Color)
    requires ValidBoard(b)
  {
    !InBounds(e.r, e.c) || (PieceAt(b, qs, e.r, e.c).Some? && PieceAt(b, qs, e.r, e.c).value.Side() == color)
  }

  /** The ray of moves from (tr, tc) ends in a capture or is blocked where it ends. */
  predicate Stopped(b: Board, qs: seq<QuantumPiece>, ms: seq<Move>, tr: int, tc: int, dr: int, dc: int, color: Color)
    requires ValidBoard(b)
  {
    ms == [] || ms[|ms| - 1].kind == Step ==> Blocks(b, qs, RayEnd(ms, tr, tc, dr, dc), color)
  }

  /** A ray that does not end in a capture ends because the next square is
      off the board or holds a friendly piece (materialized or superposed):
      the ray stops at the first occupied square and includes it only when
      the occupant is an enemy. */
  lemma {:induction false} RayStopsAtFirstOccupied(b: Board, qs: seq<QuantumPiece>, tr: int, tc: int, dr: int, dc: int, color: Color)
    requires ValidBoard(b) && UnitDir(dr, dc)
    ensures Stopped(b, qs, SlideRay(b, qs, tr, tc, dr, dc, color), tr, tc, dr, dc, color)
    decreases Span(tr, dr) + Span(tc, dc)
  {
    if InBounds(tr, tc) && PieceAt(b, qs, tr, tc).None? {
      RayFirstSquare(b, qs, tr, tc, dr, dc, color);
      SpanShrinks(tr, tc, dr, dc);
      RayStopsAtFirstOccupied(b, qs, tr + dr, tc + dc, dr, dc, color);
      StopCarries(b, qs, SlideRay(b, qs, tr, tc, dr, dc, color), SlideRay(b, qs, tr + dr, tc + dc, dr, dc, color), tr, tc, dr, dc, color);
    } else {
      RayStopsAtOnce(b, qs, tr, tc, dr, dc, color);
    }
  }

  /** One step along a direction from a square of the board brings a ray closer to its edge. */
  lemma SpanShrinks(tr: int, tc: int, dr: int, dc: int)
    requires InBounds(tr, tc) && UnitDir(dr, dc)
    ensures 0 <= Span(tr + dr, dr) + Span(tc + dc, dc) < Span(tr, dr) + Span(tc, dc)
  {
  }

  /** A ray whose first square is off the board or occupied is empty or a
      single capture; when empty, that square blocks it. */
  lemma RayStopsAtOnce(b: Board, qs: seq<QuantumPiece>, tr: int, tc: int, dr: int, dc: int, color: Color)
    requires ValidBoard(b) && UnitDir(dr, dc) && !(InBounds(tr, tc) && PieceAt(b, qs, tr, tc).None?)
    ensures Stopped(b, qs, SlideRay(b, qs, tr, tc, dr, dc, color), tr, tc, dr, dc, color)
  {
  }

  /** What a ray does at its first square: nothing off the board, a quiet
      move and the rest of the ray over an empty square, one capture of an
      enemy, nothing at a friendly piece. */
  lemma RayFirstSquare(b: Board, qs: seq<QuantumPiece>, tr: int, tc: int, dr: int, dc: int, color: Color)
    requires ValidBoard(b) && UnitDir(dr, dc)
    ensures var ms := SlideRay(b, qs, tr, tc, dr, dc, color);
      && (!InBounds(tr, tc) ==> ms == [] && Blocks(b, qs, Coord(tr, tc), color))
      && (InBounds(tr, tc) && PieceAt(b, qs, tr, tc).None? ==>
            ms == [Move(tr, tc, Step)] + SlideRay(b, qs, tr + dr, tc + dc, dr, dc, color))
      && (InBounds(tr, tc) && PieceAt(b, qs, tr, tc).Some? ==>
            if PieceAt(b, qs, tr, tc).value.Side() != color then ms == [Move(tr, tc, Capture)]
            else ms == [] && Blocks(b, qs, Coord(tr, tc), color))
  {
  }

  /** One quiet step in front of a ray that stops without capturing gives a
      ray that stops at the same square. */
  lemma StopCarries(b: Board, qs: seq<QuantumPiece>, ms: seq<Move>, rest: seq<Move>, tr: int, tc: int, dr: int, dc: int, color: Color)
    requires ValidBoard(b) && ms == [Move(tr, tc, Step)] + rest
    requires Stopped(b, qs, rest, tr + dr, tc + dc, dr, dc, color)
    ensures Stopped(b, qs, ms, tr, tc, dr, dc, color)
  {
  }

  /** Kingside castling is open for `color`: the unmoved king on (row, 4) is
      not attacked, the unmoved rook stands on column 7, columns 5 and 6 are
      empty to pieceAt and neither is attacked. */
  predicate KingsideOpen(b: Board, qs: seq<QuantumPiece>, color: Color)
    requires ValidBoard(b)
  {
    var row := HomeRow(color);
    b[row][4] == Some(Piece(King, color, false)) && !IsSquareAttacked(b, qs, row, 4, color)
    && UnmovedRook(b[row][7], color)
    && PieceAt(b, qs, row, 5).None? && PieceAt(b, qs, row, 6).None?
    && !IsSquareAttacked(b, qs, row, 5, color) && !IsSquareAttacked(b, qs, row, 6, color)
  }

  /** Queenside castling is open for `color`: the unmoved king on (row, 4) is
      not attacked, the unmoved rook stands on column 0, columns 1, 2 and 3
      are empty to pieceAt and columns 3 and 2 are not attacked. */
  predicate QueensideOpen(b: Board, qs: seq<QuantumPiece>, color: Color)
    requires ValidBoard(b)
  {
    var row := HomeRow(color);
    b[row][4] == Some(Piece(King, color, false)) && !IsSquareAttacked(b, qs, row, 4, color)
    && UnmovedRook(b[row][0], color)
    && PieceAt(b, qs, row, 1).None? && PieceAt(b, qs, row, 2).None? && PieceAt(b, qs, row, 3).None?
    && !IsSquareAttacked(b, qs, row, 3, color) && !IsSquareAttacked(b, qs, row, 2, color)
  }

  /** Castling to column 6 (kingside) or column 2 (queenside) is generated
      exactly when it is open and the generator is not in attack mode, and
      no other castling move is ever generated. */
  lemma {:induction false} CastlingRule(b: Board, qs: seq<QuantumPiece>, ep: Option<Coord>, r: int, c: int, color: Color, forAttack: bool)
    requires ValidBoard(b) && InBounds(r, c)
    ensures var ms := PseudoMoves(b, qs, ep, r, c, color, forAttack);
      && (Move(HomeRow(color), 6, CastleK) in ms <==> !forAttack && r == HomeRow(color) && c == 4 && KingsideOpen(b, qs, color))
      && (Move(HomeRow(color), 2, CastleQ) in ms <==> !forAttack && r == HomeRow(color) && c == 4 && QueensideOpen(b, qs, color))
      && (forall m :: m in ms && m.kind == CastleK ==> m == Move(HomeRow(color), 6, CastleK))
      && (forall m :: m in ms && m.kind == CastleQ ==> m == Move(HomeRow(color), 2, CastleQ))
  {
    match b[r][c]
    case None =>
    case Some(p) =>
      if p.color == color && p.kind == King {
        KingCastling(b, qs, r, c, color, p.moved, forAttack);
      }
  }

  /** The king case of CastlingRule: the castling moves are the ones
      CastleMoves adds to the eight steps. */
  lemma KingCastling(b: Board, qs: seq<QuantumPiece>, r: int, c: int, color: Color, moved: bool, forAttack: bool)
    requires ValidBoard(b) && InBounds(r, c) && b[r][c] == Some(Piece(King, color, moved))
    ensures var ms := KingMoves(b, qs, r, c, color, moved, forAttack);
      && (Move(HomeRow(color), 6, CastleK) in ms <==> !forAttack && r == HomeRow(color) && c == 4 && KingsideOpen(b, qs, color))
      && (Move(HomeRow(color), 2, CastleQ) in ms <==> !forAttack && r == HomeRow(color) && c == 4 && QueensideOpen(b, qs, color))
      && (forall m :: m in ms && m.kind == CastleK ==> m == Move(HomeRow(color), 6, CastleK))
      && (forall m :: m in ms && m.kind == CastleQ ==> m == Move(HomeRow(color), 2, CastleQ))
  {
    var row := HomeRow(color);
    var jumps := JumpMoves(b, qs, r, c, color, KingSteps);
    var castles := if !forAttack && !moved then CastleMoves(b, qs, r, c, color) else [];
    assert KingMoves(b, qs, r, c, color, moved, forAttack) == jumps + castles;
    assert Move(row, 6, CastleK) !in jumps && Move(row, 2, CastleQ) !in jumps;
  }
  /** The knight case of pseudoMoves lists exactly the eight jumps that land
      on the board on an empty square or an enemy. */
  lemma KnightRule(b: Board, qs: seq<QuantumPiece>, ep: Option<Coord>, r: int, c: int, color: Color, forAttack: bool)
    requires ValidBoard(b) && InBounds(r, c) && b[r][c].Some? && b[r][c].value.color == color && b[r][c].value.kind == Knight
    ensures var ms := PseudoMoves(b, qs, ep, r, c, color, forAttack);
      && (forall k :: 0 <= k < |KnightJumps| ==> Reached(b, qs, color, r + KnightJumps[k].0, c + KnightJumps[k].1, ms))
      && (forall m :: m in ms ==> (m.r - r, m.c - c) in KnightJumps && (m.kind == Step || m.kind == Capture))
  {
  }

  /** The king case of pseudoMoves lists each of the eight neighbours that
      is empty or holds an enemy; its other moves are castling. */
  lemma KingRule(b: Board, qs: seq<QuantumPiece>, ep: Option<Coord>, r: int, c: int, color: Color, forAttack: bool)
    requires ValidBoard(b) && InBounds(r, c) && b[r][c].Some? && b[r][c].value.color == color && b[r][c].value.kind == King
    ensures var ms := PseudoMoves(b, qs, ep, r, c, color, forAttack);
      && (forall k :: 0 <= k < |KingSteps| ==> Reached(b, qs, color, r + KingSteps[k].0, c + KingSteps[k].1, ms))
      && (forall m :: m in ms ==> (m.r - r, m.c - c) in KingSteps || m.kind == CastleK || m.kind == CastleQ)
  {
  }

  /** The bishop, rook and queen case of pseudoMoves lists exactly the rays
      along the piece's directions. */
  lemma SliderRule(b: Board, qs: seq<QuantumPiece>, ep: Option<Coord>, r: int, c: int, color: Color, forAttack: bool)
    requires ValidBoard(b) && InBounds(r, c) && b[r][c].Some? && b[r][c].value.color == color
    requires b[r][c].value.kind == Bishop || b[r][c].value.kind == Rook || b[r][c].value.kind == Queen
    ensures var ms := PseudoMoves(b, qs, ep, r, c, color, forAttack);
      forall m :: m in ms <==> exists d :: d in SliderDirs(b[r][c].value.kind) && m in SlideRay(b, qs, r + d.0, c + d.1, d.0, d.1, color)
  {
  }

  /** The pawn case of pseudoMoves lists every push, diagonal and en-passant
      move PawnComplete names, and nothing that does not reach one of the
      pawn's squares. */
  lemma PawnRule(b: Board, qs: seq<QuantumPiece>, ep: Option<Coord>, r: int, c: int, color: Color, forAttack: bool)
    requires ValidBoard(b) && InBounds(r, c) && b[r][c].Some? && b[r][c].value.color == color && b[r][c].value.kind == Pawn
    ensures var ms := PseudoMoves(b, qs, ep, r, c, color, forAttack);
      && PawnComplete(b, qs, ep, r, c, color, b[r][c].value.moved, forAttack, ms)
      && (forall m :: m in ms ==> PawnTarget(r, c, color, b[r][c].value.moved, m))
  {
    PawnMovesReach(b, qs, ep, r, c, color, b[r][c].value.moved, forAttack);
  }

  /** A materialized knight attacks every square a knight's jump away that
      holds a piece of the other side, so such a square counts as attacked. */
  lemma KnightAttacks(b: Board, qs: seq<QuantumPiece>, rr: int, cc: int, r: int, c: int, own: Color)
    requires ValidBoard(b) && InBounds(rr, cc) && InBounds(r, c)
    requires b[rr][cc].Some? && b[rr][cc].value.kind == Knight && b[rr][cc].value.color == Opponent(own)
    requires (r - rr, c - cc) in KnightJumps
    requires b[r][c].Some? && b[r][c].value.color == own
    ensures IsSquareAttacked(b, qs, r, c, own)
  {
    var enemy := Opponent(own);
    KnightRule(b, qs, None, rr, cc, enemy, true);
    var k :| 0 <= k < |KnightJumps| && KnightJumps[k] == (r - rr, c - cc);
    assert Reached(b, qs, enemy, rr + KnightJumps[k].0, cc + KnightJumps[k].1, PseudoMoves(b, qs, None, rr, cc, enemy, true));
    assert Move(r, c, Capture) in PseudoMoves(b, qs, None, rr, cc, enemy, true);
    assert Attacks(b, qs, rr, cc, enemy, r, c);
  }

  /** A materialized pawn attacks both squares diagonally ahead of it,
      whether or not anything stands there, so each such square on the
      board counts as attacked for the other side. */
  lemma PawnAttacks(b: Board, qs: seq<QuantumPiece>, rr: int, cc: int, r: int, c: int, own: Color)
    requires ValidBoard(b) && InBounds(rr, cc) && InBounds(r, c)
    requires b[rr][cc].Some? && b[rr][cc].value.kind == Pawn && b[rr][cc].value.color == Opponent(own)
    requires r == rr + Dir(Opponent(own)) && (c == cc - 1 || c == cc + 1)
    ensures IsSquareAttacked(b, qs, r, c, own)
  {
    var enemy := Opponent(own);
    PawnRule(b, qs, None, rr, cc, enemy, true);
    var ms := PseudoMoves(b, qs, None, rr, cc, enemy, true);
    assert DiagonalListed(b, qs, rr, cc, enemy, c - cc, true, ms);
    assert Move(r, c, Attack) in ms;
    assert Attacks(b, qs, rr, cc, enemy, r, c);
  }
}
