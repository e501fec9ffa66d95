/** The game state as a value: the fields a snapshot saves for undo, the
    invariants every reachable state keeps, and the effect of each turn
    (completeTurn, the two collapses, executeMove, createQuantumMove) and of
    a board click (squareClick's branch order) as functions on that value. */
module State {
  import opened Board
  import opened Quantum
  import opened MoveGen
  import opened Legality
  import opened History

  datatype Mode = Pvp | Ai

  /** The text a turn hands to completeTurn; Silent is the empty string. */
  datatype Note =
    | Silent
    | SplitCreated(a: Coord, b: Coord)  // the split's two squares
    | CollapsedAt(sq: Coord)            // collapse by the owner selecting the square
    | SurvivedAt(sq: Coord)             // collapse on capture, the piece lives on at sq
    | CapturedAt(sq: Coord)             // collapse on capture, the piece was taken at sq

  /** The status messages, one constructor per wording. */
  datatype Message =
    | SelectPiece
    | NewGameStarted
    | PickDestination
    | PickTwoDestinations
    | PickSecondDestination
    | QuantumModeOn
    | QuantumModeOff
    | NoQuantumLeft
    | CheckmateWin(winner: Color)
    | StalemateDraw
    | Checked(note: Note)   // the note followed by "Check." (or "Check." alone)
    | Noted(note: Note)     // the note on its own

  /** Everything snapshotState copies. The split targets chosen so far
      (`pendingQuantum.targets`) are a sequence; the en-passant target is a
      square rather than its name. */
  datatype Snapshot = Snapshot(
    board: Board,
    turn: Color,
    selected: Option<Coord>,
    legalMoves: seq<Move>,
    quantumMode: bool,
    pendingQuantum: Option<seq<Coord>>,
    quantumPieces: seq<QuantumPiece>,
    quantumUses: Credits,
    enPassantTarget: Option<Coord>,
    mode: Mode,
    moveHistory: seq<string>,
    messageHistory: seq<Message>,
    currentMessage: Message,
    gameOver: bool)

  // ---------------------------------------------------------------------
  // Invariants

  predicate NoDup<T(==)>(s: seq<T>)
  {
    forall i, j :: 0 <= i < j < |s| ==> s[i] != s[j]
  }

  /** What executeMove needs of a move: it lands on the board, an en-passant
      capture lands where the taken pawn's square (behind it, for either
      side) is on the board too, and a double push spans two rows. */
  predicate Shaped(from: Coord, m: Move)
  {
    InBounds(m.r, m.c)
    && (m.kind == EnPassant ==> 1 <= m.r <= 6)
    && (m.kind == Double ==> m.r - from.r == 2 || from.r - m.r == 2)
  }

  /** The board, the superposition entries and the en-passant square are
      well formed. */
  predicate Settled(s: Snapshot)
  {
    ValidBoard(s.board)
    && (forall q :: q in s.quantumPieces ==> OnBoard(q))
    && IdsDistinct(s.quantumPieces)
    && (s.enPassantTarget.Some? ==> 1 <= s.enPassantTarget.value.r <= 6 && 0 <= s.enPassantTarget.value.c < 8)
  }

  /** The selection is consistent: a selected square holds a piece of the
      side to move and the moves listed are exactly its legal moves (well
      shaped); split targets are distinct destinations of those moves;
      quantum mode is only on while the side to move has a split left. The
      listed moves are tied to the legal moves through the term that names
      the latter, so the tie is used only where a proof speaks of them. */
  ghost predicate Composed(s: Snapshot)
    requires ValidBoard(s.board)
  {
    (s.selected.None? ==> s.legalMoves == [])
    && (s.selected.Some? ==>
          var f := s.selected.value;
          InBounds(f.r, f.c) && s.board[f.r][f.c].Some? && s.board[f.r][f.c].value.color == s.turn
          && forall m :: m in s.legalMoves ==> Shaped(f, m))
    && (forall f {:trigger LegalMovesForSquare(s.board, s.quantumPieces, s.enPassantTarget, f.r, f.c, s.turn)} ::
          s.selected == Some(f) && InBounds(f.r, f.c)
          ==> s.legalMoves == LegalMovesForSquare(s.board, s.quantumPieces, s.enPassantTarget, f.r, f.c, s.turn))
    && (s.quantumMode ==> s.quantumUses.Of(s.turn) > 0)
    && (s.pendingQuantum.Some? ==>
          NoDup(s.pendingQuantum.value)
          && forall t :: t in s.pendingQuantum.value ==> FindMove(s.legalMoves, t.r, t.c).Some?)
  }

  /** Neither side's split count is negative. */
  predicate Solvent(s: Snapshot)
  {
    s.quantumUses.white >= 0 && s.quantumUses.black >= 0
  }

  ghost predicate WellFormed(s: Snapshot)
  {
    Settled(s) && Composed(s) && Solvent(s)
  }

  /** An id that no live entry carries: one more than the largest. */
  function FreshId(qs: seq<QuantumPiece>): (id: nat)
    ensures forall q :: q in qs ==> q.id < id
  {
    if |qs| == 0 then 0
    else
      var k := FreshId(qs[1..]);
      if qs[0].id < k then k else qs[0].id + 1
  }

  /** Every snapshot on a stack is well formed (read from the top down). */
  ghost predicate AllRecoverable(stack: seq<Snapshot>)
  {
    stack == [] || (WellFormed(stack[|stack| - 1]) && AllRecoverable(stack[..|stack| - 1]))
  }

  /** Pushing a well-formed snapshot keeps the stack restorable. */
  lemma PushRecoverable(stack: seq<Snapshot>, s: Snapshot)
    requires AllRecoverable(stack) && WellFormed(s)
    ensures AllRecoverable(stack + [s])
  {
    assert (stack + [s])[..|stack|] == stack;
  }

  /** Dropping the bottom snapshot keeps the stack restorable. */
  lemma {:induction false} DropBottomRecoverable(stack: seq<Snapshot>)
    requires AllRecoverable(stack) && stack != []
    ensures AllRecoverable(stack[1..])
  {
    if |stack| > 1 {
      var init := stack[..|stack| - 1];
      DropBottomRecoverable(init);
      assert stack[1..][..|stack[1..]| - 1] == init[1..];
      assert stack[1..][|stack[1..]| - 1] == stack[|stack| - 1];
    }
  }

  /** The bounded push of pushUndoSnapshot keeps the stack restorable. */
  lemma PushBoundedRecoverable(stack: seq<Snapshot>, s: Snapshot)
    requires AllRecoverable(stack) && WellFormed(s)
    ensures AllRecoverable(PushBounded(stack, s))
  {
    PushRecoverable(stack, s);
    if |stack + [s]| > UndoLimit {
      DropBottomRecoverable(stack + [s]);
    }
  }

  /** What holds of the state on show and the two stacks between any two
      steps, even inside a turn: the board and the entries on show are well
      formed, every saved snapshot can be restored, and the stacks hold at
      most UndoLimit snapshots between them. */
  ghost predicate Steady(t: Timeline<Snapshot>)
  {
    Settled(t.present) && AllRecoverable(t.undo) && AllRecoverable(t.redo) && Bounded(t)
  }

  /** What holds whenever the game waits for input. */
  ghost predicate Sound(t: Timeline<Snapshot>)
  {
    Steady(t) && Composed(t.present) && Solvent(t.present)
  }

  /** Saving the state keeps the session sound. */
  lemma RecordSound(t: Timeline<Snapshot>)
    requires Sound(t)
    ensures Sound(Record(t))
  {
    PushBoundedRecoverable(t.undo, t.present);
  }

  /** Undoing keeps the session sound: the snapshot brought back was restorable. */
  lemma StepBackSound(t: Timeline<Snapshot>)
    requires Sound(t)
    ensures Sound(StepBack(t))
  {
    if t.undo != [] {
      PushRecoverable(t.redo, t.present);
    }
  }

  /** Redoing keeps the session sound. */
  lemma StepForwardSound(t: Timeline<Snapshot>)
    requires Sound(t)
    ensures Sound(StepForward(t))
  {
    if t.redo != [] {
      PushRecoverable(t.undo, t.present);
    }
  }

  /** initialGameState, with its first message. */
  function InitialSnapshot(): (s: Snapshot)
    ensures WellFormed(s)
    ensures s.turn == White && !s.gameOver && s.selected.None? && !s.quantumMode
    ensures s.quantumUses.Of(White) == 3 && s.quantumUses.Of(Black) == 3 && s.quantumPieces == []
  {
    Snapshot(InitialBoard(), White, None, [], false, None, [], InitialCredits, None, Pvp, [], [SelectPiece], SelectPiece, false)
  }

  // ---------------------------------------------------------------------
  // Lookups used by squareClick

  /** The index of the first move landing on (r, c), or -1. */
  function MoveIndex(ms: seq<Move>, r: int, c: int): (i: int)
    ensures i == -1 <==> forall k :: 0 <= k < |ms| ==> !(ms[k].r == r && ms[k].c == c)
    ensures i != -1 ==> 0 <= i < |ms| && ms[i].r == r && ms[i].c == c
    ensures i != -1 ==> forall k :: 0 <= k < i ==> !(ms[k].r == r && ms[k].c == c)
  {
    if |ms| == 0 then -1
    else if ms[0].r == r && ms[0].c == c then 0
    else
      var k := MoveIndex(ms[1..], r, c);
      if k == -1 then -1 else k + 1
  }

  /** `legalMoves.find(...)`: the first listed move landing on (r, c). */
  function FindMove(ms: seq<Move>, r: int, c: int): (o: Option<Move>)
    ensures o.None? <==> forall m :: m in ms ==> !(m.r == r && m.c == c)
    ensures o.Some? ==> o.value in ms && o.value.r == r && o.value.c == c
    ensures o.Some? ==> exists i :: 0 <= i < |ms| && ms[i] == o.value && forall k :: 0 <= k < i ==> !(ms[k].r == r && ms[k].c == c)
  {
    var i := MoveIndex(ms, r, c);
    if i == -1 then None else Some(ms[i])
  }

  /** Adding a split target unless it is already chosen. */
  function WithTarget(ts: seq<Coord>, t: Coord): (r: seq<Coord>)
    ensures forall x :: x in r <==> x in ts || x == t
    ensures NoDup(ts) ==> NoDup(r)
    ensures t in ts ==> r == ts
  {
    if t in ts then ts
    else
      assert forall i :: 0 <= i < |ts| ==> (ts + [t])[i] == ts[i];
      ts + [t]
  }

  // ---------------------------------------------------------------------
  // completeTurn

  /** setMessage. */
  function Say(s: Snapshot, m: Message): Snapshot
  {
    s.(currentMessage := m, messageHistory := s.messageHistory + [m])
  }

  /** The end of completeTurn once it knows whether the side now to move
      has no legal move (`stuck`) and whether its king is attacked (`check`):
      the turn passes, the selection and quantum mode are dropped, and the
      game ends with checkmate or stalemate, or goes on with a message. */
  function Conclude(s: Snapshot, note: Note, stuck: bool, check: bool): (s': Snapshot)
    ensures s'.turn == Opponent(s.turn)
    ensures s'.selected.None? && s'.legalMoves == [] && s'.pendingQuantum.None? && !s'.quantumMode
    ensures s'.board == s.board && s'.quantumPieces == s.quantumPieces && s'.quantumUses == s.quantumUses
            && s'.enPassantTarget == s.enPassantTarget && s'.mode == s.mode && s'.moveHistory == s.moveHistory
    ensures s'.gameOver <==> s.gameOver || stuck
    ensures stuck && check ==> s'.messageHistory == s.messageHistory + [CheckmateWin(s.turn)]
    ensures stuck && !check ==> s'.messageHistory == s.messageHistory + [StalemateDraw]
    ensures !stuck && check ==> s'.messageHistory == s.messageHistory + [Checked(note)]
    ensures !stuck && !check ==> s'.messageHistory == s.messageHistory + (if note == Silent then [] else [Noted(note)])
    ensures s'.messageHistory != s.messageHistory ==> s'.currentMessage == s'.messageHistory[|s'.messageHistory| - 1]
    ensures s'.messageHistory == s.messageHistory ==> s'.currentMessage == s.currentMessage
  {
    var side := Opponent(s.turn);
    var t := s.(turn := side, selected := None, legalMoves := [], pendingQuantum := None, quantumMode := false);
    if stuck then
      if check then Say(t.(gameOver := true), CheckmateWin(Opponent(side)))
      else Say(t.(gameOver := true), StalemateDraw)
    else if check then Say(t, Checked(note))
    else if note != Silent then Say(t, Noted(note))
    else t
  }

  /** completeTurn, without the AI timer it may start: the side now to move
      is stuck when allLegalMoves is empty, and in check when its king is
      found and attacked. */
  function Finish(s: Snapshot, note: Note): (s': Snapshot)
    requires ValidBoard(s.board)
    ensures Settled(s) ==> Settled(s') && Composed(s')
    ensures Solvent(s) ==> Solvent(s')
  {
    var side := Opponent(s.turn);
    Conclude(s, note, AllLegalMoves(s.board, s.quantumPieces, s.enPassantTarget, side) == [],
             InCheck(s.board, s.quantumPieces, side))
  }

  /** What completeTurn reports, in terms of the side now to move: the game
      ends exactly when that side has no legal move on any square; it is
      then checkmate, won by the side that just moved, if its king is
      attacked, and stalemate otherwise. */
  lemma FinishVerdict(s: Snapshot, note: Note)
    requires ValidBoard(s.board)
    ensures var side := Opponent(s.turn);
      var stuck := NoLegalMove(s.board, s.quantumPieces, s.enPassantTarget, side);
      var check := InCheck(s.board, s.quantumPieces, side);
      var s' := Finish(s, note);
      && (s'.gameOver <==> s.gameOver || stuck)
      && (stuck && check ==> s'.currentMessage == CheckmateWin(s.turn))
      && (stuck && !check ==> s'.currentMessage == StalemateDraw)
      && (!stuck && check ==> s'.currentMessage == Checked(note))
  {
    NoPlaysNoMoves(s.board, s.quantumPieces, s.enPassantTarget, Opponent(s.turn));
  }

  // ---------------------------------------------------------------------
  // Collapses

  /** collapseForOwnerMovement: the first entry holding `sq` becomes a
      materialized, moved piece on `sq` and the entry is dropped. */
  function Materialized(s: Snapshot, sq: Coord): (s': Snapshot)
    requires Settled(s) && InBounds(sq.r, sq.c) && QuantumAt(s.quantumPieces, sq).Some?
    ensures Settled(s') && s' == s.(board := s'.board, quantumPieces := s'.quantumPieces)
    ensures forall q :: q in s'.quantumPieces ==> q in s.quantumPieces
  {
    var q := QuantumAt(s.quantumPieces, sq).value;
    RemoveIdKeepsDistinct(s.quantumPieces, q.id);
    s.(board := Put(s.board, sq.r, sq.c, Some(Piece(q.kind, q.color, true))),
       quantumPieces := RemoveId(s.quantumPieces, q.id))
  }

  /** tryCollapseOnCapture: the first entry holding the captured square is
      dropped; if it survives and has another square, it materializes there
      (over whatever stood there); the note tells which happened. */
  function CaptureCollapse(s: Snapshot, target: Coord, survive: bool): (r: (Snapshot, Note))
    requires Settled(s) && InBounds(target.r, target.c)
    ensures Settled(r.0) && r.0 == s.(board := r.0.board, quantumPieces := r.0.quantumPieces)
    ensures forall i, j :: InBounds(i, j) && r.1 != SurvivedAt(Coord(i, j)) ==> r.0.board[i][j] == s.board[i][j]
    ensures forall q :: q in r.0.quantumPieces ==> q in s.quantumPieces
  {
    match QuantumAt(s.quantumPieces, target)
    case None => (s, Silent)
    case Some(q) =>
      RemoveIdKeepsDistinct(s.quantumPieces, q.id);
      var rest := RemoveId(s.quantumPieces, q.id);
      var other := Other(q, target);
      if survive && other.Some? then
        (s.(board := Put(s.board, other.value.r, other.value.c, Some(Piece(q.kind, q.color, true))), quantumPieces := rest),
         SurvivedAt(other.value))
      else (s.(quantumPieces := rest), CapturedAt(target))
  }

  /** A capture collapse removes exactly the first entry holding the square
      (ids are distinct), keeps the rest in order, and either materializes
      that piece, moved, on its other square or leaves the board alone. */
  lemma CaptureCollapseSpec(s: Snapshot, target: Coord, survive: bool)
    requires Settled(s) && InBounds(target.r, target.c)
    ensures var (s', note) := CaptureCollapse(s, target, survive); var i := QuantumIndex(s.quantumPieces, target);
      && s' == s.(board := s'.board, quantumPieces := s'.quantumPieces)
      && (i == -1 ==> s' == s && note == Silent)
      && (i != -1 ==>
            var q := s.quantumPieces[i];
            && s'.quantumPieces == s.quantumPieces[..i] + s.quantumPieces[i + 1..]
            && (survive && Other(q, target).Some? ==>
                  var o := Other(q, target).value;
                  note == SurvivedAt(o) && s'.board == Put(s.board, o.r, o.c, Some(Piece(q.kind, q.color, true))))
            && (!survive || Other(q, target).None? ==> note == CapturedAt(target) && s'.board == s.board))
  {
    var i := QuantumIndex(s.quantumPieces, target);
    if i != -1 {
      RemoveEntry(s.quantumPieces, i);
    }
  }

  // ---------------------------------------------------------------------
  // executeMove

  /** The collapse executeMove starts with: only when pieceAt sees a
      superposed piece on the destination (an empty square held by an entry). */
  function Collapsed(s: Snapshot, dest: Coord, survive: bool): (r: (Snapshot, Note))
    requires Settled(s) && InBounds(dest.r, dest.c)
    ensures Settled(r.0) && r.0 == s.(board := r.0.board, quantumPieces := r.0.quantumPieces)
    ensures forall i, j :: InBounds(i, j) && r.1 != SurvivedAt(Coord(i, j)) ==> r.0.board[i][j] == s.board[i][j]
    ensures forall q :: q in r.0.quantumPieces ==> q in s.quantumPieces
  {
    var target := PieceAt(s.board, s.quantumPieces, dest.r, dest.c);
    if target.Some? && target.value.Superposed? then CaptureCollapse(s, dest, survive) else (s, Silent)
  }

  /** The en-passant square executeMove records: the square a pawn passed
      over on its double push, and none after any other move. */
  function PassedOver(from: Coord, move: Move, pawn: bool): (ep: Option<Coord>)
    requires InBounds(from.r, from.c) && Shaped(from, move)
    ensures ep.Some? ==> 1 <= ep.value.r <= 6 && 0 <= ep.value.c < 8
  {
    if pawn && move.kind == Double then Some(Coord((from.r + move.r) / 2, from.c)) else None
  }

  /** The rest of executeMove: play the move on the board (whatever piece now
      stands on the origin), set the en-passant square to the midpoint after
      a pawn's double push and clear it otherwise, and record the move's name. */
  function Advance(t: Snapshot, from: Coord, move: Move, pawn: bool): (t': Snapshot)
    requires Settled(t) && InBounds(from.r, from.c) && Shaped(from, move)
    ensures Settled(t')
    ensures t' == t.(board := t'.board, enPassantTarget := t'.enPassantTarget, moveHistory := t'.moveHistory)
  {
    t.(board := ApplyMove(t.board, from, move, t.turn),
       enPassantTarget := PassedOver(from, move, pawn),
       moveHistory := t.moveHistory + [ToSquare(from.r, from.c) + "-" + ToSquare(move.r, move.c)])
  }

  /** executeMove after saving the state, while the origin holds a piece:
      the collapse, then the move; the note is the collapse message, if any.
      Whether the move was a pawn's double push is judged on the piece read
      before the collapse. */
  function Played(s: Snapshot, from: Coord, move: Move, survive: bool): (r: (Snapshot, Note))
    requires Settled(s) && InBounds(from.r, from.c) && Shaped(from, move) && s.board[from.r][from.c].Some?
    ensures Settled(r.0)
    ensures r.0 == s.(board := r.0.board, quantumPieces := r.0.quantumPieces,
                      enPassantTarget := r.0.enPassantTarget, moveHistory := r.0.moveHistory)
    ensures forall q :: q in r.0.quantumPieces ==> q in s.quantumPieces
  {
    var piece := s.board[from.r][from.c].value;
    var (t, note) := Collapsed(s, Coord(move.r, move.c), survive);
    (Advance(t, from, move, piece.kind == Pawn), note)
  }

  /** executeMove after saving the state: nothing more when the origin is
      empty, else the move followed by completeTurn. */
  function AfterMove(s: Snapshot, from: Coord, move: Move, survive: bool): (s': Snapshot)
    requires Settled(s) && InBounds(from.r, from.c) && Shaped(from, move)
  {
    if s.board[from.r][from.c].None? then s
    else
      var (t, note) := Played(s, from, move, survive);
      Finish(t, note)
  }

  /** A played move lands the piece standing on the origin after the
      collapse, marked moved and promoted on the last row; that is the mover
      itself unless the collapse made a captured entry survive on the
      origin. */
  lemma PlayedLands(s: Snapshot, from: Coord, move: Move, survive: bool)
    requires Settled(s) && InBounds(from.r, from.c) && Shaped(from, move) && s.board[from.r][from.c].Some?
    ensures var (s', note) := Played(s, from, move, survive);
      note != SurvivedAt(from) ==> s'.board[move.r][move.c] == Some(Landed(s.board[from.r][from.c].value, move.r))
  {
    var (t, note) := Collapsed(s, Coord(move.r, move.c), survive);
    var s' := Advance(t, from, move, s.board[from.r][from.c].value.kind == Pawn);
    assert s'.board == ApplyMove(t.board, from, move, t.turn);
    if note != SurvivedAt(from) {
      assert t.board[from.r][from.c] == s.board[from.r][from.c];
    }
  }

  /** The en-passant square is recorded exactly after a pawn's double push,
      and it is the square the pawn passed over. */
  lemma PassedSquare(s: Snapshot, from: Coord, move: Move, survive: bool)
    requires Settled(s) && InBounds(from.r, from.c) && Shaped(from, move) && s.board[from.r][from.c].Some?
    ensures var s' := Played(s, from, move, survive).0; var piece := s.board[from.r][from.c].value;
      && (s'.enPassantTarget.Some? <==> piece.kind == Pawn && move.kind == Double)
      && (s'.enPassantTarget.Some? ==>
            var ep := s'.enPassantTarget.value;
            ep.c == from.c && (from.r < ep.r < move.r || move.r < ep.r < from.r))
  {
  }

  /** The entry a move adds to the move list names its origin and its
      destination, and reading the names back gives the two squares. */
  lemma MoveRecorded(s: Snapshot, from: Coord, move: Move, survive: bool)
    requires Settled(s) && InBounds(from.r, from.c) && Shaped(from, move) && s.board[from.r][from.c].Some?
    ensures var h := Played(s, from, move, survive).0.moveHistory;
      && |h| == |s.moveHistory| + 1 && h[..|s.moveHistory|] == s.moveHistory
      && var e := h[|s.moveHistory|];
      |e| == 5 && e[2] == '-' && IsSquareName(e[..2]) && IsSquareName(e[3..])
      && ToCoord(e[..2]) == from && ToCoord(e[3..]) == Coord(move.r, move.c)
  {
    var e := ToSquare(from.r, from.c) + "-" + ToSquare(move.r, move.c);
    assert e[..2] == ToSquare(from.r, from.c);
    assert e[3..] == ToSquare(move.r, move.c);
    CoordOfSquare(from.r, from.c);
    CoordOfSquare(move.r, move.c);
  }

  /** executeMove keeps the session sound: the state is saved, and the
      move and completeTurn leave a well-formed state whose entries are
      among the old ones. */
  lemma MoveSound(t: Timeline<Snapshot>, from: Coord, move: Move, survive: bool)
    requires Sound(t) && InBounds(from.r, from.c) && Shaped(from, move)
    ensures Sound(Record(t).(present := AfterMove(t.present, from, move, survive)))
  {
    RecordSound(t);
  }

  // ---------------------------------------------------------------------
  // createQuantumMove

  /** createQuantumMove after saving the state, while the piece is present:
      the origin is emptied, a new entry with a fresh id holds the two
      squares, and the side to move spends a split. */
  function Split(s: Snapshot, from: Coord, a: Coord, b: Coord): Snapshot
    requires ValidBoard(s.board) && InBounds(from.r, from.c) && s.board[from.r][from.c].Some?
  {
    var piece := s.board[from.r][from.c].value;
    s.(board := Put(s.board, from.r, from.c, None),
       quantumPieces := s.quantumPieces + [QuantumPiece(FreshId(s.quantumPieces), piece.color, piece.kind, a, b)],
       quantumUses := s.quantumUses.Spend(s.turn))
  }

  /** createQuantumMove after saving the state: nothing more when the origin
      is empty, else the split followed by completeTurn. */
  function AfterSplit(s: Snapshot, from: Coord, a: Coord, b: Coord): (s': Snapshot)
    requires ValidBoard(s.board) && InBounds(from.r, from.c)
    ensures s.board[from.r][from.c].None? ==> s' == s
  {
    if s.board[from.r][from.c].None? then s
    else Finish(Split(s, from, a, b), SplitCreated(a, b))
  }

  /** A split empties the origin and changes no other square, appends exactly
      one entry (the piece, at both targets, under the fresh id), spends
      exactly one of the mover's splits and none of the opponent's. */
  lemma SplitSpendsOne(s: Snapshot, from: Coord, a: Coord, b: Coord)
    requires ValidBoard(s.board) && InBounds(from.r, from.c) && s.board[from.r][from.c].Some?
    ensures var s' := AfterSplit(s, from, a, b); var piece := s.board[from.r][from.c].value;
      && s'.board[from.r][from.c].None?
      && (forall r, c :: InBounds(r, c) && (r != from.r || c != from.c) ==> s'.board[r][c] == s.board[r][c])
      && s'.quantumPieces == s.quantumPieces + [QuantumPiece(FreshId(s.quantumPieces), piece.color, piece.kind, a, b)]
      && Holds(s'.quantumPieces[|s.quantumPieces|], a) && Holds(s'.quantumPieces[|s.quantumPieces|], b)
      && s'.quantumUses.Of(s.turn) == s.quantumUses.Of(s.turn) - 1
      && s'.quantumUses.Of(Opponent(s.turn)) == s.quantumUses.Of(Opponent(s.turn))
      && s'.turn == Opponent(s.turn)
  {
  }

  /** A split onto two squares of the board keeps the board and the entries
      well formed: the new entry's id is carried by no other. */
  lemma SplitSettled(s: Snapshot, from: Coord, a: Coord, b: Coord)
    requires Settled(s) && InBounds(from.r, from.c) && InBounds(a.r, a.c) && InBounds(b.r, b.c)
    requires s.board[from.r][from.c].Some?
    ensures Settled(Split(s, from, a, b))
  {
    var qs := Split(s, from, a, b).quantumPieces;
    forall i, j | 0 <= i < j < |qs| ensures qs[i].id != qs[j].id {
      if j == |s.quantumPieces| {
        assert qs[i] in s.quantumPieces;
      } else {
        assert qs[i] == s.quantumPieces[i] && qs[j] == s.quantumPieces[j];
      }
    }
  }

  /** createQuantumMove keeps the session steady, and sound when the mover
      had a split left. */
  lemma SplitSound(t: Timeline<Snapshot>, from: Coord, a: Coord, b: Coord)
    requires Sound(t) && InBounds(from.r, from.c) && InBounds(a.r, a.c) && InBounds(b.r, b.c)
    ensures t.present.board[from.r][from.c].None? ==> Sound(Record(t))
    ensures t.present.board[from.r][from.c].Some? ==>
      var u := Record(t).(present := AfterSplit(t.present, from, a, b));
      Steady(u) && (t.present.quantumUses.Of(t.present.turn) > 0 ==> Sound(u))
  {
    RecordSound(t);
    if t.present.board[from.r][from.c].Some? {
      SplitSettled(t.present, from, a, b);
    }
  }

  // ---------------------------------------------------------------------
  // materializeBySelection

  /** materializeBySelection after saving the state: nothing more when no
      entry holds the square, else the owner's collapse and completeTurn. */
  function AfterMaterialize(s: Snapshot, sq: Coord): (s': Snapshot)
    requires Settled(s) && InBounds(sq.r, sq.c)
    ensures Settled(s') && (Solvent(s) ==> Solvent(s'))
    ensures QuantumAt(s.quantumPieces, sq).Some? ==> Composed(s') && s'.turn == Opponent(s.turn)
  {
    if QuantumAt(s.quantumPieces, sq).None? then s
    else Finish(Materialized(s, sq), CollapsedAt(sq))
  }

  /** The owner's collapse puts the first entry holding the square on it as
      a materialized, moved piece, changes no other square and removes
      exactly that entry. */
  lemma MaterializeSpec(s: Snapshot, sq: Coord)
    requires Settled(s) && InBounds(sq.r, sq.c) && QuantumAt(s.quantumPieces, sq).Some?
    ensures var s' := Materialized(s, sq); var i := QuantumIndex(s.quantumPieces, sq); var q := s.quantumPieces[i];
      && s'.board[sq.r][sq.c] == Some(Piece(q.kind, q.color, true))
      && (forall r, c :: InBounds(r, c) && (r != sq.r || c != sq.c) ==> s'.board[r][c] == s.board[r][c])
      && s'.quantumPieces == s.quantumPieces[..i] + s.quantumPieces[i + 1..]
  {
    var i := QuantumIndex(s.quantumPieces, sq);
    var q := s.quantumPieces[i];
    assert QuantumAt(s.quantumPieces, sq) == Some(q);
    RemoveEntry(s.quantumPieces, i);
  }

  /** materializeBySelection keeps the session sound. */
  lemma MaterializeSound(t: Timeline<Snapshot>, sq: Coord)
    requires Sound(t) && InBounds(sq.r, sq.c)
    ensures Sound(Record(t).(present := AfterMaterialize(t.present, sq)))
  {
    RecordSound(t);
  }

  // ---------------------------------------------------------------------
  // squareClick

  /** Which branch of squareClick a click on (r, c) takes. */
  datatype Click =
    | NoEffect                                     // the game is over
    | TargetAdded(targets: seq<Coord>)             // a split target is recorded, one more is wanted
    | SplitChosen(from: Coord, targets: seq<Coord>) // the second target: the split is played
    | MoveChosen(from: Coord, move: Move)          // a listed move of the selected piece is played
    | CollapseChosen(sq: Coord)                    // the mover's superposed piece is materialized
    | PieceSelected(sq: Coord)                     // one of the mover's pieces is selected
    | SelectionCleared                             // anything else

  /** squareClick's tests, in the source's order. */
  function ClassifyClick(s: Snapshot, r: int, c: int): Click
    requires ValidBoard(s.board) && InBounds(r, c)
  {
    if s.gameOver then NoEffect
    else
      var chosen := FindMove(s.legalMoves, r, c);
      if s.selected.Some? && s.quantumMode && s.pendingQuantum.Some? && chosen.Some? then
        var ts := WithTarget(s.pendingQuantum.value, Coord(r, c));
        if |ts| == 2 then SplitChosen(s.selected.value, ts) else TargetAdded(ts)
      else if s.selected.Some? && chosen.Some? && !s.quantumMode then MoveChosen(s.selected.value, chosen.value)
      else
        var q := QuantumAt(s.quantumPieces, Coord(r, c));
        if q.Some? && q.value.color == s.turn then CollapseChosen(Coord(r, c))
        else if s.board[r][c].Some? && s.board[r][c].value.color == s.turn then PieceSelected(Coord(r, c))
        else SelectionCleared
  }

  /** On a well-formed state a click does nothing exactly when the game is
      over; a split is played only in quantum mode, from the selected piece,
      onto two distinct destinations of its legal moves; recorded targets
      never repeat and keep the state well formed; a move is played only
      outside quantum mode and is a listed move landing on the clicked
      square; a collapse is only of the mover's own entry; a selection is
      only of the mover's own piece. */
  lemma ClickSpec(s: Snapshot, r: int, c: int)
    requires WellFormed(s) && InBounds(r, c)
    ensures var k := ClassifyClick(s, r, c);
      && (k == NoEffect <==> s.gameOver)
      && (k.SplitChosen? ==>
            && s.quantumMode && s.selected == Some(k.from)
            && |k.targets| == 2 && k.targets[0] != k.targets[1] && Coord(r, c) in k.targets
            && WellFormed(s.(pendingQuantum := Some(k.targets))))
      && (k.TargetAdded? ==>
            && |k.targets| != 2 && Coord(r, c) in k.targets
            && WellFormed(s.(pendingQuantum := Some(k.targets))))
      && (k.SplitChosen? || k.TargetAdded? ==> forall t :: t in k.targets ==> FindMove(s.legalMoves, t.r, t.c).Some?)
      && (k.MoveChosen? ==>
            && !s.quantumMode && s.selected == Some(k.from)
            && k.move in s.legalMoves && k.move.r == r && k.move.c == c && Shaped(k.from, k.move))
      && (k.CollapseChosen? ==>
            k.sq == Coord(r, c) && QuantumAt(s.quantumPieces, k.sq).Some? && QuantumAt(s.quantumPieces, k.sq).value.color == s.turn)
      && (k.PieceSelected? ==> k.sq == Coord(r, c) && s.board[r][c].Some? && s.board[r][c].value.color == s.turn)
  {
    var k := ClassifyClick(s, r, c);
    if k.SplitChosen? || k.TargetAdded? {
      var ts := k.targets;
      assert ts == WithTarget(s.pendingQuantum.value, Coord(r, c));
      if k.SplitChosen? {
        assert ts[0] in ts && ts[1] in ts;
      }
    }
  }

  /** What a click plays is legal for the selected piece: the move played
      is one of its legal moves, and every split target, recorded or
      played, is the destination of one of them. */
  lemma ClickLegal(s: Snapshot, r: int, c: int)
    requires WellFormed(s) && InBounds(r, c)
    ensures var k := ClassifyClick(s, r, c);
      && (k.MoveChosen? ==>
            && s.selected == Some(k.from) && InBounds(k.from.r, k.from.c)
            && k.move in LegalMovesForSquare(s.board, s.quantumPieces, s.enPassantTarget, k.from.r, k.from.c, s.turn))
      && (k.SplitChosen? || k.TargetAdded? ==>
            && s.selected.Some? && InBounds(s.selected.value.r, s.selected.value.c)
            && var f := s.selected.value;
            forall t :: t in k.targets ==>
              FindMove(LegalMovesForSquare(s.board, s.quantumPieces, s.enPassantTarget, f.r, f.c, s.turn), t.r, t.c).Some?)
  {
    ClickSpec(s, r, c);
  }

  /** The state squareClick leaves behind, `survive` standing for the
      collapse's coin. */
  function ClickOutcome(s: Snapshot, r: int, c: int, survive: bool): Snapshot
    requires WellFormed(s) && InBounds(r, c)
  {
    ClickSpec(s, r, c);
    match ClassifyClick(s, r, c)
    case NoEffect => s
    case TargetAdded(ts) => Say(s.(pendingQuantum := Some(ts)), PickSecondDestination)
    case SplitChosen(from, ts) => AfterSplit(s.(pendingQuantum := Some(ts)), from, ts[0], ts[1])
    case MoveChosen(from, m) => AfterMove(s, from, m, survive)
    case CollapseChosen(sq) => AfterMaterialize(s, sq)
    case PieceSelected(sq) => Say(Selected(s, sq), if s.quantumMode then PickTwoDestinations else PickDestination)
    case SelectionCleared => s.(selected := None, legalMoves := [], pendingQuantum := None)
  }

  /** The state squareClick saves for undo, if it saves one: the split is
      saved with its second target already recorded. */
  function ClickSaved(s: Snapshot, r: int, c: int): Option<Snapshot>
    requires ValidBoard(s.board) && InBounds(r, c)
  {
    match ClassifyClick(s, r, c)
    case SplitChosen(_, ts) => Some(s.(pendingQuantum := Some(ts)))
    case MoveChosen(_, _) => Some(s)
    case CollapseChosen(_) => Some(s)
    case _ => None
  }

  /** The state on show and the two stacks after a click: the outcome is
      on show, and the state the click saves, if any, is pushed as
      pushUndoSnapshot does. */
  function AfterClick(t: Timeline<Snapshot>, r: int, c: int, survive: bool): Timeline<Snapshot>
    requires WellFormed(t.present) && InBounds(r, c)
  {
    var s' := ClickOutcome(t.present, r, c, survive);
    match ClickSaved(t.present, r, c)
    case None => t.(present := s')
    case Some(v) => Record(t.(present := v)).(present := s')
  }

  /** AfterClick spelled out click by click. */
  lemma ClickCases(t: Timeline<Snapshot>, r: int, c: int, survive: bool)
    requires WellFormed(t.present) && InBounds(r, c)
    ensures var s := t.present; var k := ClassifyClick(s, r, c); var u := AfterClick(t, r, c, survive);
      && (k.NoEffect? ==> u == t)
      && (k.TargetAdded? ==> u == t.(present := Say(s.(pendingQuantum := Some(k.targets)), PickSecondDestination)))
      && (k.SplitChosen? ==>
            var v := s.(pendingQuantum := Some(k.targets));
            u == Record(t.(present := v)).(present := AfterSplit(v, k.from, k.targets[0], k.targets[1])))
      && (k.MoveChosen? ==> u == Record(t).(present := AfterMove(s, k.from, k.move, survive)))
      && (k.CollapseChosen? ==> u == Record(t).(present := AfterMaterialize(s, k.sq)))
      && (k.PieceSelected? ==>
            u == t.(present := Say(Selected(s, k.sq), if s.quantumMode then PickTwoDestinations else PickDestination)))
      && (k.SelectionCleared? ==> u == t.(present := s.(selected := None, legalMoves := [], pendingQuantum := None)))
  {
    ClickSpec(t.present, r, c);
  }

  /** Every click keeps the session sound: a split is only played in
      quantum mode, which is only on while the mover has a split left, and
      only from the selected piece. */
  lemma ClickSound(t: Timeline<Snapshot>, r: int, c: int, survive: bool)
    requires Sound(t) && InBounds(r, c)
    ensures Sound(AfterClick(t, r, c, survive))
  {
    var k := ClassifyClick(t.present, r, c);
    if k.SplitChosen? {
      SplitClickSound(t, r, c, survive);
    } else if k.MoveChosen? {
      MoveClickSound(t, r, c, survive);
    } else if k.CollapseChosen? {
      CollapseClickSound(t, r, c, survive);
    } else {
      StayClickSound(t, r, c, survive);
    }
  }

  lemma SplitClickSound(t: Timeline<Snapshot>, r: int, c: int, survive: bool)
    requires Sound(t) && InBounds(r, c) && ClassifyClick(t.present, r, c).SplitChosen?
    ensures Sound(AfterClick(t, r, c, survive))
  {
    var s := t.present;
    var k := ClassifyClick(s, r, c);
    ClickSpec(s, r, c);
    var v := s.(pendingQuantum := Some(k.targets));
    SplitSound(t.(present := v), k.from, k.targets[0], k.targets[1]);
    assert AfterClick(t, r, c, survive) == Record(t.(present := v)).(present := AfterSplit(v, k.from, k.targets[0], k.targets[1]));
  }

  lemma MoveClickSound(t: Timeline<Snapshot>, r: int, c: int, survive: bool)
    requires Sound(t) && InBounds(r, c) && ClassifyClick(t.present, r, c).MoveChosen?
    ensures Sound(AfterClick(t, r, c, survive))
  {
    var s := t.present;
    var k := ClassifyClick(s, r, c);
    ClickSpec(s, r, c);
    MoveSound(t, k.from, k.move, survive);
    assert AfterClick(t, r, c, survive) == Record(t).(present := AfterMove(s, k.from, k.move, survive));
  }

  lemma CollapseClickSound(t: Timeline<Snapshot>, r: int, c: int, survive: bool)
    requires Sound(t) && InBounds(r, c) && ClassifyClick(t.present, r, c).CollapseChosen?
    ensures Sound(AfterClick(t, r, c, survive))
  {
    var s := t.present;
    var k := ClassifyClick(s, r, c);
    ClickSpec(s, r, c);
    MaterializeSound(t, k.sq);
    assert AfterClick(t, r, c, survive) == Record(t).(present := AfterMaterialize(s, k.sq));
  }

  /** The clicks that save nothing: the game over, a split target
      recorded, a selection made or cleared. */
  lemma StayClickSound(t: Timeline<Snapshot>, r: int, c: int, survive: bool)
    requires Sound(t) && InBounds(r, c)
    requires !ClassifyClick(t.present, r, c).SplitChosen? && !ClassifyClick(t.present, r, c).MoveChosen?
    requires !ClassifyClick(t.present, r, c).CollapseChosen?
    ensures Sound(AfterClick(t, r, c, survive))
  {
    var s := t.present;
    var k := ClassifyClick(s, r, c);
    ClickSpec(s, r, c);
    if k.PieceSelected? {
      SelectedWellFormed(s, k.sq);
    }
  }

  /** The clicks that end the turn. */
  predicate EndsTurn(k: Click)
  {
    k.SplitChosen? || k.MoveChosen? || k.CollapseChosen?
  }

  /** maybeAIMove's test: AI mode, Black to move, the game on. */
  predicate AiToMove(s: Snapshot)
  {
    s.mode == Ai && s.turn == Black && !s.gameOver
  }

  /** A legal move of a square lands on the board, takes en passant only
      onto a square with a row behind it on the board (the en-passant square
      is never on the edge rows), and a double push spans two rows. */
  lemma LegalMoveShaped(s: Snapshot, r: int, c: int, color: Color, m: Move)
    requires Settled(s) && InBounds(r, c)
    requires m in LegalMovesForSquare(s.board, s.quantumPieces, s.enPassantTarget, r, c, color)
    ensures Shaped(Coord(r, c), m)
  {
    LegalMovesForSquareSpec(s.board, s.quantumPieces, s.enPassantTarget, r, c, color, m);
  }

  /** squareClick selecting a square: its legal moves are listed and the
      split targets start empty. */
  function Selected(s: Snapshot, sq: Coord): Snapshot
    requires ValidBoard(s.board) && InBounds(sq.r, sq.c)
  {
    s.(selected := Some(sq),
       legalMoves := LegalMovesForSquare(s.board, s.quantumPieces, s.enPassantTarget, sq.r, sq.c, s.turn),
       pendingQuantum := Some([]))
  }

  /** Selecting one of the mover's pieces keeps the state well formed. */
  lemma SelectedWellFormed(s: Snapshot, sq: Coord)
    requires WellFormed(s) && InBounds(sq.r, sq.c)
    requires s.board[sq.r][sq.c].Some? && s.board[sq.r][sq.c].value.color == s.turn
    ensures WellFormed(Selected(s, sq))
  {
    forall m | m in Selected(s, sq).legalMoves ensures Shaped(sq, m) {
      LegalMoveShaped(s, sq.r, sq.c, s.turn, m);
    }
  }

  /** Selecting one of the mover's pieces and announcing it keeps the
      session sound. */
  lemma SelectSound(t: Timeline<Snapshot>, sq: Coord, m: Message)
    requires Sound(t) && InBounds(sq.r, sq.c)
    requires t.present.board[sq.r][sq.c].Some? && t.present.board[sq.r][sq.c].value.color == t.present.turn
    ensures Sound(t.(present := Say(Selected(t.present, sq), m)))
  {
    SelectedWellFormed(t.present, sq);
  }

  /** Recording a listed destination as a split target keeps the session
      sound. */
  lemma TargetSound(t: Timeline<Snapshot>, r: int, c: int)
    requires Sound(t) && InBounds(r, c) && !t.present.gameOver
    requires t.present.selected.Some? && t.present.quantumMode && t.present.pendingQuantum.Some?
    requires FindMove(t.present.legalMoves, r, c).Some?
    ensures Sound(t.(present := t.present.(pendingQuantum := Some(WithTarget(t.present.pendingQuantum.value, Coord(r, c))))))
    ensures var f := t.present.selected.value;
      InBounds(f.r, f.c) && t.present.board[f.r][f.c].Some? && t.present.quantumUses.Of(t.present.turn) > 0
    ensures forall x :: x in WithTarget(t.present.pendingQuantum.value, Coord(r, c)) ==> InBounds(x.r, x.c)
  {
    ClickSpec(t.present, r, c);
  }

  // ---------------------------------------------------------------------
  // The quantum toggle

  /** A message keeps the session sound. */
  lemma SaySound(t: Timeline<Snapshot>, m: Message)
    requires Sound(t)
    ensures Sound(t.(present := Say(t.present, m)))
    ensures Say(t.present, m).currentMessage == m
  {
  }

  /** The quantum toggle once the mover has a split left: quantum mode
      flips, the split targets start empty when it comes on and are dropped
      when it goes off, and the new mode is announced; nothing else changes. */
  function Toggled(s: Snapshot): (s': Snapshot)
    ensures s'.quantumMode == !s.quantumMode
    ensures s'.pendingQuantum == (if s'.quantumMode then Some([]) else None)
    ensures s'.currentMessage == (if s'.quantumMode then QuantumModeOn else QuantumModeOff)
    ensures s' == s.(quantumMode := s'.quantumMode, pendingQuantum := s'.pendingQuantum,
                     currentMessage := s'.currentMessage, messageHistory := s.messageHistory + [s'.currentMessage])
  {
    var on := !s.quantumMode;
    Say(s.(quantumMode := on, pendingQuantum := if on then Some([]) else None),
        if on then QuantumModeOn else QuantumModeOff)
  }

  /** The toggle keeps the session sound when the mover has a split left:
      quantum mode only comes on while a split can be made. */
  lemma ToggleSound(t: Timeline<Snapshot>)
    requires Sound(t) && t.present.quantumUses.Of(t.present.turn) > 0
    ensures Sound(Record(t).(present := Toggled(t.present)))
  {
    RecordSound(t);
  }

  // ---------------------------------------------------------------------
  // maybeAIMove

  /** Every play allLegalMoves lists starts on a piece and is well shaped. */
  lemma PlaysShaped(s: Snapshot, color: Color)
    requires Settled(s)
    ensures forall p :: p in AllLegalMoves(s.board, s.quantumPieces, s.enPassantTarget, color) ==>
      InBounds(p.from.r, p.from.c) && Shaped(p.from, p.move) && s.board[p.from.r][p.from.c].Some?
  {
    forall p | p in AllLegalMoves(s.board, s.quantumPieces, s.enPassantTarget, color)
      ensures InBounds(p.from.r, p.from.c) && Shaped(p.from, p.move) && s.board[p.from.r][p.from.c].Some?
    {
      AllLegalMovesAreSafe(s.board, s.quantumPieces, s.enPassantTarget, color, p);
      LegalMoveShaped(s, p.from.r, p.from.c, color, p.move);
    }
  }

  /** The plays whose destination pieceAt sees as occupied, in order. */
  function Captures(b: Board, qs: seq<QuantumPiece>, ps: seq<Play>): (cs: seq<Play>)
    requires ValidBoard(b) && forall p :: p in ps ==> InBounds(p.move.r, p.move.c)
    ensures forall p :: p in cs <==> p in ps && PieceAt(b, qs, p.move.r, p.move.c).Some?
  {
    if ps == [] then []
    else
      (if PieceAt(b, qs, ps[0].move.r, ps[0].move.c).Some? then [ps[0]] else [])
      + Captures(b, qs, ps[1..])
  }

  /** The play the AI's timer makes for Black, `pick` standing for the
      random draw: a capture if there is one, else any legal play; none
      when Black has no legal play. */
  function AiChoice(s: Snapshot, pick: nat): (o: Option<Play>)
    requires Settled(s)
    ensures o.Some? ==> o.value in AllLegalMoves(s.board, s.quantumPieces, s.enPassantTarget, Black)
    ensures o.Some? ==> InBounds(o.value.from.r, o.value.from.c) && Shaped(o.value.from, o.value.move)
                        && s.board[o.value.from.r][o.value.from.c].Some?
  {
    var moves := AllLegalMoves(s.board, s.quantumPieces, s.enPassantTarget, Black);
    PlaysShaped(s, Black);
    if moves == [] then None
    else
      var captures := Captures(s.board, s.quantumPieces, moves);
      var pool := if captures != [] then captures else moves;
      Some(pool[pick % |pool|])
  }

  /** The AI plays exactly when Black has a legal move, and plays a capture
      whenever one is available. */
  lemma AiChoiceSpec(s: Snapshot, pick: nat)
    requires Settled(s)
    ensures var moves := AllLegalMoves(s.board, s.quantumPieces, s.enPassantTarget, Black);
      && (AiChoice(s, pick).None? <==> NoLegalMove(s.board, s.quantumPieces, s.enPassantTarget, Black))
      && ((exists p :: p in moves && PieceAt(s.board, s.quantumPieces, p.move.r, p.move.c).Some?) ==>
            AiChoice(s, pick).Some? && PieceAt(s.board, s.quantumPieces, AiChoice(s, pick).value.move.r, AiChoice(s, pick).value.move.c).Some?)
  {
    NoPlaysNoMoves(s.board, s.quantumPieces, s.enPassantTarget, Black);
    PlaysShaped(s, Black);
  }
}
