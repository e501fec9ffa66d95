/** The live game object and the routines that change it in place: saving,
    undoing and redoing snapshots, completing a turn, the collapses, playing
    a move or a split, the board click, the quantum toggle, the mode menu, a
    new game and the AI's timer. Each routine is specified by the function
    on snapshots in module State that it carries out, and keeps the
    session invariant through the lemma about that function. */
module Session {
  import opened Board
  import opened Quantum
  import opened MoveGen
  import opened Legality
  import opened History
  import opened State

  /** `game`. The fourteen fields snapshotState copies are kept together
      as one value, `present`, that the methods update field by field; next
      to it are the undo and redo stacks and the number of AI timer
      callbacks set and not yet run. */
  class Game {
    var present: Snapshot
    var undoStack: seq<Snapshot>
    var redoStack: seq<Snapshot>
    var aiTimers: nat

    /** The state on show with the two stacks. */
    function Line(): Timeline<Snapshot>
      reads this
    {
      Timeline(present, undoStack, redoStack)
    }

    /** What holds between any two steps, even inside a turn. */
    ghost predicate Stable()
      reads this
    {
      Steady(Line())
    }

    /** What holds whenever the game waits for input. */
    ghost predicate Valid()
      reads this
    {
      Sound(Line())
    }

    /** initialGameState. */
    constructor ()
      ensures Valid()
      ensures present == InitialSnapshot() && undoStack == [] && redoStack == [] && aiTimers == 0
    {
      present := InitialSnapshot();
      undoStack := [];
      redoStack := [];
      aiTimers := 0;
    }

    /** restoreSnapshot: every snapshot field is overwritten; the stacks are not. */
    method Restore(s: Snapshot)
      modifies this
      ensures present == s
      ensures undoStack == old(undoStack) && redoStack == old(redoStack)
      ensures aiTimers == old(aiTimers)
    {
      present := s;
    }

    /** setMessage. */
    method SetMessage(m: Message)
      modifies this
      ensures present == Say(old(present), m)
      ensures undoStack == old(undoStack) && redoStack == old(redoStack)
      ensures aiTimers == old(aiTimers)
    {
      present := present.(currentMessage := m, messageHistory := present.messageHistory + [m]);
    }

    /** pushUndoSnapshot: the present is saved (dropping the oldest snapshot
        past UndoLimit) and the redo stack is emptied. */
    method PushUndoSnapshot()
      modifies this
      ensures Line() == Record(old(Line()))
      ensures aiTimers == old(aiTimers)
    {
      undoStack := undoStack + [present];
      if |undoStack| > UndoLimit {
        undoStack := undoStack[1..];
      }
      redoStack := [];
    }

    /** undoMove. */
    method Undo()
      requires Valid()
      modifies this
      ensures Valid()
      ensures Line() == StepBack(old(Line()))
      ensures aiTimers == old(aiTimers)
    {
      if undoStack == [] {
        return;
      }
      StepBackSound(Line());
      var current := present;
      var prev := undoStack[|undoStack| - 1];
      undoStack := undoStack[..|undoStack| - 1];
      redoStack := redoStack + [current];
      Restore(prev);
    }

    /** redoMove. */
    method Redo()
      requires Valid()
      modifies this
      ensures Valid()
      ensures Line() == StepForward(old(Line()))
      ensures aiTimers == old(aiTimers)
    {
      if redoStack == [] {
        return;
      }
      StepForwardSound(Line());
      var current := present;
      var next := redoStack[|redoStack| - 1];
      redoStack := redoStack[..|redoStack| - 1];
      undoStack := undoStack + [current];
      Restore(next);
    }

    /** maybeAIMove: sets the AI's timer in AI mode with Black to move and
        the game on; the callback is AiTimerFires. */
    method MaybeAiMove()
      modifies this
      ensures present == old(present)
      ensures undoStack == old(undoStack) && redoStack == old(redoStack)
      ensures aiTimers == old(aiTimers) + (if AiToMove(present) then 1 else 0)
    {
      if present.mode == Ai && present.turn == Black && !present.gameOver {
        aiTimers := aiTimers + 1;
      }
    }

    /** completeTurn. */
    method CompleteTurn(note: Note)
      requires ValidBoard(present.board)
      modifies this
      ensures present == Finish(old(present), note)
      ensures undoStack == old(undoStack) && redoStack == old(redoStack)
      ensures aiTimers == old(aiTimers) + (if AiToMove(present) then 1 else 0)
    {
      ghost var s := present;
      present := present.(turn := Opponent(present.turn), selected := None, legalMoves := [],
                          pendingQuantum := None, quantumMode := false);
      var side := present.turn;
      var opponentMoves := CollectLegalMoves(present.board, present.quantumPieces, present.enPassantTarget, side);
      var king := FindKing(present.board, side);
      var inCheck := king.Some? && IsSquareAttacked(present.board, present.quantumPieces, king.value.r, king.value.c, side);
      if opponentMoves == [] {
        present := present.(gameOver := true);
        if inCheck {
          SetMessage(CheckmateWin(Opponent(side)));
        } else {
          SetMessage(StalemateDraw);
        }
      } else if inCheck {
        SetMessage(Checked(note));
      } else if note != Silent {
        SetMessage(Noted(note));
      }
      MaybeAiMove();
    }

    /** collapseForOwnerMovement. */
    method CollapseForOwnerMovement(sq: Coord) returns (found: bool)
      requires Settled(present) && InBounds(sq.r, sq.c)
      modifies this
      ensures found <==> QuantumAt(old(present).quantumPieces, sq).Some?
      ensures found ==> present == Materialized(old(present), sq)
      ensures !found ==> present == old(present)
      ensures undoStack == old(undoStack) && redoStack == old(redoStack)
      ensures aiTimers == old(aiTimers)
    {
      var q := QuantumAt(present.quantumPieces, sq);
      if q.None? {
        return false;
      }
      present := present.(board := Put(present.board, sq.r, sq.c, Some(Piece(q.value.kind, q.value.color, true))),
                          quantumPieces := RemoveId(present.quantumPieces, q.value.id));
      return true;
    }

    /** materializeBySelection. */
    method MaterializeBySelection(sq: Coord) returns (done: bool)
      requires Valid() && InBounds(sq.r, sq.c)
      modifies this
      ensures Valid()
      ensures Line() == Record(old(Line())).(present := AfterMaterialize(old(present), sq))
      ensures done <==> QuantumAt(old(present).quantumPieces, sq).Some?
      ensures aiTimers == old(aiTimers) + (if done && AiToMove(present) then 1 else 0)
    {
      MaterializeSound(Line(), sq);
      PushUndoSnapshot();
      var found := CollapseForOwnerMovement(sq);
      if !found {
        return false;
      }
      CompleteTurn(CollapsedAt(sq));
      return true;
    }

    /** tryCollapseOnCapture, `survive` standing for the coin it tosses. */
    method TryCollapseOnCapture(target: Coord, survive: bool) returns (note: Note)
      requires Settled(present) && InBounds(target.r, target.c)
      modifies this
      ensures (present, note) == CaptureCollapse(old(present), target, survive)
      ensures undoStack == old(undoStack) && redoStack == old(redoStack)
      ensures aiTimers == old(aiTimers)
    {
      var q := QuantumAt(present.quantumPieces, target);
      if q.None? {
        return Silent;
      }
      var other := Other(q.value, target);
      present := present.(quantumPieces := RemoveId(present.quantumPieces, q.value.id));
      if survive && other.Some? {
        var o := other.value;
        present := present.(board := Put(present.board, o.r, o.c, Some(Piece(q.value.kind, q.value.color, true))));
        return SurvivedAt(o);
      }
      return CapturedAt(target);
    }

    /** The body of executeMove once the mover is known to stand on `from`:
        the capture collapse when pieceAt sees a superposed piece on the
        destination, then applyMove, the en-passant square and the move
        list; the note is the collapse message. */
    method MovePiece(from: Coord, move: Move, survive: bool) returns (note: Note)
      requires Settled(present) && InBounds(from.r, from.c) && Shaped(from, move)
      requires present.board[from.r][from.c].Some?
      modifies this
      ensures (present, note) == Played(old(present), from, move, survive)
      ensures undoStack == old(undoStack) && redoStack == old(redoStack)
      ensures aiTimers == old(aiTimers)
    {
      ghost var s := present;
      var piece := present.board[from.r][from.c].value;
      note := Silent;
      var targetPiece := PieceAt(present.board, present.quantumPieces, move.r, move.c);
      if targetPiece.Some? && targetPiece.value.Superposed? {
        note := TryCollapseOnCapture(Coord(move.r, move.c), survive);
      }
      assert (present, note) == Collapsed(s, Coord(move.r, move.c), survive);
      AdvancePiece(from, move, piece.kind == Pawn);
    }

    /** The end of executeMove: applyMove, the en-passant square and the
        move list. */
    method AdvancePiece(from: Coord, move: Move, pawn: bool)
      requires Settled(present) && InBounds(from.r, from.c) && Shaped(from, move)
      modifies this
      ensures present == Advance(old(present), from, move, pawn)
      ensures undoStack == old(undoStack) && redoStack == old(redoStack) && aiTimers == old(aiTimers)
    {
      present := present.(board := ApplyMove(present.board, from, move, present.turn),
                          enPassantTarget := PassedOver(from, move, pawn),
                          moveHistory := present.moveHistory + [ToSquare(from.r, from.c) + "-" + ToSquare(move.r, move.c)]);
    }

    /** executeMove; `survive` is the coin of a capture collapse. */
    method ExecuteMove(from: Coord, move: Move, survive: bool) returns (done: bool)
      requires Valid() && InBounds(from.r, from.c) && Shaped(from, move)
      modifies this
      ensures Valid()
      ensures old(present).gameOver ==> !done && Line() == old(Line()) && aiTimers == old(aiTimers)
      ensures !old(present).gameOver ==>
                && Line() == Record(old(Line())).(present := AfterMove(old(present), from, move, survive))
                && (done <==> old(present).board[from.r][from.c].Some?)
                && aiTimers == old(aiTimers) + (if done && AiToMove(present) then 1 else 0)
    {
      if present.gameOver {
        return false;
      }
      ghost var line := Line();
      PushUndoSnapshot();
      if present.board[from.r][from.c].None? {
        MoveSound(line, from, move, survive);
        return false;
      }
      var note := MovePiece(from, move, survive);
      CompleteTurn(note);
      MoveSound(line, from, move, survive);
      return true;
    }

    /** The body of createQuantumMove once the piece is known to stand on
        `from`: it leaves the board and a new entry with a fresh id holds it
        on the two targets; the side to move spends a split. */
    method SplitPiece(from: Coord, a: Coord, b: Coord)
      requires ValidBoard(present.board) && InBounds(from.r, from.c) && present.board[from.r][from.c].Some?
      modifies this
      ensures present == Split(old(present), from, a, b)
      ensures undoStack == old(undoStack) && redoStack == old(redoStack) && aiTimers == old(aiTimers)
    {
      var piece := present.board[from.r][from.c].value;
      var id := FreshId(present.quantumPieces);
      present := present.(board := Put(present.board, from.r, from.c, None),
                          quantumPieces := present.quantumPieces + [QuantumPiece(id, piece.color, piece.kind, a, b)],
                          quantumUses := present.quantumUses.Spend(present.turn));
    }

    /** createQuantumMove. The mover must have a split left for the state to
        stay well formed; squareClick only calls it in quantum mode, which
        is only on while the mover has one. */
    method CreateQuantumMove(from: Coord, a: Coord, b: Coord)
      requires Valid() && InBounds(from.r, from.c) && InBounds(a.r, a.c) && InBounds(b.r, b.c)
      modifies this
      ensures Stable() && (old(present).quantumUses.Of(old(present).turn) > 0 ==> Valid())
      ensures old(present).gameOver ==> Line() == old(Line()) && aiTimers == old(aiTimers)
      ensures !old(present).gameOver ==> Line() == Record(old(Line())).(present := AfterSplit(old(present), from, a, b))
      ensures !old(present).gameOver && old(present).board[from.r][from.c].Some? ==>
                aiTimers == old(aiTimers) + (if AiToMove(present) then 1 else 0)
      ensures old(present).board[from.r][from.c].None? ==> aiTimers == old(aiTimers)
    {
      if present.gameOver {
        return;
      }
      ghost var line := Line();
      PushUndoSnapshot();
      if present.board[from.r][from.c].None? {
        SplitSound(line, from, a, b);
        return;
      }
      SplitPiece(from, a, b);
      CompleteTurn(SplitCreated(a, b));
      SplitSound(line, from, a, b);
    }

    /** squareClick in quantum mode on a listed destination of the selected
        piece: the square joins the split targets unless it is already one,
        and the second target plays the split. */
    method ChooseTarget(r: int, c: int)
      requires Valid() && InBounds(r, c) && !present.gameOver
      requires present.selected.Some? && present.quantumMode && present.pendingQuantum.Some?
      requires FindMove(present.legalMoves, r, c).Some?
      modifies this
      ensures Valid()
      ensures var ts := WithTarget(old(present).pendingQuantum.value, Coord(r, c));
        var v := old(present).(pendingQuantum := Some(ts));
        && (|ts| == 2 ==>
              && Line() == Record(old(Line()).(present := v)).(present := AfterSplit(v, v.selected.value, ts[0], ts[1]))
              && aiTimers == old(aiTimers) + (if AiToMove(present) then 1 else 0))
        && (|ts| != 2 ==> Line() == old(Line()).(present := Say(v, PickSecondDestination)) && aiTimers == old(aiTimers))
    {
      TargetSound(Line(), r, c);
      var targets := WithTarget(present.pendingQuantum.value, Coord(r, c));
      present := present.(pendingQuantum := Some(targets));
      if |targets| == 2 {
        CreateQuantumMove(present.selected.value, targets[0], targets[1]);
      } else {
        SaySound(Line(), PickSecondDestination);
        SetMessage(PickSecondDestination);
      }
    }

    /** squareClick on one of the mover's pieces: it is selected with its
        legal moves, and the split targets start empty. */
    method SelectSquare(r: int, c: int)
      requires Valid() && InBounds(r, c)
      requires present.board[r][c].Some? && present.board[r][c].value.color == present.turn
      modifies this
      ensures Valid()
      ensures Line() == old(Line()).(present := Say(Selected(old(present), Coord(r, c)),
                                                    if old(present).quantumMode then PickTwoDestinations else PickDestination))
      ensures aiTimers == old(aiTimers)
    {
      var m := if present.quantumMode then PickTwoDestinations else PickDestination;
      SelectSound(Line(), Coord(r, c), m);
      present := present.(selected := Some(Coord(r, c)),
                          legalMoves := LegalMovesForSquare(present.board, present.quantumPieces, present.enPassantTarget, r, c, present.turn),
                          pendingQuantum := Some([]));
      SetMessage(m);
    }

    /** squareClick once the click is not on a listed destination of the
        selected piece: the mover's superposed piece on the square is
        collapsed, else the mover's piece on it is selected, else the
        selection is cleared. */
    method ClickSquare(r: int, c: int)
      requires Valid() && InBounds(r, c)
      modifies this
      ensures Valid()
      ensures var s := old(present); var sq := Coord(r, c); var q := QuantumAt(s.quantumPieces, sq);
        && (q.Some? && q.value.color == s.turn ==>
              && Line() == Record(old(Line())).(present := AfterMaterialize(s, sq))
              && aiTimers == old(aiTimers) + (if AiToMove(present) then 1 else 0))
        && (!(q.Some? && q.value.color == s.turn) && s.board[r][c].Some? && s.board[r][c].value.color == s.turn ==>
              Line() == old(Line()).(present := Say(Selected(s, sq), if s.quantumMode then PickTwoDestinations else PickDestination))
              && aiTimers == old(aiTimers))
        && (!(q.Some? && q.value.color == s.turn) && !(s.board[r][c].Some? && s.board[r][c].value.color == s.turn) ==>
              Line() == old(Line()).(present := s.(selected := None, legalMoves := [], pendingQuantum := None))
              && aiTimers == old(aiTimers))
    {
      var sq := Coord(r, c);
      var q := QuantumAt(present.quantumPieces, sq);
      if q.Some? && q.value.color == present.turn {
        var _ := MaterializeBySelection(sq);
        return;
      }
      if present.board[r][c].Some? && present.board[r][c].value.color == present.turn {
        SelectSquare(r, c);
      } else {
        present := present.(selected := None, legalMoves := [], pendingQuantum := None);
      }
    }

    /** squareClick, `survive` standing for the coin of a capture collapse
        should the click play a move. */
    method SquareClick(r: int, c: int, survive: bool)
      requires Valid() && InBounds(r, c)
      modifies this
      ensures Valid()
      ensures Line() == AfterClick(old(Line()), r, c, survive)
      ensures aiTimers == old(aiTimers) + (if EndsTurn(ClassifyClick(old(present), r, c)) && AiToMove(present) then 1 else 0)
    {
      ghost var line := Line();
      ClickCases(line, r, c, survive);
      if present.gameOver {
        return;
      }
      var chosen := FindMove(present.legalMoves, r, c);
      if present.selected.Some? && present.quantumMode && present.pendingQuantum.Some? && chosen.Some? {
        ChooseTarget(r, c);
        return;
      }
      if present.selected.Some? && chosen.Some? && !present.quantumMode {
        var _ := ExecuteMove(present.selected.value, chosen.value, survive);
        return;
      }
      ClickSquare(r, c);
    }

    /** The quantum toggle button: nothing once the game is over; a message
        when the mover has no split left; otherwise the state is saved and
        quantum mode flips. */
    method ToggleQuantumMode()
      requires Valid()
      modifies this
      ensures Valid()
      ensures old(present).gameOver ==> Line() == old(Line())
      ensures !old(present).gameOver && old(present).quantumUses.Of(old(present).turn) <= 0 ==>
                Line() == old(Line()).(present := Say(old(present), NoQuantumLeft))
      ensures !old(present).gameOver && old(present).quantumUses.Of(old(present).turn) > 0 ==>
                Line() == Record(old(Line())).(present := Toggled(old(present)))
      ensures aiTimers == old(aiTimers)
    {
      if present.gameOver {
        return;
      }
      if present.quantumUses.Of(present.turn) <= 0 {
        SaySound(Line(), NoQuantumLeft);
        SetMessage(NoQuantumLeft);
        return;
      }
      ghost var line := Line();
      ToggleSound(line);
      PushUndoSnapshot();
      var on := !present.quantumMode;
      present := present.(quantumMode := on, pendingQuantum := if on then Some([]) else None);
      SetMessage(if on then QuantumModeOn else QuantumModeOff);
    }

    /** The mode menu: only the mode changes; no AI timer is set. */
    method SetMode(m: Mode)
      requires Valid()
      modifies this
      ensures Valid()
      ensures Line() == old(Line()).(present := old(present).(mode := m))
      ensures aiTimers == old(aiTimers)
    {
      present := present.(mode := m);
    }

    /** The new-game button: the starting state in the chosen mode with the
        stacks emptied, and its message. Timers already set are not
        cancelled. */
    method NewGame(m: Mode)
      modifies this
      ensures Valid()
      ensures present == Say(InitialSnapshot().(mode := m), NewGameStarted)
      ensures undoStack == [] && redoStack == []
      ensures aiTimers == old(aiTimers)
    {
      Restore(InitialSnapshot());
      undoStack := [];
      redoStack := [];
      present := present.(mode := m);
      SetMessage(NewGameStarted);
    }

    /** The draw of one AI timer's callback, `pick` standing for its random
        number: Black's legal plays are listed whoever is to move, and one is
        drawn from the captures if there are any, else from all of them. */
    method ChooseAiPlay(pick: nat) returns (choice: Option<Play>)
      requires Settled(present)
      ensures choice == AiChoice(present, pick)
    {
      var moves := CollectLegalMoves(present.board, present.quantumPieces, present.enPassantTarget, Black);
      if moves == [] {
        return None;
      }
      PlaysShaped(present, Black);
      var captures := Captures(present.board, present.quantumPieces, moves);
      var pool := if captures != [] then captures else moves;
      return Some(pool[pick % |pool|]);
    }

    /** The callback of one AI timer, `pick` standing for its random draw
        and `survive` for the coin of a capture collapse: the drawn play is
        handed to executeMove. */
    method AiTimerFires(pick: nat, survive: bool)
      requires Valid() && aiTimers > 0
      modifies this
      ensures Valid()
      ensures var choice := AiChoice(old(present), pick);
        && (choice.None? || old(present).gameOver ==> Line() == old(Line()) && aiTimers == old(aiTimers) - 1)
        && (choice.Some? && !old(present).gameOver ==>
              && Line() == Record(old(Line())).(present := AfterMove(old(present), choice.value.from, choice.value.move, survive))
              && aiTimers == old(aiTimers) - 1 + (if AiToMove(present) then 1 else 0))
    {
      ghost var line := Line();
      aiTimers := aiTimers - 1;
      assert Line() == line;
      var choice := ChooseAiPlay(pick);
      if choice.None? {
        return;
      }
      var _ := ExecuteMove(choice.value.from, choice.value.move, survive);
    }
  }
}
