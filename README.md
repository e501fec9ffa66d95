# Quantum chess engine — a Dafny model

This project models the rules engine of a browser chess variant, contained in `app.js`. In the variant, a piece may be *split*: it leaves its square and stands on two squares at once. It stays there until it is observed, and observing it *collapses* it onto one square. The model covers:

- the board and its square names (`Board`);
- superposition entries and each side's split credits (`Quantum`);
- pseudo-legal move generation, attack detection and castling (`MoveGen`);
- applying a move, finding kings, the self-check filter, the full legal-move list and the checkmate/stalemate verdict (`Legality`);
- the undo/redo stacks with their bound of 200 snapshots (`History`);
- the game state as a value, with the effect of every turn and click stated as functions on it (`State`);
- the live game object whose methods change that state in place (`Session.Game`).

Each operation of the game object is proved against a function on snapshots:

- `present == Finish(old(present), note)`;
- `Line() == Record(old(Line())).(present := AfterMove(...))`.

Separately proved lemmas say what those functions promise:

- undo then redo is the identity;
- a split spends exactly one credit and appends exactly one entry;
- a capture collapse removes exactly the observed entry;
- the verdict is checkmate, won by the side that just moved, exactly when the side to move has no legal move and its king is attacked;
- the AI plays exactly when Black has a move and prefers captures.

Every method that acts on user input keeps one session invariant, `Valid()` (`State.Sound` on the state and both stacks):

- the board is 8×8;
- entries lie on the board and have distinct ids;
- the en-passant square is never on an edge row;
- the selection belongs to the side to move;
- the listed moves are exactly the selected piece's legal moves;
- split targets are distinct listed destinations;
- quantum mode is only on while the mover has a split left;
- credits are never negative;
- every saved snapshot satisfies all of the above;
- the two stacks hold at most 200 snapshots together.

Randomness and time are parameters:

- `survive: bool` is the coin of a capture collapse (`Math.random() < 0.5`).
- `pick: nat` is the AI's random draw.
- The AI's `setTimeout` callback is a counter of pending timers (`aiTimers`). The environment runs one with `AiTimerFires`.
- Split ids come from `FreshId`, one more than the largest live id, instead of the clock string.

Square names inside the state are coordinates. `ToSquare`/`ToCoord` are proved to be inverse bijections, so comparing names is comparing coordinates. Only the move list keeps the names themselves. Message texts are constructors of `Message` and `Note`.

The model keeps these behaviours of the code:

- A surviving superposed piece is written onto its other square even if that square is occupied by then.
- A split target may be a capture destination.
- Pending AI timers are not cancelled by a new game, an undo or a redo.
- createQuantumMove does not check credits; only the quantum toggle does.
- Moving from an empty square is a silent no-op after the snapshot is pushed, not a failure.

## Model

| member | source | states |
|---|---|---|
| Board.Opponent | app.js:349 | the side to move after a turn is never the side that moved |
| Board.IndexOf | app.js:96 | `FILES.indexOf`: -1 exactly when the letter is absent, otherwise its first position |
| Board.ToSquare | app.js:98-100 | every square on the board has a name of a file letter a–h and a rank digit 1–8 |
| Board.ToCoord | app.js:95-97 | a well-formed square name denotes a square on the board |
| Board.CoordOfSquare | app.js:95-100 | reading back the name of a square gives the same square |
| Board.SquareOfCoord | app.js:95-100 | naming the square a well-formed name denotes gives the same name |
| Board.SquareNamesInjective | app.js:98-100 | two squares have the same name exactly when they are the same square, so the source's name comparisons are square comparisons |
| Board.InitialBoard | app.js:26-33 | the starting board is 8×8 with back ranks on rows 0 and 7, pawns on rows 1 and 6, unmoved, kings on column 4 |
| Quantum.QuantumIndex | app.js:107-109 | the position of the first entry holding the square, -1 exactly when none does |
| Quantum.QuantumAt | app.js:107-109 | `getQuantumAtSquare`: none exactly when no live entry holds the square, otherwise the first live entry that does |
| Quantum.RemoveId | app.js:378 | the filter keeps exactly the entries with another id and never grows the list |
| Quantum.RemoveIdExactlyOne | app.js:378 | when only entry i carries its id, filtering that id removes entry i alone and keeps the order of the rest |
| Quantum.RemoveEntry | app.js:396 | with distinct ids, filtering an entry's id removes exactly that entry |
| Quantum.RemoveIdAbsent | app.js:378 | filtering an id nobody carries changes nothing |
| Quantum.RemoveIdKeepsDistinct | app.js:396 | filtering keeps live ids distinct |
| Quantum.Other | app.js:395 | the other position is a held square different from the observed one; there is none exactly when both positions are the observed square |
| Quantum.Credits.Spend | app.js:441 | a split takes exactly one credit from the mover and none from the opponent |
| MoveGen.PieceAt | app.js:107-117 | a materialized piece is seen first; on an empty square nothing is seen exactly when no entry holds it, and otherwise the first entry in the list that holds it, as `getQuantumAtSquare`'s `find` returns |
| MoveGen.JumpMoves | app.js:152-161 | knight and king jumps land on the board on an empty square (quiet) or an enemy (capture), at one of the given offsets; every offset landing on the board on an empty square or an enemy is listed |
| MoveGen.SlideRay | app.js:169-182 | every move of a ray lands on the board, quiet on empty squares and capturing only enemies |
| MoveGen.CastRay | app.js:172-181 | the while loop pushes exactly the moves of the ray |
| MoveGen.SliderDirs | app.js:166-168 | a rook gets exactly the four orthogonal unit steps, a bishop exactly the four diagonal ones, a queen all eight |
| MoveGen.SliderMoves | app.js:163-184 | every slider move is well placed and quiet or a capture, and a move is listed if and only if it lies on the ray of one of the directions |
| MoveGen.PawnDiagonal | app.js:136-145 | a pawn diagonal lands one row forward, one column aside, reported as an attack in attack mode and as a capture otherwise; every such diagonal on the board is listed in attack mode, and outside it exactly when pieceAt sees an enemy there |
| MoveGen.PawnPushes | app.js:130-135 | pushes go straight ahead onto empty squares, the double push only from an unmoved pawn, none in attack mode; the single push is listed whenever the square ahead is empty, the double push whenever both squares are empty and the pawn is unmoved |
| MoveGen.PawnPassant | app.js:146-149 | en passant lands on the current en-passant square, one row forward and one column aside, never in attack mode; it is listed whenever that square is so placed |
| MoveGen.PawnMoves | app.js:129-151 | pawn moves are well placed; double pushes come only from unmoved pawns two rows ahead; attack mode yields only attacks; a pawn never castles; every push, diagonal and en-passant move the rules allow is listed |
| MoveGen.PawnMovesReach | app.js:129-151 | the pawn case lists nothing else: a quiet move only onto the square ahead, a double push only from an unmoved pawn two squares ahead, a capture, attack or en passant only onto a diagonal one row ahead |
| MoveGen.PseudoMoves | app.js:122-209 | nothing for an empty square or an enemy piece; every move is well placed; attack mode yields only quiet moves, captures and attacks; castling only by the unmoved king outside attack mode |
| MoveGen.KingMoves | app.js:185-206 | king moves are one-step quiet moves or captures onto a neighbour, or castling onto column 6 or 2 of the home row for an unmoved king outside attack mode; every neighbour on the board that is empty or holds an enemy is listed |
| MoveGen.CastleMoves | app.js:196-204 | castling only ever lands on column 6 (kingside) or column 2 (queenside) of the home row |
| MoveGen.RayIsContiguous | app.js:169-182 | a ray walks square by square from its first square, and every move but the last is quiet |
| MoveGen.RayStopsAtFirstOccupied | app.js:172-181 | a ray not ending in a capture ends at the board's edge or at a friendly piece, materialized or superposed |
| MoveGen.KnightRule | app.js:152-161 | pseudoMoves of a knight lists every jump landing on the board on an empty square or an enemy, and nothing but quiet moves and captures at a knight's jump |
| MoveGen.KingRule | app.js:185-195 | pseudoMoves of a king lists every neighbour on the board that is empty or holds an enemy; everything else it lists is castling |
| MoveGen.SliderRule | app.js:163-184 | pseudoMoves of a bishop, rook or queen lists a move if and only if it lies on the ray of one of the piece's directions |
| MoveGen.PawnRule | app.js:129-151 | pseudoMoves of a pawn lists every push, diagonal and en-passant move the pawn rules allow, and nothing but quiet moves and double pushes straight ahead and captures, attacks and en passant onto the two diagonals one row ahead |
| MoveGen.KnightAttacks | app.js:211-221 | an enemy knight a jump away from one of the side's pieces makes that square attacked |
| MoveGen.PawnAttacks | app.js:211-221 | an enemy pawn attacks both squares diagonally ahead of it whether or not anything stands there (attack mode reports both diagonals, line 140), so each counts as attacked |
| MoveGen.CastlingRule | app.js:196-204 | castling on each side is generated if and only if the king is unmoved on its home square and not attacked, the unmoved rook is in place, the squares between are empty and the squares crossed are not attacked |
| MoveGen.KingCastling | app.js:185-206 | the same rule for the king's own move list: the castling moves are exactly the open ones |
| Legality.FindKingFrom | app.js:223-227 | the scan from a square index returns the first king of the colour at or after it, and none exactly when there is none |
| Legality.FindKing | app.js:222-228 | `findKing`: a materialized king of the colour, the first in row-major order, and none exactly when the board has none |
| Legality.Landed | app.js:244-248 | the moving piece lands marked moved, keeping its colour, promoted to a queen when a pawn reaches row 0 or 7 |
| Legality.Vacate | app.js:229-243 | the origin is emptied, the pawn taken en passant is removed, the castling rook is moved and marked moved, and no other square changes |
| Legality.ApplyMove | app.js:229-250 | after the move the landed piece is on the destination, the origin and the squares vacated by en passant or castling are empty, the rook stands beside the king, and every other square is unchanged; from an empty origin only the origin and the cleared squares can change |
| Legality.EnPassantTakesPushedPawn | app.js:418-421 | the recorded en-passant square is the square the double push passed over, and taking en passant onto it removes exactly the pushed pawn |
| Legality.SafeMoves | app.js:254-258 | the filter keeps exactly the moves after which the mover's king exists and is not attacked |
| Legality.LegalMovesForSquare | app.js:251-259 | every legal move can be applied (lands on the board, the en-passant victim on the board) |
| Legality.LegalMovesForSquareSpec | app.js:251-259 | a move is legal if and only if the mover's piece stands on the square, the move is pseudo-legal and it leaves the mover's king present and not attacked |
| Legality.LegalMoveIsSafe | app.js:251-259 | a legal move is a well-placed pseudo-legal move after which the mover has a king that is not attacked |
| Legality.Tagged | app.js:265 | each move is paired with its origin, nothing else |
| Legality.SquarePlays | app.js:263-265 | one square's plays are exactly its legal moves paired with the square |
| Legality.PlayTable | app.js:262-266 | every play listed for a square starts on that square |
| Legality.GatherMembers | app.js:262-266 | after the nested loops reach a square, the collected plays are exactly those of earlier squares in row-major order |
| Legality.AllLegalMoves | app.js:260-268 | a play is listed if and only if its origin is on the board and its move is legal there |
| Legality.CollectLegalMoves | app.js:260-268 | the nested loops collect exactly AllLegalMoves |
| Legality.AllLegalMovesAreSafe | app.js:260-268 | every listed play starts on a piece of the side and leaves its king present and not attacked |
| Legality.NoPlaysNoMoves | app.js:355-359 | the move list is empty if and only if no square has a legal move |
| Legality.PlayOfLegalMove | app.js:265 | every legal move of every square appears in the move list |
| History.PushBounded | app.js:312-313 | the push appends the snapshot; past 200 the oldest is dropped and the length stays the same; the stack never exceeds 200 |
| History.Record | app.js:311-315 | `pushUndoSnapshot`: the state on show is saved on top of the undo stack with the cap applied, and the redo stack is emptied |
| History.StepBack | app.js:317-325 | `undoMove`: nothing on an empty undo stack; otherwise the top snapshot comes back and the state on show goes onto the redo stack |
| History.StepForward | app.js:327-335 | `redoMove`: the mirror image, with nothing happening on an empty redo stack |
| History.ForwardUndoesBack | app.js:317-335 | undo followed by redo restores the exact state and stacks |
| History.BackUndoesForward | app.js:317-335 | redo followed by undo restores the exact state and stacks |
| History.StepsKeepBound | app.js:311-335 | saving, undoing and redoing keep both stacks within 200 snapshots together; undo and redo each move exactly one snapshot |
| State.FreshId | app.js:434 | a new split's id is carried by no live entry |
| State.PushRecoverable | app.js:312 | pushing a well-formed snapshot keeps every saved snapshot restorable |
| State.DropBottomRecoverable | app.js:313 | dropping the oldest snapshot keeps every saved snapshot restorable |
| State.PushBoundedRecoverable | app.js:311-315 | the bounded push keeps every saved snapshot restorable |
| State.RecordSound | app.js:311-315 | saving the state keeps the session invariant |
| State.StepBackSound | app.js:317-325 | undoing keeps the session invariant: the snapshot brought back was well formed |
| State.StepForwardSound | app.js:327-335 | redoing keeps the session invariant |
| State.InitialSnapshot | app.js:25-52 | the starting state is well formed, White to move, nothing selected, quantum mode off, three splits each and no superposed pieces |
| State.MoveIndex | app.js:452 | the position of the first listed move landing on the square, -1 exactly when none does |
| State.FindMove | app.js:452 | `legalMoves.find`: none exactly when no listed move lands on the square, otherwise the first listed one that does |
| State.WithTarget | app.js:454-455 | the targets afterwards are the old ones plus the clicked square, with no repeats and no change when it was already chosen |
| State.Conclude | app.js:348-368 | the turn passes, selection and quantum mode are dropped, board and entries are untouched; the game ends exactly when the side is stuck, with the checkmate (winner the side that moved) or stalemate message; a check notice follows the note; an empty note alone adds no message |
| State.Finish | app.js:348-371 | `completeTurn` keeps the board and entries well formed, clears the selection consistently, and keeps credits non-negative |
| State.FinishVerdict | app.js:355-367 | the game ends exactly when the side now to move has no legal move on any square; checkmate won by the side that moved if its king is attacked, else stalemate; otherwise a check notice when attacked |
| State.Materialized | app.js:373-380 | the owner's collapse changes only the board and the entries, keeps them well formed and never adds an entry |
| State.MaterializeSpec | app.js:373-380 | the first entry holding the square appears there as a moved piece; no other square changes; exactly that entry is removed and the rest keep their order |
| State.CaptureCollapse | app.js:390-403 | the capture collapse changes only the board and the entries, changes no square except a survivor's square, and never adds an entry |
| State.CaptureCollapseSpec | app.js:390-403 | with no entry on the square nothing happens; otherwise exactly the first entry holding it is removed; on survival with another square it appears there as a moved piece (overwriting it) with a survival note, otherwise the board is unchanged with a capture note |
| State.Collapsed | app.js:411-414 | the collapse before a move keeps the state well formed, changes only the board and the entries, and changes no square except a survivor's |
| State.PassedOver | app.js:417-421 | the recorded en-passant square is never on an edge row |
| State.Advance | app.js:416-423 | applying the move changes only the board, the en-passant square and the move list, and keeps the state well formed |
| State.Played | app.js:408-423 | a move changes only the board, the entries, the en-passant square and the move list; it keeps them well formed and adds no entry |
| State.PlayedLands | app.js:413-416 | the mover lands on the destination, marked moved and promoted on the last row, unless a survivor was written onto its origin |
| State.PassedSquare | app.js:417-421 | an en-passant square is recorded exactly after a pawn's double push, between origin and destination in the same column |
| State.MoveRecorded | app.js:423 | the move list grows by one entry "from-to" whose two names read back as the origin and the destination |
| State.MoveSound | app.js:405-427 | `executeMove` keeps the session invariant |
| State.AfterSplit | app.js:429-444 | a split from an empty origin changes nothing after the snapshot |
| State.SplitSpendsOne | app.js:432-443 | the origin is emptied and no other square changes; exactly one entry is appended, holding both targets under the fresh id; exactly one of the mover's credits is spent and none of the opponent's; the turn passes |
| State.SplitSettled | app.js:434-439 | a split onto board squares keeps the board and the entries well formed with distinct ids |
| State.SplitSound | app.js:429-444 | `createQuantumMove` keeps the stacks restorable and the board well formed, and keeps the full invariant when the mover had a split left |
| State.AfterMaterialize | app.js:382-388 | `materializeBySelection` keeps the state well formed and credits non-negative; when an entry collapses, the turn passes to the opponent with a consistent selection |
| State.MaterializeSound | app.js:382-388 | `materializeBySelection` keeps the session invariant |
| State.ClickSpec | app.js:446-485 | a click does nothing exactly when the game is over; a split is played only in quantum mode, from the selected piece, onto two distinct listed destinations including the clicked one; a move only outside quantum mode, a listed move landing on the clicked square; a collapse only of the mover's entry; a selection only of the mover's piece |
| State.ClickLegal | app.js:446-485 | a move played by a click is a legal move of the selected piece, and every split target, recorded or played, is the destination of one of its legal moves |
| State.ClickCases | app.js:446-485 | what each branch of a click leaves on show and on the stacks: which clicks save a snapshot (split, move, collapse) and what they save |
| State.ClickSound | app.js:446-485 | every click keeps the session invariant |
| State.SplitClickSound | app.js:451-462 | a click completing a split keeps the session invariant |
| State.MoveClickSound | app.js:465-468 | a click playing a move keeps the session invariant |
| State.CollapseClickSound | app.js:470-471 | a click collapsing the mover's entry keeps the session invariant |
| State.StayClickSound | app.js:473-483 | clicks that select, deselect or add a target keep the session invariant |
| State.LegalMoveShaped | app.js:251-258 | a legal move lands on the board, an en-passant capture never lands on an edge row, and a double push spans two rows |
| State.SelectedWellFormed | app.js:473-478 | selecting one of the mover's pieces keeps the state well formed |
| State.SelectSound | app.js:473-478 | selecting one of the mover's pieces, with its legal moves, and announcing it keeps the session invariant |
| State.TargetSound | app.js:451-456 | recording a listed destination as a split target keeps the session invariant; the selected piece is on the board and the mover has a split left |
| State.SaySound | app.js:337-341 | a message is shown and keeps the session invariant |
| State.Toggled | app.js:580-582 | quantum mode flips; targets start empty when it comes on and are dropped when it goes off; the new mode is announced; nothing else changes |
| State.ToggleSound | app.js:576-584 | the toggle keeps the session invariant when the mover has a split left |
| State.PlaysShaped | app.js:260-268 | every listed play starts on a piece and is well shaped |
| State.Captures | app.js:492 | the captures are exactly the plays whose destination pieceAt sees occupied |
| State.AiChoice | app.js:490-494 | the AI's play is one of Black's legal plays and can be executed |
| State.AiChoiceSpec | app.js:490-494 | the AI plays exactly when Black has a legal move, and plays onto an occupied square whenever such a play exists |
| Session.Game.constructor | app.js:625-629 | the game starts in the initial state with empty stacks and no timer, satisfying the invariant |
| Session.Game.Restore | app.js:291-309 | every snapshot field is overwritten and the stacks are left alone |
| Session.Game.SetMessage | app.js:337-341 | the message becomes current and is appended to the history |
| Session.Game.PushUndoSnapshot | app.js:311-315 | the stacks become exactly Record's |
| Session.Game.Undo | app.js:317-325 | state and stacks become StepBack's (nothing on an empty stack), keeping the invariant |
| Session.Game.Redo | app.js:327-335 | state and stacks become StepForward's, keeping the invariant |
| Session.Game.MaybeAiMove | app.js:487-489 | a timer is set exactly in AI mode with Black to move and the game on |
| Session.Game.CompleteTurn | app.js:348-371 | the state becomes Finish's (the verdict of FinishVerdict), and a timer is set when the AI is to move next |
| Session.Game.CollapseForOwnerMovement | app.js:373-380 | reports a collapse exactly when an entry holds the square, and then leaves Materialized's state |
| Session.Game.MaterializeBySelection | app.js:382-388 | saves the state, collapses if an entry holds the square and completes the turn; reports exactly whether it collapsed; keeps the invariant |
| Session.Game.TryCollapseOnCapture | app.js:390-403 | leaves exactly CaptureCollapse's state and note |
| Session.Game.MovePiece | app.js:408-423 | leaves exactly Played's state and note |
| Session.Game.AdvancePiece | app.js:416-423 | leaves exactly Advance's state |
| Session.Game.ExecuteMove | app.js:405-427 | nothing once the game is over; otherwise the state is saved and AfterMove's state is shown; reports exactly whether a piece stood on the origin; keeps the invariant |
| Session.Game.SplitPiece | app.js:432-441 | leaves exactly Split's state |
| Session.Game.CreateQuantumMove | app.js:429-444 | nothing once the game is over; otherwise the state is saved and AfterSplit's state is shown; keeps the invariant when the mover had a split left |
| Session.Game.ChooseTarget | app.js:451-462 | the clicked square joins the targets; a second target saves the state with both targets and plays the split; otherwise the player is asked for a second target; keeps the invariant |
| Session.Game.SelectSquare | app.js:473-478 | the piece is selected with its legal moves, targets start empty and the prompt matches quantum mode; keeps the invariant |
| Session.Game.ClickSquare | app.js:470-484 | the mover's entry is collapsed, else the mover's piece selected, else the selection cleared; keeps the invariant |
| Session.Game.SquareClick | app.js:446-485 | state and stacks become exactly AfterClick's, the invariant is kept, and a timer is set only when the click ended the turn and the AI is to move |
| Session.Game.ToggleQuantumMode | app.js:576-584 | nothing once the game is over; a refusal message without credits; otherwise the state is saved and quantum mode flips; keeps the invariant |
| Session.Game.SetMode | app.js:601-603 | only the mode changes; no timer is set |
| Session.Game.NewGame | app.js:605-613 | the initial state in the chosen mode with its message, empty stacks, pending timers kept; the invariant holds |
| Session.Game.ChooseAiPlay | app.js:490-494 | the draw is exactly AiChoice (a capture when there is one, one of Black's legal plays) |
| Session.Game.AiTimerFires | app.js:489-496 | one timer is used up; with no play for Black nothing else changes; otherwise the drawn play goes through executeMove; keeps the invariant |

## Left out

- Rendering, the DOM, the win modal (`showWinModal`, `closeModal`, `winModalOpen` in snapshots), the history scroll buttons and sound (`getAudio`, `playTone`): presentation only, with no effect on the game state.
- The exact message texts: each wording is a `Message` or `Note` constructor carrying the squares it names.
- The 320 ms delay of the AI's timer: a timer is a pending count, and the environment chooses when `AiTimerFires` runs.
- `Math.random` and `Date.now`: they become the `survive` and `pick` parameters and `FreshId`. Ids are naturals rather than strings.
- `pieceAt`'s `quantumAsSolid` flag: every caller passes the default `true`.
- The JSON deep copy of snapshots: snapshots are values, so no aliasing can arise.
- `modeEl.value` is not kept in sync on restore; only `game.mode` is modelled.
- `render()` calls: presentation only.
- The `game` object's fields are grouped into one `present` snapshot next to the stacks.
- Helper methods: `MovePiece`, `AdvancePiece`, `SplitPiece`, `ChooseTarget`, `SelectSquare`, `ClickSquare` and `ChooseAiPlay` each carry out one part of a source routine, so each proof stays small. Together they perform the routine's steps in the same order.
- Session.Game.CreateQuantumMove: promises the full invariant only when the mover has a split left. The source spends a credit without checking. Quantum mode, the only way to reach a split, is only on while a split is left.
- Session.Game.AiTimerFires: requires a pending timer, because a callback only runs after maybeAIMove has set it.
- Undo after a split restores the state with both targets already recorded. squareClick records the second target before createQuantumMove saves the state; the model keeps this.
- A stale en-passant square survives a split or a collapse by selection. Only executeMove clears it; the model keeps this.
- The AI's callback lists Black's moves whoever is to move by then, and a timer set before a new game, an undo or a redo still fires afterwards. The model keeps both.
- Changing the mode does not start the AI, even with Black to move; the model keeps this.
