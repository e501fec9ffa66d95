/** The undo and redo stacks of full-state snapshots, as values: the state
    on show (`present`) and the two stacks, with the undo stack capped at
    UndoLimit entries by dropping the oldest. */
module History {

  const UndoLimit: nat := 200

  /** Push onto the undo stack, then drop the oldest entry if the stack has
      grown past the limit (push, then shift). */
  function PushBounded<S>(stack: seq<S>, s: S): (r: seq<S>)
    ensures |stack| < UndoLimit ==> r == stack + [s]
    ensures |stack| >= UndoLimit ==> |r| == |stack| && r == stack[1..] + [s]
    ensures |stack| <= UndoLimit ==> |r| <= UndoLimit
  {
    var pushed := stack + [s];
    if |pushed| > UndoLimit then pushed[1..] else pushed
  }

  /** The snapshot on show together with the two stacks. */
  datatype Timeline<S> = Timeline(present: S, undo: seq<S>, redo: seq<S>)

  /** Both stacks together hold at most UndoLimit snapshots. */
  predicate Bounded<S>(t: Timeline<S>)
  {
    |t.undo| + |t.redo| <= UndoLimit
  }

  /** pushUndoSnapshot: the present is saved on the undo stack and the redo
      stack is emptied; the present itself is then changed by the caller. */
  function Record<S>(t: Timeline<S>): (t': Timeline<S>)
    ensures t'.present == t.present && t'.redo == []
    ensures t'.undo == PushBounded(t.undo, t.present)
  {
    Timeline(t.present, PushBounded(t.undo, t.present), [])
  }

  /** undoMove: nothing happens on an empty undo stack; otherwise the top of
      the undo stack comes back and the present goes onto the redo stack. */
  function StepBack<S>(t: Timeline<S>): (t': Timeline<S>)
    ensures t.undo == [] ==> t' == t
    ensures t.undo != [] ==> t'.present == t.undo[|t.undo| - 1] && t'.undo == t.undo[..|t.undo| - 1]
                             && t'.redo == t.redo + [t.present]
  {
    if t.undo == [] then t
    else Timeline(t.undo[|t.undo| - 1], t.undo[..|t.undo| - 1], t.redo + [t.present])
  }

  /** redoMove: the mirror image of StepBack (no cap is applied to the undo
      stack here). */
  function StepForward<S>(t: Timeline<S>): (t': Timeline<S>)
    ensures t.redo == [] ==> t' == t
    ensures t.redo != [] ==> t'.present == t.redo[|t.redo| - 1] && t'.redo == t.redo[..|t.redo| - 1]
                             && t'.undo == t.undo + [t.present]
  {
    if t.redo == [] then t
    else Timeline(t.redo[|t.redo| - 1], t.undo + [t.present], t.redo[..|t.redo| - 1])
  }

  /** Undo followed by redo gives back the exact timeline. */
  lemma {:induction false} ForwardUndoesBack<S>(t: Timeline<S>)
    requires t.undo != []
    ensures StepForward(StepBack(t)) == t
  {
    var n := |t.undo|;
    assert t.undo[..n - 1] + [t.undo[n - 1]] == t.undo;
  }

  /** Redo followed by undo gives back the exact timeline. */
  lemma {:induction false} BackUndoesForward<S>(t: Timeline<S>)
    requires t.redo != []
    ensures StepBack(StepForward(t)) == t
  {
    var n := |t.redo|;
    assert t.redo[..n - 1] + [t.redo[n - 1]] == t.redo;
  }

  /** Each step moves exactly one snapshot from one stack to the other, so
      the total is unchanged; recording never raises the total past the cap. */
  lemma StepsKeepBound<S>(t: Timeline<S>)
    requires Bounded(t)
    ensures Bounded(Record(t)) && Bounded(StepBack(t)) && Bounded(StepForward(t))
    ensures t.undo != [] ==> |StepBack(t).undo| == |t.undo| - 1 && |StepBack(t).redo| == |t.redo| + 1
    ensures t.redo != [] ==> |StepForward(t).redo| == |t.redo| - 1 && |StepForward(t).undo| == |t.undo| + 1
  {
  }
}
