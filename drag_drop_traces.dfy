/**
 * Runs of the engine over sequences of actions, each seeing the state left by
 * the one before, and what the hook promises about such runs: the callback
 * order, the accumulation of mouse deltas, when the translation and the
 * overlap flag may change, and the overlap flag without a drop zone.
 */
module DragDropTraces {
  import opened Wrappers
  import opened Geometry
  import opened CallbackLog
  import opened DragDrop

  /** Every action of the run is one the engine survives in the state it meets. */
  predicate Defined(s: EngineState, acts: seq<Action>)
    decreases |acts|
  {
    |acts| == 0 || (StepDefined(s, acts[0]) && Defined(Step(s, acts[0]).state, acts[1..]))
  }

  /** The final state and every callback invoked along the way, in order. */
  function Run(s: EngineState, acts: seq<Action>): Outcome
    requires Defined(s, acts)
    decreases |acts|
  {
    if |acts| == 0 then Outcome(s, [])
    else
      var first := Step(s, acts[0]);
      var rest := Run(first.state, acts[1..]);
      Outcome(rest.state, first.callbacks + rest.callbacks)
  }

  lemma {:induction false} RunKeepsConsistent(s: EngineState, log: seq<Callback>, acts: seq<Action>)
    requires Defined(s, acts)
    requires Consistent(s, log)
    ensures Consistent(Run(s, acts).state, log + Run(s, acts).callbacks)
    decreases |acts|
  {
    if |acts| == 0 {
      assert log + [] == log;
    } else {
      var first := Step(s, acts[0]);
      StepKeepsConsistent(s, log, acts[0]);
      RunKeepsConsistent(first.state, log + first.callbacks, acts[1..]);
      assert log + Run(s, acts).callbacks == (log + first.callbacks) + Run(first.state, acts[1..]).callbacks;
    }
  }

  /**
   * The callbacks of any run from a fresh engine come in lifecycle order
   * (onDrop right after onDragEnd, onDragEnd right before onDrop, onDrag only
   * inside a session opened by onDragStart and not yet ended), and the engine
   * ends up dragging exactly when such a session is still open.
   */
  lemma CallbackOrder(acts: seq<Action>)
    requires Defined(Initial, acts)
    ensures LifecycleOrdered(Run(Initial, acts).callbacks)
    ensures Run(Initial, acts).state.isDragging <==> OpenedBefore(Run(Initial, acts).callbacks, |Run(Initial, acts).callbacks|)
  {
    var o := Run(Initial, acts);
    RunKeepsConsistent(Initial, [], acts);
    assert [] + o.callbacks == o.callbacks;
    ScanOrdered(o.callbacks);
  }

  /** Every action is a mouse move with the draggable attached. */
  predicate MouseMovesOnly(acts: seq<Action>)
  {
    forall i :: 0 <= i < |acts| ==> acts[i].MouseMove? && acts[i].ev.Mouse? && acts[i].draggable.Some?
  }

  /** The sum of the mouse deltas of a run of mouse moves. */
  function SumDeltas(acts: seq<Action>): Point
    requires MouseMovesOnly(acts)
    decreases |acts|
  {
    if |acts| == 0 then Origin
    else
      var rest := SumDeltas(acts[1..]);
      Point(acts[0].ev.movementX + rest.x, acts[0].ev.movementY + rest.y)
  }

  /**
   * Mouse moves during a drag accumulate: the translation ends at the prior
   * translation plus the sum of the deltas, the drag stays in progress, and
   * onDrag is invoked once per move.
   */
  lemma {:induction false} MouseMovesAccumulate(s: EngineState, acts: seq<Action>)
    requires s.isDragging
    requires MouseMovesOnly(acts)
    ensures Defined(s, acts)
    ensures Run(s, acts).state.translate
         == Point(s.translate.x + SumDeltas(acts).x, s.translate.y + SumDeltas(acts).y)
    ensures Run(s, acts).state.isDragging
    ensures Run(s, acts).callbacks == seq(|acts|, _ => Drag)
    decreases |acts|
  {
    if |acts| > 0 {
      var next := Step(s, acts[0]).state;
      assert next.translate == Point(s.translate.x + acts[0].ev.movementX, s.translate.y + acts[0].ev.movementY);
      MouseMovesAccumulate(next, acts[1..]);
    }
  }

  /** Every move of the run happens without a drop zone. */
  predicate NoDropZone(acts: seq<Action>)
  {
    forall i :: 0 <= i < |acts| ==> acts[i].MouseMove? ==> acts[i].dropZone.None?
  }

  /**
   * Without a drop zone the overlap flag is never recomputed, so it keeps its
   * value along any run; from a fresh engine it stays false.
   */
  lemma {:induction false} OverlapKeptWithoutDropZone(s: EngineState, acts: seq<Action>)
    requires Defined(s, acts)
    requires NoDropZone(acts)
    ensures Run(s, acts).state.isDraggableOverllapping == s.isDraggableOverllapping
    decreases |acts|
  {
    if |acts| > 0 {
      OverlapKeptWithoutDropZone(Step(s, acts[0]).state, acts[1..]);
    }
  }

  lemma OverlapFalseWithoutDropZone(acts: seq<Action>)
    requires Defined(Initial, acts)
    requires NoDropZone(acts)
    ensures !Run(Initial, acts).state.isDraggableOverllapping
  {
    OverlapKeptWithoutDropZone(Initial, acts);
  }

  /** The translation changes only during a drag or through setTranslate. */
  lemma TranslateChangesOnlyWhileDragging(s: EngineState, a: Action)
    requires StepDefined(s, a)
    requires Step(s, a).state.translate != s.translate
    ensures s.isDragging || a.SetTranslate?
  {
  }

  /**
   * The overlap flag changes only on a move during a drag, with the draggable
   * and the drop zone both present, and then to their overlap test.
   */
  lemma OverlapChangesOnlyOnDrag(s: EngineState, a: Action)
    requires StepDefined(s, a)
    requires Step(s, a).state.isDraggableOverllapping != s.isDraggableOverllapping
    ensures s.isDragging && a.MouseMove? && a.draggable.Some? && a.dropZone.Some?
    ensures Step(s, a).state.isDraggableOverllapping == Overlap(a.draggable.value, a.dropZone.value)
  {
  }

  /** A drag with three mouse moves of (3, 0), (0, 4) and (-1, -1) from the origin ends at (2, 3). */
  lemma ThreeMouseMoves(rect: Rect, dropZone: Option<Rect>)
    ensures var acts := [MouseDown(Mouse(0.0, 0.0)),
                         MouseMove(Mouse(3.0, 0.0), Some(rect), dropZone),
                         MouseMove(Mouse(0.0, 4.0), Some(rect), dropZone),
                         MouseMove(Mouse(-1.0, -1.0), Some(rect), dropZone)];
      Defined(Initial, acts) && Run(Initial, acts).state.translate == Point(2.0, 3.0)
  {
    var moves := [MouseMove(Mouse(3.0, 0.0), Some(rect), dropZone),
                  MouseMove(Mouse(0.0, 4.0), Some(rect), dropZone),
                  MouseMove(Mouse(-1.0, -1.0), Some(rect), dropZone)];
    var acts := [MouseDown(Mouse(0.0, 0.0))] + moves;
    var started := Step(Initial, acts[0]).state;
    assert acts[1..] == moves;
    MouseMovesAccumulate(started, moves);
    assert Run(Initial, acts).state == Run(started, moves).state;
    assert SumDeltas(moves[2..]) == Point(-1.0, -1.0) by {
      assert moves[2..][1..] == [];
    }
    assert moves[1..][1..] == moves[2..];
    assert SumDeltas(moves[1..]) == Point(-1.0, 3.0);
    assert SumDeltas(moves) == Point(2.0, 3.0);
  }

  /**
   * The touch path is not a delta: a mouse move of (5, 5) and a touch at page
   * (5, 5) over a 10 by 10 draggable at the origin, both from a drag started at
   * the origin, give different translations.
   */
  lemma TouchIsNotADelta()
    ensures var rect := Rect(0.0, 0.0, 10.0, 10.0, 10.0, 10.0);
      var dragging := Started(Initial, Mouse(0.0, 0.0));
      var touch := TouchPoint(5.0, 5.0);
      && Dragged(dragging, Mouse(5.0, 5.0), Some(rect), None).translate == Point(5.0, 5.0)
      && Dragged(dragging, Touch([touch], [touch]), Some(rect), None).translate == Point(0.0, 0.0)
  {
  }
}
