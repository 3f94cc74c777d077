/**
 * The drag-and-drop engine of the useDragDrop hook.
 *
 * The hook keeps four state cells (isDragging, isTouching, translate and
 * isDraggableOverllapping) and changes them from three event handlers:
 * handleMouseDown starts a drag, handleMouseMove (through handleDrag) moves
 * the draggable and recomputes the overlap with the drop zone, handleMouseUp
 * ends the drag; setTranslate overrides the translation from outside.
 *
 * Engine is that state as a class, one method per handler. Each user callback
 * invocation appends its tag to the ghost field log. The pure functions
 * Started, Dragged, Moved, Ended and Step say the same transitions on values,
 * so that runs of many events can be reasoned about (module DragDropTraces).
 *
 * The host's layout queries are inputs: the draggable's bounding rectangle
 * (None while its ref is not attached) and the drop zone's (None when there is
 * no drop zone ref or it is not attached), read when a move event arrives.
 */
module DragDrop {
  import opened Wrappers
  import opened Geometry
  import opened CallbackLog

  /** A translation in pixels. */
  datatype Point = Point(x: real, y: real)

  const Origin := Point(0.0, 0.0)

  /** One touch point of a TouchEvent, in page coordinates. */
  datatype TouchPoint = TouchPoint(pageX: real, pageY: real)

  /**
   * What the engine reads of a raw event. The constructor tells a mouse event
   * from a touch event.
   */
  datatype InputEvent =
    | Mouse(movementX: real, movementY: real)
    | Touch(touches: seq<TouchPoint>, targetTouches: seq<TouchPoint>)

  /** The four state cells of the hook. */
  datatype EngineState = EngineState(
    isDragging: bool,
    isTouching: bool,
    translate: Point,
    isDraggableOverllapping: bool)

  /** The state of a freshly mounted hook. */
  const Initial := EngineState(false, false, Origin, false)

  /**
   * handleDrag reads targetTouches[0] once it knows the draggable exists and
   * the touch event has touches; an empty targetTouches list there would throw.
   */
  predicate DragDefined(ev: InputEvent, draggable: Option<Rect>)
  {
    draggable.Some? && ev.Touch? && |ev.touches| > 0 ==> |ev.targetTouches| > 0
  }

  /**
   * The touch branch of handleDrag: the prior translation plus the touch's
   * offset from the draggable's top-left corner, less half the draggable's size.
   * The change it makes to the translation carries the draggable's centre onto
   * the touch point.
   */
  function SnapToTouch(prior: Point, touch: TouchPoint, rect: Rect): (r: Point)
    ensures rect.left + rect.width / 2.0 + (r.x - prior.x) == touch.pageX
    ensures rect.top + rect.height / 2.0 + (r.y - prior.y) == touch.pageY
  {
    var relativeX := touch.pageX - rect.left;
    var relativeY := touch.pageY - rect.top;
    Point((prior.x + relativeX) - rect.width / 2.0, (prior.y + relativeY) - rect.height / 2.0)
  }

  /** handleDrag goes past its early returns and computes a new translation. */
  predicate Translates(ev: InputEvent, draggable: Option<Rect>)
  {
    draggable.Some? && !(ev.Touch? && |ev.touches| == 0)
  }

  /** handleDrag on values. */
  function Dragged(s: EngineState, ev: InputEvent, draggable: Option<Rect>, dropZone: Option<Rect>): (r: EngineState)
    requires DragDefined(ev, draggable)
    ensures r.isDragging == s.isDragging && r.isTouching == s.isTouching
    ensures !Translates(ev, draggable) ==> r == s
    ensures dropZone.None? ==> r.isDraggableOverllapping == s.isDraggableOverllapping
  {
    if !Translates(ev, draggable) then s
    else
      var rect := draggable.value;
      var translate :=
        if ev.Mouse? then Point(s.translate.x + ev.movementX, s.translate.y + ev.movementY)
        else SnapToTouch(s.translate, ev.targetTouches[0], rect);
      var moved := s.(translate := translate);
      if dropZone.None? then moved
      else moved.(isDraggableOverllapping := Overlap(rect, dropZone.value))
  }

  /** handleMouseDown on values. */
  function Started(s: EngineState, ev: InputEvent): (r: EngineState)
    ensures r.isDragging && r.isTouching == ev.Touch?
    ensures r.translate == s.translate && r.isDraggableOverllapping == s.isDraggableOverllapping
  {
    s.(isDragging := true, isTouching := ev.Touch?)
  }

  /** handleMouseMove on values: ignored unless a drag is in progress. */
  function Moved(s: EngineState, ev: InputEvent, draggable: Option<Rect>, dropZone: Option<Rect>): (r: EngineState)
    requires s.isDragging ==> DragDefined(ev, draggable)
    ensures r.isDragging == s.isDragging && r.isTouching == s.isTouching
    ensures !s.isDragging ==> r == s
  {
    if s.isDragging then Dragged(s, ev, draggable, dropZone) else s
  }

  /** handleMouseUp on values. */
  function Ended(s: EngineState): (r: EngineState)
    ensures !r.isDragging && !r.isTouching
    ensures r.translate == s.translate && r.isDraggableOverllapping == s.isDraggableOverllapping
  {
    s.(isDragging := false, isTouching := false)
  }

  /** Something that happens to the engine: one of its three handlers runs, or setTranslate is called. */
  datatype Action =
    | MouseDown(ev: InputEvent)
    | MouseMove(ev: InputEvent, draggable: Option<Rect>, dropZone: Option<Rect>)
    | MouseUp(ev: InputEvent)
    | SetTranslate(to: Point)

  /** The new state and the callbacks invoked, in order. */
  datatype Outcome = Outcome(state: EngineState, callbacks: seq<Callback>)

  predicate StepDefined(s: EngineState, a: Action)
  {
    a.MouseMove? && s.isDragging ==> DragDefined(a.ev, a.draggable)
  }

  function Step(s: EngineState, a: Action): (o: Outcome)
    requires StepDefined(s, a)
    ensures o.state.isDragging == (if a.MouseDown? then true else if a.MouseUp? then false else s.isDragging)
  {
    match a
    case MouseDown(ev) => Outcome(Started(s, ev), [DragStart])
    case MouseMove(ev, draggable, dropZone) =>
      Outcome(Moved(s, ev, draggable, dropZone), if s.isDragging then [Drag] else [])
    case MouseUp(_) => Outcome(Ended(s), [DragEnd, Drop])
    case SetTranslate(p) => Outcome(s.(translate := p), [])
  }

  /**
   * The engine's state agrees with the callbacks it has invoked: the log is one
   * the engine can produce, no onDragEnd waits for its onDrop, and a drag is in
   * progress exactly when the log leaves a session open.
   */
  ghost predicate Consistent(s: EngineState, log: seq<Callback>)
  {
    (Scan(log) == Closed || Scan(log) == Open) && (s.isDragging <==> Scan(log) == Open)
  }

  lemma StepKeepsConsistent(s: EngineState, log: seq<Callback>, a: Action)
    requires StepDefined(s, a)
    requires Consistent(s, log)
    ensures Consistent(Step(s, a).state, log + Step(s, a).callbacks)
  {
    match a
    case MouseDown(_) =>
      ScanAppend(log, DragStart);
    case MouseMove(_, _, _) =>
      if s.isDragging {
        ScanAppend(log, Drag);
      } else {
        assert log + [] == log;
      }
    case MouseUp(_) =>
      assert log + [DragEnd, Drop] == (log + [DragEnd]) + [Drop];
      ScanAppend(log, DragEnd);
      ScanAppend(log + [DragEnd], Drop);
    case SetTranslate(_) =>
      assert log + [] == log;
  }

  /** The hook's state cells, updated in place by its handlers. */
  class Engine {
    var isDragging: bool
    var isTouching: bool
    var translate: Point
    var isDraggableOverllapping: bool
    /** The user callbacks invoked so far, oldest first. */
    ghost var log: seq<Callback>

    function State(): EngineState
      reads this
    {
      EngineState(isDragging, isTouching, translate, isDraggableOverllapping)
    }

    ghost predicate Valid()
      reads this
    {
      Consistent(State(), log)
    }

    /** The four useState initialisers. */
    constructor ()
      ensures Valid() && log == []
      ensures !isDragging && !isTouching && translate == Origin && !isDraggableOverllapping
    {
      isDragging := false;
      isTouching := false;
      translate := Origin;
      isDraggableOverllapping := false;
      log := [];
    }

    /** The setTranslate the hook returns: replaces the translation, whatever the state. */
    method SetTranslate(p: Point)
      requires Valid()
      modifies this
      ensures Valid()
      ensures translate == p
      ensures isDragging == old(isDragging) && isTouching == old(isTouching)
      ensures isDraggableOverllapping == old(isDraggableOverllapping) && log == old(log)
      ensures State() == Step(old(State()), Action.SetTranslate(p)).state
    {
      ghost var s0, log0 := State(), log;
      translate := p;
      assert State() == Step(s0, Action.SetTranslate(p)).state && log == log0 + Step(s0, Action.SetTranslate(p)).callbacks;
      StepKeepsConsistent(s0, log0, Action.SetTranslate(p));
    }

    /** handleMouseDown: unconditional, also when a drag is already in progress. */
    method HandleMouseDown(ev: InputEvent)
      requires Valid()
      modifies this
      ensures Valid()
      ensures isDragging && isTouching == ev.Touch?
      ensures translate == old(translate) && isDraggableOverllapping == old(isDraggableOverllapping)
      ensures log == old(log) + [DragStart]
      ensures State() == Step(old(State()), MouseDown(ev)).state
    {
      ghost var s0, log0 := State(), log;
      isTouching := ev.Touch?;
      isDragging := true;
      log := log + [DragStart];
      assert State() == Step(s0, MouseDown(ev)).state && log == log0 + Step(s0, MouseDown(ev)).callbacks;
      StepKeepsConsistent(s0, log0, MouseDown(ev));
    }

    /** handleMouseUp: unconditional, also when no drag is in progress. */
    method HandleMouseUp(ev: InputEvent)
      requires Valid()
      modifies this
      ensures Valid()
      ensures !isDragging && !isTouching
      ensures translate == old(translate) && isDraggableOverllapping == old(isDraggableOverllapping)
      ensures log == old(log) + [DragEnd, Drop]
      ensures State() == Step(old(State()), MouseUp(ev)).state
    {
      ghost var s0, log0 := State(), log;
      isTouching := false;
      isDragging := false;
      log := log + [DragEnd];
      log := log + [Drop];
      assert State() == Step(s0, MouseUp(ev)).state && log == log0 + Step(s0, MouseUp(ev)).callbacks;
      StepKeepsConsistent(s0, log0, MouseUp(ev));
    }

    /**
     * handleDrag: a missing draggable or a touch event without touches changes
     * nothing; otherwise the translation moves by the mouse delta or snaps the
     * draggable's centre to the first target touch, and then, when there is a
     * drop zone, the overlap is recomputed from the rectangle read before the move.
     */
    method HandleDrag(ev: InputEvent, draggable: Option<Rect>, dropZone: Option<Rect>)
      requires DragDefined(ev, draggable)
      modifies this
      ensures isDragging == old(isDragging) && isTouching == old(isTouching) && log == old(log)
      ensures !Translates(ev, draggable) ==> State() == old(State())
      ensures Translates(ev, draggable) && ev.Mouse? ==>
                translate == Point(old(translate).x + ev.movementX, old(translate).y + ev.movementY)
      ensures Translates(ev, draggable) && ev.Touch? ==>
                translate == SnapToTouch(old(translate), ev.targetTouches[0], draggable.value)
      ensures isDraggableOverllapping ==
                if Translates(ev, draggable) && dropZone.Some? then Overlap(draggable.value, dropZone.value)
                else old(isDraggableOverllapping)
      ensures State() == Dragged(old(State()), ev, draggable, dropZone)
    {
      if draggable.None? {
        return;
      }
      var droppable := draggable.value;
      if ev.Mouse? {
        translate := Point(translate.x + ev.movementX, translate.y + ev.movementY);
      } else {
        if |ev.touches| == 0 {
          return;
        }
        var touch := ev.targetTouches[0];
        var relativeX := touch.pageX - droppable.left;
        var relativeY := touch.pageY - droppable.top;
        translate := Point((translate.x + relativeX) - droppable.width / 2.0,
                           (translate.y + relativeY) - droppable.height / 2.0);
      }
      if dropZone.None? {
        return;
      }
      isDraggableOverllapping := Overlap(droppable, dropZone.value);
    }

    /**
     * handleMouseMove: ignored unless dragging; while dragging, handleDrag runs
     * and onDrag is invoked exactly once, even when handleDrag returned early.
     */
    method HandleMouseMove(ev: InputEvent, draggable: Option<Rect>, dropZone: Option<Rect>)
      requires Valid()
      requires isDragging ==> DragDefined(ev, draggable)
      modifies this
      ensures Valid()
      ensures isDragging == old(isDragging) && isTouching == old(isTouching)
      ensures !old(isDragging) ==> State() == old(State()) && log == old(log)
      ensures old(isDragging) ==> State() == Dragged(old(State()), ev, draggable, dropZone)
      ensures old(isDragging) ==> log == old(log) + [Drag]
      ensures State() == Step(old(State()), MouseMove(ev, draggable, dropZone)).state
    {
      ghost var s0, log0 := State(), log;
      if isDragging {
        HandleDrag(ev, draggable, dropZone);
        log := log + [Drag];
      }
      assert State() == Step(s0, MouseMove(ev, draggable, dropZone)).state;
      assert log == log0 + Step(s0, MouseMove(ev, draggable, dropZone)).callbacks;
      StepKeepsConsistent(s0, log0, MouseMove(ev, draggable, dropZone));
    }
  }
}
