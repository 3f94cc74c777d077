/**
 * Which handler of the engine each DOM event name reaches: the hook attaches
 * its three handlers to the draggable element under six event names, one mouse
 * and one touch name per handler, and detaches the same six on teardown.
 */
module Listeners {
  import opened Wrappers

  /** The three handlers of the engine. */
  datatype Handler = OnMouseDown | OnMouseUp | OnMouseMove

  datatype Binding = Binding(eventName: string, handler: Handler)

  /** The addEventListener calls, in the order they are made. */
  const Attached: seq<Binding> := [
    Binding("mousedown", OnMouseDown),
    Binding("mouseup", OnMouseUp),
    Binding("mousemove", OnMouseMove),
    Binding("touchmove", OnMouseMove),
    Binding("touchend", OnMouseUp),
    Binding("touchstart", OnMouseDown)
  ]

  /** The removeEventListener calls of the cleanup function, in the order they are made. */
  const Detached: seq<Binding> := [
    Binding("mousedown", OnMouseDown),
    Binding("mouseup", OnMouseUp),
    Binding("mousemove", OnMouseMove),
    Binding("touchmove", OnMouseMove),
    Binding("touchend", OnMouseUp),
    Binding("touchstart", OnMouseDown)
  ]

  /** The handler bound to an event name: the first binding with that name, if any. */
  function Lookup(bindings: seq<Binding>, name: string): (r: Option<Handler>)
    ensures r.None? <==> forall i :: 0 <= i < |bindings| ==> bindings[i].eventName != name
    ensures r.Some? ==> exists i :: 0 <= i < |bindings| && bindings[i] == Binding(name, r.value)
    decreases |bindings|
  {
    if |bindings| == 0 then None
    else if bindings[0].eventName == name then Some(bindings[0].handler)
    else Lookup(bindings[1..], name)
  }

  /** The handler a dispatched event reaches on the draggable element. */
  function HandlerFor(name: string): (r: Option<Handler>)
    ensures r.Some? <==> name in {"mousedown", "mouseup", "mousemove", "touchmove", "touchend", "touchstart"}
  {
    Lookup(Attached, name)
  }

  /**
   * Each handler answers exactly one mouse event name and one touch event
   * name, and no other event name reaches the engine.
   */
  lemma HandlerTable(name: string)
    ensures HandlerFor(name) == Some(OnMouseDown) <==> name == "mousedown" || name == "touchstart"
    ensures HandlerFor(name) == Some(OnMouseUp) <==> name == "mouseup" || name == "touchend"
    ensures HandlerFor(name) == Some(OnMouseMove) <==> name == "mousemove" || name == "touchmove"
  {
  }

  /** No event name is bound twice, and teardown removes every binding it added. */
  lemma TeardownIsSymmetric()
    ensures forall i, j :: 0 <= i < j < |Attached| ==> Attached[i].eventName != Attached[j].eventName
    ensures multiset(Detached) == multiset(Attached)
  {
  }
}
