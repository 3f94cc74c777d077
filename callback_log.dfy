/**
 * The order in which the engine invokes the user's callbacks.
 *
 * The engine's handlers append one tag per callback invocation to a log. A
 * small automaton (Scan) reads such a log; every log a run of the engine
 * produces ends in phase Closed or Open. ScanSound turns that into plain
 * statements about positions in the log.
 */
module CallbackLog {

  /** One tag per user callback of the options object: onDragStart, onDrag, onDragEnd, onDrop. */
  datatype Callback = DragStart | Drag | DragEnd | Drop

  /**
   * Where the log leaves the drag lifecycle: no session open, a session open
   * (started and not ended), an onDragEnd still waiting for its onDrop, or a
   * log no run of the engine produces.
   */
  datatype Phase = Closed | Open | AwaitingDrop | Broken

  function Next(p: Phase, c: Callback): Phase
  {
    match c
    case DragStart => if p == Closed || p == Open then Open else Broken
    case Drag => if p == Open then Open else Broken
    case DragEnd => if p == Closed || p == Open then AwaitingDrop else Broken
    case Drop => if p == AwaitingDrop then Closed else Broken
  }

  /** The phase reached by reading the log from the start. */
  function Scan(log: seq<Callback>): Phase
    decreases |log|
  {
    if |log| == 0 then Closed else Next(Scan(log[..|log| - 1]), log[|log| - 1])
  }

  lemma ScanAppend(log: seq<Callback>, c: Callback)
    ensures Scan(log + [c]) == Next(Scan(log), c)
  {
  }

  /** A session opened before position i (an onDragStart with no onDragEnd after it) is still open there. */
  ghost predicate OpenedBefore(log: seq<Callback>, i: int)
    requires 0 <= i <= |log|
  {
    exists j :: 0 <= j < i && log[j] == DragStart && forall k :: j < k < i ==> log[k] != DragEnd
  }

  lemma OpenedBeforePrefix(log: seq<Callback>, i: int)
    requires 0 <= i < |log|
    ensures OpenedBefore(log, i) == OpenedBefore(log[..|log| - 1], i)
  {
  }

  /** onDragEnd and onDrop always come as an adjacent pair, in that order. */
  lemma {:induction false} ScanPairs(log: seq<Callback>)
    requires Scan(log) != Broken
    ensures forall i :: 0 <= i < |log| && log[i] == Drop ==> 0 < i && log[i - 1] == DragEnd
    ensures forall i :: 0 <= i < |log| - 1 && log[i] == DragEnd ==> log[i + 1] == Drop
    ensures Scan(log) == AwaitingDrop <==> |log| > 0 && log[|log| - 1] == DragEnd
    decreases |log|
  {
    if |log| == 0 {
      return;
    }
    var n := |log|;
    var pre := log[..n - 1];
    var c := log[n - 1];
    assert Scan(log) == Next(Scan(pre), c);
    ScanPairs(pre);
    assert forall i :: 0 <= i < n - 1 ==> log[i] == pre[i];
    if c == Drop {
      assert Scan(pre) == AwaitingDrop;
    }
  }

  /** Every onDrag lies inside an open session, and the phase says whether one is open. */
  lemma {:induction false} ScanSessions(log: seq<Callback>)
    requires Scan(log) != Broken
    ensures forall i :: 0 <= i < |log| && log[i] == Drag ==> OpenedBefore(log, i)
    ensures Scan(log) == Open <==> OpenedBefore(log, |log|)
    decreases |log|
  {
    if |log| == 0 {
      return;
    }
    var n := |log|;
    var pre := log[..n - 1];
    var c := log[n - 1];
    assert Scan(log) == Next(Scan(pre), c);
    ScanSessions(pre);
    forall i | 0 <= i <= n - 1
      ensures OpenedBefore(log, i) == OpenedBefore(pre, i)
    {
      OpenedBeforePrefix(log, i);
    }
    match c
    case DragStart =>
      assert log[n - 1] == DragStart;
      assert OpenedBefore(log, n);
    case Drag =>
      var j :| 0 <= j < n - 1 && pre[j] == DragStart && forall k :: j < k < n - 1 ==> pre[k] != DragEnd;
      assert log[j] == DragStart && forall k :: j < k < n ==> log[k] != DragEnd;
    case DragEnd =>
      ClosedAfterEnd(log, n - 1);
    case Drop =>
      ScanPairs(log);
      ClosedAfterEnd(log, n - 2);
  }

  /** An onDragEnd at position e, with no onDragStart after it, leaves no session open. */
  lemma ClosedAfterEnd(log: seq<Callback>, e: int)
    requires 0 <= e < |log| && log[e] == DragEnd
    requires forall k :: e < k < |log| ==> log[k] != DragStart
    ensures !OpenedBefore(log, |log|)
  {
  }

  /**
   * The callback order the engine promises, position by position: every onDrop
   * comes right after an onDragEnd, every onDragEnd is followed at once by
   * onDrop, and every onDrag happens inside a session opened by onDragStart and
   * not ended since.
   */
  ghost predicate LifecycleOrdered(log: seq<Callback>)
  {
    && (forall i :: 0 <= i < |log| && log[i] == Drop ==> 0 < i && log[i - 1] == DragEnd)
    && (forall i :: 0 <= i < |log| && log[i] == DragEnd ==> i + 1 < |log| && log[i + 1] == Drop)
    && (forall i :: 0 <= i < |log| && log[i] == Drag ==> OpenedBefore(log, i))
  }

  /** A log that leaves no onDragEnd waiting is in lifecycle order. */
  lemma ScanOrdered(log: seq<Callback>)
    requires Scan(log) == Closed || Scan(log) == Open
    ensures LifecycleOrdered(log)
    ensures Scan(log) == Open <==> OpenedBefore(log, |log|)
  {
    ScanSound(log);
  }

  /**
   * What acceptance means, position by position: every onDrop comes right after
   * an onDragEnd, every onDragEnd is followed at once by onDrop (or is the last
   * entry, still waiting for it), every onDrag happens inside a session opened
   * by onDragStart and not ended since, and the phase is Open exactly when such
   * a session is still open.
   */
  lemma ScanSound(log: seq<Callback>)
    requires Scan(log) != Broken
    ensures forall i :: 0 <= i < |log| && log[i] == Drop ==> 0 < i && log[i - 1] == DragEnd
    ensures forall i :: 0 <= i < |log| - 1 && log[i] == DragEnd ==> log[i + 1] == Drop
    ensures Scan(log) == AwaitingDrop <==> |log| > 0 && log[|log| - 1] == DragEnd
    ensures forall i :: 0 <= i < |log| && log[i] == Drag ==> OpenedBefore(log, i)
    ensures Scan(log) == Open <==> OpenedBefore(log, |log|)
  {
    ScanPairs(log);
    ScanSessions(log);
  }
}
