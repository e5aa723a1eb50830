/** The observable history of the subsystem: every effect on the display, on the
    extension library and on task objects, in order. */
module Trace {
  import opened Common

  datatype CanvasParam = CanvasParam(
    centerXInPx: uint32, centerYInPy: uint32, radius: uint32, color: uint32, alpha: nat,
    frameWidth: int32, frameHeight: int32)

  datatype Event =
    | Acquired                                                      // the extension library was acquired
    | Released                                                      // and released
    | Born(task: nat, subscribed: bool)                             // task constructed; monitor subscribed afterwards?
    | Died(task: nat)                                               // task destructed
    | Flushed(node: nat, brightness: uint32, frame: CanvasParam)    // a frame drawn for a brightness was shown
    | DrawFailed(node: nat, brightness: uint32)                     // a draw failed after its brightness was stored
    | Attached(node: nat, screen: nat, at: nat)                     // node put on a screen, at a time in ms
    | Detached(node: nat, screen: nat)

  type Log = seq<Event>

  /** The attach and detach calls made on one surface node. */
  function Lifeline(log: Log, node: nat): seq<Event> {
    if log == [] then []
    else
      var e, before := log[|log| - 1], Lifeline(log[..|log| - 1], node);
      if (e.Attached? || e.Detached?) && e.node == node then before + [e] else before
  }

  function Count(log: Log, e: Event): nat {
    if log == [] then 0
    else Count(log[..|log| - 1], e) + if log[|log| - 1] == e then 1 else 0
  }

  /** The latest construction or destruction of a task. */
  function LastBirthOrDeath(log: Log): Option<Event> {
    if log == [] then None
    else
      var e := log[|log| - 1];
      if e.Born? || e.Died? then Some(e) else LastBirthOrDeath(log[..|log| - 1])
  }

  /** When the light was last turned on. */
  function LastLit(log: Log): nat {
    if log == [] then 0
    else
      var e := log[|log| - 1];
      if e.Attached? then e.at else LastLit(log[..|log| - 1])
  }

  /** The latest draw on a node that got as far as storing its brightness. */
  function LastDraw(log: Log, node: nat): Option<Event> {
    if log == [] then None
    else
      var e := log[|log| - 1];
      if (e.Flushed? || e.DrawFailed?) && e.node == node then Some(e) else LastDraw(log[..|log| - 1], node)
  }

  /** The frame a node currently shows. */
  function Shown(log: Log, node: nat): Option<CanvasParam> {
    if log == [] then None
    else
      var e := log[|log| - 1];
      if e.Flushed? && e.node == node then Some(e.frame) else Shown(log[..|log| - 1], node)
  }

  /** Appends an event; the clauses say how every view of the history changes. */
  function Emit(log: Log, e: Event): (r: Log)
    ensures r == log + [e]
    ensures forall n :: Lifeline(r, n) ==
                         if (e.Attached? || e.Detached?) && e.node == n then Lifeline(log, n) + [e] else Lifeline(log, n)
    ensures forall x :: Count(r, x) == Count(log, x) + if x == e then 1 else 0
    ensures LastBirthOrDeath(r) == if e.Born? || e.Died? then Some(e) else LastBirthOrDeath(log)
    ensures LastLit(r) == if e.Attached? then e.at else LastLit(log)
    ensures forall n :: LastDraw(r, n) == if (e.Flushed? || e.DrawFailed?) && e.node == n then Some(e) else LastDraw(log, n)
    ensures forall n :: Shown(r, n) == if e.Flushed? && e.node == n then Some(e.frame) else Shown(log, n)
  {
    assert (log + [e])[..|log|] == log;
    log + [e]
  }

  function ScreenOf(call: Event): nat {
    match call
    case Attached(_, screen, _) => screen
    case Detached(_, screen) => screen
    case _ => 0
  }

  /** Attach and detach strictly alternate, starting with an attach, all on one screen. */
  ghost predicate Alternating(calls: seq<Event>) {
    forall i :: 0 <= i < |calls| ==>
      && (if i % 2 == 0 then calls[i].Attached? else calls[i].Detached?)
      && calls[i].screen == ScreenOf(calls[0])
  }

  /** The node is on the display after these calls. */
  predicate OnDisplay(calls: seq<Event>) {
    |calls| % 2 == 1
  }

  lemma AlternatingExtend(calls: seq<Event>, e: Event)
    requires Alternating(calls)
    requires if OnDisplay(calls) then e.Detached? else e.Attached?
    requires calls != [] ==> e.screen == ScreenOf(calls[0])
    ensures Alternating(calls + [e]) && OnDisplay(calls + [e]) == !OnDisplay(calls)
  {
  }

  function Attaches(calls: seq<Event>): nat {
    if calls == [] then 0 else Attaches(calls[..|calls| - 1]) + if calls[|calls| - 1].Attached? then 1 else 0
  }

  /** Alternating calls attach as often as they detach, and once more while on display. */
  lemma {:induction false} AlternatingCounts(calls: seq<Event>)
    requires Alternating(calls)
    ensures 2 * Attaches(calls) == |calls| + if OnDisplay(calls) then 1 else 0
  {
    if calls != [] {
      AlternatingCounts(calls[..|calls| - 1]);
    }
  }

  lemma {:induction false} LastDrawOf(log: Log, node: nat)
    ensures var draw := LastDraw(log, node);
            draw.Some? ==> draw.value in log && (draw.value.Flushed? || draw.value.DrawFailed?) && draw.value.node == node
  {
    if log != [] {
      LastDrawOf(log[..|log| - 1], node);
    }
  }
}
