/** What every step of the subsystem keeps. */
module Invariants {
  import opened Common
  import opened Environment
  import opened Trace
  import opened Platform
  import opened BackgroundAlpha
  import opened IlluminationManager
  import opened World
  import Task = IlluminationTask

  // ----- tasks

  /** At most the timer armed last is pending, and its id is the last one given out;
      none is pending while a task with a valid screen is unlit. */
  ghost predicate OneTimer(t: Task.TaskState) {
    && t.timer.pending.Keys <= {t.currTimerId} && 0 !in t.timer.pending
    && t.currTimerId <= t.timer.lastId
    && (t.screenId.Some? && !t.isIlluminationOn ==> t.timer.pending == map[])
  }

  ghost predicate HeldTask(t: Task.TaskState) {
    && t.node.Some? && t.surface == t.node && t.hasDirector && t.hasDestructCallback
    && t.brightness != Task.INVALID_BRIGHTNESS
    && (t.isIlluminationOn ==> t.screenId.Some?)
    && OneTimer(t)
  }

  ghost predicate OrphanTask(t: Task.TaskState) {
    t.node.None? && !t.isIlluminationOn && t.hasDestructCallback && OneTimer(t)
  }

  ghost predicate Orphans(w: World) {
    forall id :: id in w.orphans ==> OrphanTask(w.orphans[id])
  }

  // ----- identities and shared pointers

  function StrongCallbacks(w: World, id: nat): nat {
    w.locked[id] + w.done[id]
  }

  ghost predicate Identities(w: World) {
    var next := w.session.shared.nextTask;
    && (forall id :: id in w.orphans ==> w.orphans[id].id == id < next)
    && (w.session.task.Some? ==> w.session.task.value.id < next && w.session.task.value.id !in w.orphans)
    && (forall id :: id in w.queued ==> id < next)
  }

  /** The shared-pointer count of every task is the number of its holders. */
  ghost predicate References(w: World) {
    && (w.session.task.Some? ==>
          w.session.task.value.references == 1 + StrongCallbacks(w, w.session.task.value.id))
    && (forall id :: id in w.orphans ==> w.orphans[id].references == StrongCallbacks(w, id) > 0)
    && (forall id :: id in w.locked ==> Live(w, id).Some?)
    && (forall id :: id in w.done ==> Live(w, id).Some?)
  }

  ghost predicate Books(w: World) {
    Orphans(w) && Identities(w) && References(w)
  }

  // ----- the display

  /** The node that is lit, if any. */
  function LitNode(s: Session): Option<nat> {
    if s.task.Some? && s.task.value.isIlluminationOn then s.task.value.node else None
  }

  /** Every node's attach and detach calls alternate on one screen, a node is
      on the display exactly if it is `lit`, and nodes not yet handed out are untouched. */
  ghost predicate Nodes(log: Log, lit: Option<nat>, next: nat) {
    forall n: nat ::
      && Alternating(Lifeline(log, n))
      && (OnDisplay(Lifeline(log, n)) <==> lit == Some(n))
      && (next <= n ==> Lifeline(log, n) == [])
  }

  ghost predicate Display(s: Session) {
    && Nodes(s.shared.log, LitNode(s), s.shared.nextNode)
    && (s.task.Some? && s.task.value.node.Some? ==>
          var calls := Lifeline(s.shared.log, s.task.value.node.value);
          && s.task.value.node.value < s.shared.nextNode
          && (calls != [] ==> s.task.value.screenId == Some(ScreenOf(calls[0]))))
  }

  // ----- the redraw cache

  ghost predicate Fresh(opacity: Opacity, brightness: uint32, frame: CanvasParam) {
    opacity(ToInt32(brightness)) == Some(frame.alpha)
  }

  /** The node shows a frame; the cached brightness is that of the latest draw, and
      the canvas has its opacity, if there is one; if that draw succeeded the frame is the one the canvas now describes. */
  ghost predicate CacheOf(log: Log, opacity: Opacity, node: nat, brightness: uint32, canvas: CanvasParam) {
    var draw := LastDraw(log, node);
    && Shown(log, node).Some?
    && Shown(log, node).value == canvas.(alpha := Shown(log, node).value.alpha)
    && draw.Some? && (draw.value.Flushed? || draw.value.DrawFailed?)
    && draw.value.brightness == brightness
    && (opacity(ToInt32(brightness)).Some? ==> Fresh(opacity, brightness, canvas))
    && (draw.value.Flushed? ==>
          draw.value.frame == canvas && Shown(log, node) == Some(canvas) && Fresh(opacity, brightness, canvas))
  }

  ghost predicate Cache(s: Session) {
    s.task.Some? && s.task.value.surface.Some? ==>
      CacheOf(s.shared.log, s.shared.opacity, s.task.value.surface.value, s.task.value.brightness, s.task.value.canvasParam)
  }

  // ----- the library, the screen monitor

  function LiveTasks(w: World): nat {
    |w.orphans.Keys| + if w.session.task.Some? then 1 else 0
  }

  /** Acquires and releases of the library differ by the number of tasks alive. */
  ghost predicate Library(w: World) {
    Count(w.session.shared.log, Acquired) == Count(w.session.shared.log, Released) + LiveTasks(w)
  }

  /** Screen events arrive exactly while a session's task was constructed with
      them arriving and no task has been destructed since. */
  ghost predicate Subscription(s: Session) {
    s.shared.monitor.isSubscribing <==>
      s.task.Some? && LastBirthOrDeath(s.shared.log) == Some(Born(s.task.value.id, true))
  }

  // ----- the light

  /** A callback of this task is on its way to turning it off. */
  predicate TimingOut(w: World, id: nat) {
    w.queued[id] + w.locked[id] > 0
  }

  /** While lit with a timer that could be armed, either that timer is pending
      for one display time after the light came on, or a callback is on its way. */
  ghost predicate Light(w: World) {
    w.session.task.Some? && w.session.task.value.isIlluminationOn ==>
      var t := w.session.task.value;
      && LastLit(w.session.shared.log) <= w.now
      && (t.currTimerId != 0 ==>
            || t.timer.pending == map[t.currTimerId := LastLit(w.session.shared.log) + Task.MAX_DISPLAY_TIME]
            || TimingOut(w, t.id))
  }

  // ----- the parts that concern the session alone

  ghost predicate SessionInv(s: Session) {
    && (s.executor.Some? <==> s.task.Some?)
    && (s.task.Some? ==> HeldTask(s.task.value) && s.task.value.id < s.shared.nextTask)
    && Display(s) && Cache(s) && Subscription(s)
  }

  ghost predicate Inv(w: World) {
    SessionInv(w.session) && Books(w) && Library(w) && Light(w)
  }

  lemma NodesOther(log: Log, e: Event, lit: Option<nat>, next: nat)
    requires Nodes(log, lit, next) && !e.Attached? && !e.Detached?
    ensures Nodes(Emit(log, e), lit, next)
  {
  }

  lemma NodesAttach(log: Log, node: nat, screen: nat, at: nat, next: nat)
    requires Nodes(log, None, next) && node < next
    requires Lifeline(log, node) != [] ==> screen == ScreenOf(Lifeline(log, node)[0])
    ensures Nodes(Emit(log, Attached(node, screen, at)), Some(node), next)
  {
    AlternatingExtend(Lifeline(log, node), Attached(node, screen, at));
  }

  lemma NodesDetach(log: Log, node: nat, screen: nat, next: nat)
    requires Nodes(log, Some(node), next)
    requires Lifeline(log, node) != [] ==> screen == ScreenOf(Lifeline(log, node)[0])
    ensures Nodes(Emit(log, Detached(node, screen)), None, next)
  {
    AlternatingExtend(Lifeline(log, node), Detached(node, screen));
    assert node < next;
  }

  // ----- turning off

  function OffSession(s: Session): Session
    requires s.task.Some?
  {
    var off := Task.TurnedOff(s.task.value, s.shared);
    s.(task := Some(off.task), shared := off.shared)
  }

  /** Turning off the session's task never fails, and never leaves it lit. */
  lemma OffKeeps(s: Session)
    requires SessionInv(s) && s.task.Some?
    ensures Task.TurnedOff(s.task.value, s.shared).code == SUCCESS
    ensures !OffSession(s).task.value.isIlluminationOn
    ensures SessionInv(OffSession(s))
  {
    var t := s.task.value;
    if t.isIlluminationOn {
      NodesDetach(s.shared.log, t.node.value, t.screenId.value, s.shared.nextNode);
    }
  }

  // ----- turning on

  /** Nothing happened to any display, to the library, or to the life of a task. */
  ghost predicate Quiet(before: Log, after: Log) {
    && (forall n: nat :: Lifeline(after, n) == Lifeline(before, n))
    && Count(after, Acquired) == Count(before, Acquired)
    && Count(after, Released) == Count(before, Released)
    && LastBirthOrDeath(after) == LastBirthOrDeath(before)
    && LastLit(after) == LastLit(before)
  }

  /** Drawing changes only the cached brightness, the alpha and the draw events,
      keeps the cache right, and makes it right the first time it succeeds. */
  lemma DrawEffect(t: Task.TaskState, sh: Shared, env: Env)
    ensures var d := Task.Drawn(t, sh, env);
            && d.task == t.(brightness := d.task.brightness,
                            canvasParam := t.canvasParam.(alpha := d.task.canvasParam.alpha))
            && d.shared == sh.(log := d.shared.log)
            && (t.brightness != Task.INVALID_BRIGHTNESS || d.code == SUCCESS ==>
                  d.task.brightness != Task.INVALID_BRIGHTNESS)
  {
  }

  lemma DrawQuiet(t: Task.TaskState, sh: Shared, env: Env)
    ensures Quiet(sh.log, Task.Drawn(t, sh, env).shared.log)
  {
  }

  lemma DrawCache(t: Task.TaskState, sh: Shared, env: Env)
    requires t.surface.Some?
    requires t.brightness == Task.INVALID_BRIGHTNESS
             || CacheOf(sh.log, sh.opacity, t.surface.value, t.brightness, t.canvasParam)
    ensures var d := Task.Drawn(t, sh, env);
            t.brightness != Task.INVALID_BRIGHTNESS || d.code == SUCCESS ==>
              CacheOf(d.shared.log, sh.opacity, t.surface.value, d.task.brightness, d.task.canvasParam)
  {
  }

  function OnSession(s: Session, env: Env, now: nat): (r: Session)
    requires s.task.Some?
    ensures r.task.Some? && r.executor == s.executor
  {
    var on := Task.TurnedOn(s.task.value, s.shared, env, now);
    s.(task := Some(on.task), shared := on.shared)
  }

  lemma DrawKeeps(s: Session, env: Env)
    requires SessionInv(s) && s.task.Some?
    ensures var d := Task.Drawn(s.task.value, s.shared, env);
            SessionInv(s.(task := Some(d.task), shared := d.shared))
  {
    DrawEffect(s.task.value, s.shared, env);
    DrawQuiet(s.task.value, s.shared, env);
    DrawCache(s.task.value, s.shared, env);
  }

  lemma LitUpKeeps(s: Session, env: Env, now: nat)
    requires SessionInv(s) && s.task.Some? && !s.task.value.isIlluminationOn
    ensures var on := Task.LitUp(s.task.value, s.shared, env, now);
            SessionInv(s.(task := Some(on.task), shared := on.shared))
  {
    var t := s.task.value;
    if t.screenId.Some? {
      NodesAttach(s.shared.log, t.node.value, t.screenId.value, now, s.shared.nextNode);
    }
  }

  lemma OnKeeps(s: Session, env: Env, now: nat)
    requires SessionInv(s) && s.task.Some?
    ensures SessionInv(OnSession(s, env, now))
  {
    var t := s.task.value;
    if s.shared.monitor.isOn && !t.isIlluminationOn {
      var d := Task.Drawn(t, s.shared, env);
      DrawEffect(t, s.shared, env);
      DrawKeeps(s, env);
      LitUpKeeps(s.(task := Some(d.task), shared := d.shared), env, now);
    }
  }

  // ----- ending

  lemma EndKeeps(s: Session)
    requires SessionInv(s)
    ensures SessionInv(Ended(s).session)
    ensures Ended(s).session.task.None?
    ensures Ended(s).orphan.Some? ==> s.task.Some? && OrphanTask(Ended(s).orphan.value)
  {
    if s.task.Some? {
      OffKeeps(s);
      var disabled := Task.Disabled(s.task.value, s.shared);
      NodesOther(disabled.shared.log, Died(s.task.value.id), None, s.shared.nextNode);
      NodesOther(Emit(disabled.shared.log, Died(s.task.value.id)), Released, None, s.shared.nextNode);
    }
  }

  // ----- enabling

  lemma BornKeeps(s: Session, env: Env)
    requires SessionInv(s) && s.task.None?
    ensures var sh := Task.AfterConstruct(s.shared, env);
            && Nodes(sh.log, None, sh.nextNode) && sh.nextTask == s.shared.nextTask + 1
            && (sh.monitor.isSubscribing <==> LastBirthOrDeath(sh.log) == Some(Born(s.shared.nextTask, true)))
  {
  }

  lemma DestructKeeps(t: Task.TaskState, sh: Shared)
    requires Nodes(sh.log, None, sh.nextNode)
    ensures SessionInv(Session(None, None, Task.AfterDestruct(t, sh)))
  {
    NodesOther(sh.log, Died(t.id), None, sh.nextNode);
    NodesOther(Emit(sh.log, Died(t.id)), Released, None, sh.nextNode);
  }

  lemma EnableEffect(t: Task.TaskState, sh: Shared, x: uint32, y: uint32, radius: uint32, color: uint32, env: Env)
    requires t.brightness == Task.INVALID_BRIGHTNESS && t.timer.pending == map[] && t.currTimerId <= t.timer.lastId
    requires !t.isIlluminationOn && t.hasDestructCallback
    ensures var e := Task.Enabled(t, sh, x, y, radius, color, env);
            && e.shared == sh.(log := e.shared.log, nextNode := e.shared.nextNode)
            && sh.nextNode <= e.shared.nextNode
            && Quiet(sh.log, e.shared.log)
            && e.task.id == t.id && e.task.references == t.references
            && e.task.hasDestructCallback && e.task.timer == t.timer
            && (e.code == SUCCESS ==>
                  && HeldTask(e.task) && !e.task.isIlluminationOn
                  && e.task.node == Some(sh.nextNode) && sh.nextNode < e.shared.nextNode
                  && CacheOf(e.shared.log, sh.opacity, sh.nextNode, e.task.brightness, e.task.canvasParam))
  {
    var canvas := if env.display.Some? then Task.CanvasFor(x, y, radius, color, env.display.value) else None;
    if canvas.Some? {
      var prepared := t.(screenId := env.screenId, hasDirector := env.directorOk, canvasParam := canvas.value,
                         node := Some(sh.nextNode), surface := Some(sh.nextNode));
      DrawEffect(prepared, sh.(nextNode := sh.nextNode + 1), env);
      DrawQuiet(prepared, sh.(nextNode := sh.nextNode + 1), env);
      DrawCache(prepared, sh.(nextNode := sh.nextNode + 1), env);
    }
  }

  lemma StartKeeps(s: Session, executor: Executor, p: EnableParam, env: Env)
    requires SessionInv(s) && s.task.None?
    ensures var (started, sh) := Started(s.shared, p, env);
            SessionInv(if started.Some? then Session(Some(executor), started, sh) else Session(None, None, sh))
  {
    var born := Task.NewTask(s.shared.nextTask).(hasDestructCallback := true);
    var sh := Task.AfterConstruct(s.shared, env);
    BornKeeps(s, env);
    if ParamAccepted(p) {
      var e := Task.Enabled(born, sh, p.centerX, p.centerY, p.radius, p.color, env);
      EnableEffect(born, sh, p.centerX, p.centerY, p.radius, p.color, env);
      DestructKeeps(e.task, e.shared);
    } else {
      DestructKeeps(born, sh);
    }
  }

  // ----- every step

  lemma InitialInv(opacity: Opacity)
    ensures Inv(Initial(opacity))
  {
  }

  ghost predicate SameLibrary(before: Log, after: Log) {
    Count(after, Acquired) == Count(before, Acquired) && Count(after, Released) == Count(before, Released)
  }

  lemma OffEffect(t: Task.TaskState, sh: Shared)
    ensures var off := Task.TurnedOff(t, sh);
            && off.task == t.(timer := off.task.timer, isIlluminationOn := off.task.isIlluminationOn)
            && off.shared == sh.(log := off.shared.log)
            && SameLibrary(sh.log, off.shared.log)
            && (OneTimer(t) ==> OneTimer(off.task))
  {
    if OneTimer(t) {
      assert t.timer.pending - {t.currTimerId} == map[];
    }
  }

  /** A step that only touches the fields of the session's task keeps everything
      that is not about the session alone, but for the light. */
  lemma SameTaskKeeps(w: World, s: Session)
    requires Inv(w) && w.session.task.Some? && s.task.Some?
    requires s.task.value.id == w.session.task.value.id && s.task.value.references == w.session.task.value.references
    requires s.shared.nextTask == w.session.shared.nextTask && SameLibrary(w.session.shared.log, s.shared.log)
    ensures var w' := w.(session := s);
            Books(w') && Library(w')
  {
    var w' := w.(session := s);
    assert forall id :: Live(w, id).Some? == Live(w', id).Some?;
  }

  lemma InvTurnOff(w: World, executor: Executor)
    requires Inv(w)
    ensures Inv(Adopt(w, TurnOff(w.session, executor)))
  {
    if w.session.task.Some? {
      OffKeeps(w.session);
      OffEffect(w.session.task.value, w.session.shared);
      SameTaskKeeps(w, OffSession(w.session));
    }
  }

  lemma LitUpEffect(t: Task.TaskState, sh: Shared, env: Env, now: nat)
    requires t.node.Some? && !t.isIlluminationOn
    ensures var on := Task.LitUp(t, sh, env, now);
            && on.task.id == t.id && on.task.references == t.references && on.task.screenId == t.screenId
            && on.shared == sh.(log := on.shared.log)
            && SameLibrary(sh.log, on.shared.log)
            && (on.task.isIlluminationOn ==>
                  && LastLit(on.shared.log) == now
                  && (OneTimer(t) && on.task.currTimerId != 0 ==>
                        on.task.timer.pending == map[on.task.currTimerId := now + Task.MAX_DISPLAY_TIME]))
  {
    if OneTimer(t) {
      assert t.timer.pending - {t.currTimerId} == map[];
    }
  }

  lemma OnEffect(t: Task.TaskState, sh: Shared, env: Env, now: nat)
    ensures var on := Task.TurnedOn(t, sh, env, now);
            && on.task.id == t.id && on.task.references == t.references && on.task.screenId == t.screenId
            && on.shared == sh.(log := on.shared.log)
            && SameLibrary(sh.log, on.shared.log)
            && (t.isIlluminationOn ==> on == Task.Outcome(t, sh, if t.node.Some? then SUCCESS else GENERAL_ERROR))
            && (!t.isIlluminationOn && on.task.isIlluminationOn ==>
                  && LastLit(on.shared.log) == now
                  && (OneTimer(t) && on.task.currTimerId != 0 ==>
                        on.task.timer.pending == map[on.task.currTimerId := now + Task.MAX_DISPLAY_TIME]))
  {
    if t.node.Some? && sh.monitor.isOn && !t.isIlluminationOn {
      DrawEffect(t, sh, env);
      DrawQuiet(t, sh, env);
      var d := Task.Drawn(t, sh, env);
      LitUpEffect(d.task, d.shared, env, now);
    }
  }

  /** The light keeps its promise when it stays as it was, or comes on now. */
  lemma LightAgain(w: World, t: Task.TaskState, sh: Shared)
    requires Light(w) && w.session.task.Some? && t.id == w.session.task.value.id
    requires w.session.task.value.isIlluminationOn ==> t == w.session.task.value && sh == w.session.shared
    requires !w.session.task.value.isIlluminationOn && t.isIlluminationOn ==>
               && LastLit(sh.log) == w.now
               && (t.currTimerId != 0 ==> t.timer.pending == map[t.currTimerId := w.now + Task.MAX_DISPLAY_TIME])
    ensures Light(w.(session := w.session.(task := Some(t), shared := sh)))
  {
  }

  lemma OnLight(w: World, env: Env)
    requires Light(w) && w.session.task.Some? && OneTimer(w.session.task.value)
    ensures Light(w.(session := OnSession(w.session, env, w.now)))
  {
    var on := Task.TurnedOn(w.session.task.value, w.session.shared, env, w.now);
    OnEffect(w.session.task.value, w.session.shared, env, w.now);
    LightAgain(w, on.task, on.shared);
  }

  lemma InvTurnOn(w: World, executor: Executor, env: Env)
    requires Inv(w)
    ensures Inv(Adopt(w, TurnOn(w.session, executor, env, w.now)))
  {
    if w.session.executor == Some(executor) {
      var s := OnSession(w.session, env, w.now);
      OnKeeps(w.session, env, w.now);
      OnEffect(w.session.task.value, w.session.shared, env, w.now);
      SameTaskKeeps(w, s);
      OnLight(w, env);
      assert Adopt(w, TurnOn(w.session, executor, env, w.now)) == w.(session := s);
    }
  }

  lemma EndEffect(t: Task.TaskState, sh: Shared)
    requires t.hasDestructCallback
    ensures var d := Task.Disabled(t, sh);
            && SameLibrary(sh.log, d.shared.log)
            && d.shared.nextTask == sh.nextTask
            && d.task.id == t.id && d.task.references == t.references && d.task.hasDestructCallback
    ensures var sh' := Task.AfterDestruct(t, sh);
            && Count(sh'.log, Acquired) == Count(sh.log, Acquired)
            && Count(sh'.log, Released) == Count(sh.log, Released) + 1
            && sh'.nextTask == sh.nextTask && LastLit(sh'.log) == LastLit(sh.log)
  {
    OffEffect(t, sh);
  }

  lemma InvEnded(w: World)
    requires Inv(w)
    ensures Inv(Adopt(w, Ended(w.session)))
  {
    EndKeeps(w.session);
    if w.session.task.Some? {
      EndBooks(w, Ended(w.session));
    }
  }

  lemma EndReply(s: Session)
    requires SessionInv(s) && s.task.Some?
    ensures var r, t := Ended(s), s.task.value;
            && r.session.task.None? && r.session.shared.nextTask == s.shared.nextTask
            && (r.orphan.Some? <==> 1 < t.references)
            && (r.orphan.Some? ==> r.orphan.value.id == t.id && r.orphan.value.references == t.references - 1)
            && Count(r.session.shared.log, Acquired) == Count(s.shared.log, Acquired)
            && Count(r.session.shared.log, Released) == Count(s.shared.log, Released) + if r.orphan.Some? then 0 else 1
  {
    var t := s.task.value;
    var d := Task.Disabled(t, s.shared);
    EndEffect(t, s.shared);
    EndEffect(d.task, d.shared);
  }

  /** Letting go of the session's task moves it to the orphans if a callback still holds it. */
  lemma EndBooks(w: World, reply: Reply)
    requires Inv(w) && w.session.task.Some? && reply == Ended(w.session)
    ensures Books(Adopt(w, reply)) && Library(Adopt(w, reply))
  {
    EndKeeps(w.session);
    EndReply(w.session);
    MoveBooks(w, reply);
  }

  lemma MoveBooks(w: World, reply: Reply)
    requires Books(w) && Library(w) && w.session.task.Some?
    requires var t := w.session.task.value;
             && reply.session.task.None? && reply.session.shared.nextTask == w.session.shared.nextTask
             && (reply.orphan.Some? <==> 1 < t.references)
             && (reply.orphan.Some? ==>
                   && reply.orphan.value.id == t.id && reply.orphan.value.references == t.references - 1
                   && OrphanTask(reply.orphan.value))
             && Count(reply.session.shared.log, Acquired) == Count(w.session.shared.log, Acquired)
             && Count(reply.session.shared.log, Released) ==
                Count(w.session.shared.log, Released) + if reply.orphan.Some? then 0 else 1
    ensures Books(Adopt(w, reply)) && Library(Adopt(w, reply))
  {
    if reply.orphan.Some? {
      OrphanBooks(w, reply.session, reply.orphan.value);
      assert Adopt(w, reply).orphans.Keys == w.orphans.Keys + {w.session.task.value.id};
    } else {
      GoneBooks(w, reply.session);
    }
  }

  lemma OrphanBooks(w: World, s: Session, t: Task.TaskState)
    requires Books(w) && w.session.task.Some? && s.task.None? && s.shared.nextTask == w.session.shared.nextTask
    requires t.id == w.session.task.value.id && OrphanTask(t)
    requires t.references == w.session.task.value.references - 1 > 0
    ensures var w' := w.(session := s, orphans := w.orphans[t.id := t]);
            Books(w')
  {
    var w' := w.(session := s, orphans := w.orphans[t.id := t]);
    assert forall i :: Live(w', i).Some? == Live(w, i).Some?;
  }

  lemma GoneBooks(w: World, s: Session)
    requires Books(w) && w.session.task.Some? && w.session.task.value.references == 1
    requires s.task.None? && s.shared.nextTask == w.session.shared.nextTask
    ensures Books(w.(session := s))
  {
    assert forall i :: i != w.session.task.value.id ==> Live(w.(session := s), i) == Live(w, i);
  }

  lemma StartEffect(sh: Shared, p: EnableParam, env: Env)
    ensures var (started, sh') := Started(sh, p, env);
            && sh'.nextTask == sh.nextTask + 1
            && Count(sh'.log, Acquired) == Count(sh.log, Acquired)
            && Count(sh'.log, Released) == Count(sh.log, Released) + (if started.Some? then 0 else 1)
            && (started.Some? ==>
                  started.value.id == sh.nextTask && started.value.references == 1 && !started.value.isIlluminationOn)
  {
    var born := Task.NewTask(sh.nextTask).(hasDestructCallback := true);
    var made := Task.AfterConstruct(sh, env);
    EnableEffect(born, made, p.centerX, p.centerY, p.radius, p.color, env);
    var e := Task.Enabled(born, made, p.centerX, p.centerY, p.radius, p.color, env);
    EndEffect(born, made);
    EndEffect(e.task, e.shared);
  }

  lemma AcquireKeeps(s: Session, env: Env)
    requires SessionInv(s) && s.task.None?
    ensures SessionInv(s.(shared := AfterAcquire(s.shared, env).0))
    ensures SessionInv(s.(shared := WithEvent(AfterAcquire(s.shared, env).0, Released)))
  {
    var acquired := AfterAcquire(s.shared, env).0;
    NodesOther(s.shared.log, Acquired, None, s.shared.nextNode);
    NodesOther(acquired.log, Released, None, s.shared.nextNode);
  }

  lemma EnableKeeps(s: Session, executor: Executor, p: EnableParam, env: Env)
    requires SessionInv(s) && s.task.None?
    ensures SessionInv(Enable(s, executor, p, env).session)
  {
    AcquireKeeps(s, env);
    StartKeeps(s.(shared := AfterAcquire(s.shared, env).0), executor, p, env);
  }

  lemma EnableCounts(s: Session, executor: Executor, p: EnableParam, env: Env)
    requires s.executor.None? && s.task.None?
    ensures var r := Enable(s, executor, p, env);
            && r.orphan.None?
            && s.shared.nextTask <= r.session.shared.nextTask
            && (r.session.task.Some? ==>
                  && r.session.task.value.id >= s.shared.nextTask
                  && r.session.task.value.references == 1 && !r.session.task.value.isIlluminationOn)
            && Count(r.session.shared.log, Acquired) - Count(r.session.shared.log, Released) ==
               Count(s.shared.log, Acquired) - Count(s.shared.log, Released) + if r.session.task.Some? then 1 else 0
  {
    StartEffect(AfterAcquire(s.shared, env).0, p, env);
  }

  lemma NewBooks(w: World, s: Session)
    requires Books(w) && w.session.task.None?
    requires w.session.shared.nextTask <= s.shared.nextTask
    requires s.task.Some? ==>
               && w.session.shared.nextTask <= s.task.value.id < s.shared.nextTask
               && s.task.value.references == 1
    ensures Books(w.(session := s))
  {
    if s.task.Some? {
      assert s.task.value.id !in w.locked && s.task.value.id !in w.done by {
        assert Live(w, s.task.value.id).None?;
      }
    }
    assert forall id :: Live(w, id).Some? ==> Live(w.(session := s), id).Some?;
  }

  lemma InvEnable(w: World, executor: Executor, p: EnableParam, env: Env)
    requires Inv(w)
    ensures Inv(Adopt(w, Enable(w.session, executor, p, env)))
  {
    if w.session.task.None? {
      EnableKeeps(w.session, executor, p, env);
      EnableCounts(w.session, executor, p, env);
      NewBooks(w, Enable(w.session, executor, p, env).session);
    }
  }

  lemma InvCommand(w: World, executor: Option<Executor>, command: SaCommand, env: Env)
    requires Inv(w)
    ensures Inv(Perform(w, executor, command, env))
  {
    if executor.Some? {
      match command.id
      case ENABLE => InvEnable(w, executor.value, command.param, env);
      case DISABLE => InvEnded(w);
      case TURN_ON => InvTurnOn(w, executor.value, env);
      case TURN_OFF => InvTurnOff(w, executor.value);
      case OTHER(_) =>
    }
  }

  lemma ReplaceOrphan(w: World, id: nat, t: Task.TaskState)
    requires Books(w) && id in w.orphans && t.id == id && t.references == w.orphans[id].references && OrphanTask(t)
    ensures Books(w.(orphans := w.orphans[id := t])) && w.orphans[id := t].Keys == w.orphans.Keys
  {
    var w' := w.(orphans := w.orphans[id := t]);
    assert forall i :: Live(w', i).Some? == Live(w, i).Some?;
  }

  lemma ReplaceHeld(w: World, t: Task.TaskState)
    requires Books(w) && w.session.task.Some?
    requires t.id == w.session.task.value.id && t.references == w.session.task.value.references
    ensures Books(w.(session := w.session.(task := Some(t))))
  {
    var w' := w.(session := w.session.(task := Some(t)));
    assert forall i :: Live(w', i).Some? == Live(w, i).Some?;
  }

  /** Replacing a live task by one with the same holders. */
  lemma ReplaceBooks(w: World, id: nat, t: Task.TaskState)
    requires Books(w) && Live(w, id).Some?
    requires t.id == id && t.references == Live(w, id).value.references
    requires id in w.orphans ==> OrphanTask(t)
    ensures var w' := WithTask(w, id, Some(t));
            && Books(w') && LiveTasks(w') == LiveTasks(w)
            && w'.session == if id in w.orphans then w.session else w.session.(task := Some(t))
  {
    if id in w.orphans {
      ReplaceOrphan(w, id, t);
      assert WithTask(w, id, Some(t)) == w.(orphans := w.orphans[id := t]);
    } else {
      ReplaceHeld(w, t);
      assert WithTask(w, id, Some(t)) == w.(session := w.session.(task := Some(t)));
    }
  }

  lemma FireSession(s: Session, timerId: nat)
    requires SessionInv(s) && s.task.Some?
    ensures SessionInv(s.(task := Some(s.task.value.(timer := s.task.value.timer.Without(timerId)))))
  {
  }

  /** The light keeps its promise if its task and its clock stay and no callback of its task is lost. */
  lemma SameLight(w: World, w': World)
    requires Light(w) && w'.now == w.now && LastLit(w'.session.shared.log) == LastLit(w.session.shared.log)
    requires w'.session.task.Some? ==>
               && w.session.task.Some?
               && var t, t' := w.session.task.value, w'.session.task.value;
                  && t'.id == t.id && t'.isIlluminationOn == t.isIlluminationOn
                  && t'.timer == t.timer && t'.currTimerId == t.currTimerId
                  && (TimingOut(w, t.id) ==> TimingOut(w', t.id))
    ensures Light(w')
  {
  }

  lemma FireLight(w: World, id: nat, timerId: nat)
    requires Inv(w) && CanStep(w, TimerFires(id, timerId))
    ensures Light(Fire(w, id, timerId))
  {
  }

  lemma InvFire(w: World, id: nat, timerId: nat)
    requires Inv(w) && CanStep(w, TimerFires(id, timerId))
    ensures Inv(Fire(w, id, timerId))
  {
    var t := Live(w, id).value;
    var replaced := WithTask(w, id, Some(t.(timer := t.timer.Without(timerId))));
    ReplaceBooks(w, id, t.(timer := t.timer.Without(timerId)));
    if id !in w.orphans {
      FireSession(w.session, timerId);
    }
    FireLight(w, id, timerId);
    QueueBooks(replaced, w.queued + multiset{id});
    assert Fire(w, id, timerId) == replaced.(queued := w.queued + multiset{id});
  }

  lemma QueueBooks(w: World, queued: multiset<nat>)
    requires Books(w)
    requires forall id :: id in queued ==> id < w.session.shared.nextTask
    ensures Books(w.(queued := queued))
  {
    assert forall i :: Live(w.(queued := queued), i) == Live(w, i);
  }

  // ----- callbacks take and give up their references

  /** A live task with another number of references. */
  function WithReferences(t: Task.TaskState, n: nat): Task.TaskState {
    t.(references := n)
  }

  lemma SessionReferences(s: Session, n: nat)
    requires SessionInv(s) && s.task.Some?
    ensures SessionInv(s.(task := Some(WithReferences(s.task.value, n))))
  {
  }

  function OrphanLocked(w: World, id: nat): World
    requires id in w.orphans
  {
    w.(orphans := w.orphans[id := WithReferences(w.orphans[id], w.orphans[id].references + 1)],
       locked := w.locked + multiset{id})
  }

  function HeldLocked(w: World): World
    requires w.session.task.Some?
  {
    var t := w.session.task.value;
    w.(session := w.session.(task := Some(WithReferences(t, t.references + 1))), locked := w.locked + multiset{t.id})
  }

  lemma LockIs(w: World, id: nat)
    requires Books(w)
    ensures var taken := w.(queued := w.queued - multiset{id});
            Lock(w, id) == if id in w.orphans then OrphanLocked(taken, id)
                           else if Live(w, id).Some? then HeldLocked(taken) else taken
  {
  }

  lemma LockOrphan(w: World, id: nat)
    requires Books(w) && id in w.orphans
    ensures Books(OrphanLocked(w, id)) && OrphanLocked(w, id).orphans.Keys == w.orphans.Keys
  {
    assert forall i :: Live(OrphanLocked(w, id), i).Some? == Live(w, i).Some?;
  }

  lemma LockHeld(w: World)
    requires Books(w) && w.session.task.Some?
    ensures Books(HeldLocked(w))
  {
    assert forall i :: Live(HeldLocked(w), i).Some? == Live(w, i).Some?;
  }

  lemma InvLockOrphan(w: World, id: nat)
    requires Inv(w) && id in w.queued && id in w.orphans
    ensures Inv(OrphanLocked(w.(queued := w.queued - multiset{id}), id))
  {
    var taken := w.(queued := w.queued - multiset{id});
    QueueBooks(w, w.queued - multiset{id});
    LockOrphan(taken, id);
    SameLight(w, OrphanLocked(taken, id));
  }

  lemma InvLockHeld(w: World, id: nat)
    requires Inv(w) && id in w.queued && w.session.task.Some? && w.session.task.value.id == id
    ensures Inv(HeldLocked(w.(queued := w.queued - multiset{id})))
  {
    var taken := w.(queued := w.queued - multiset{id});
    QueueBooks(w, w.queued - multiset{id});
    LockHeld(taken);
    SessionReferences(w.session, w.session.task.value.references + 1);
    SameLight(w, HeldLocked(taken));
  }

  lemma InvLockNone(w: World, id: nat)
    requires Inv(w) && id in w.queued && Live(w, id).None?
    ensures Inv(w.(queued := w.queued - multiset{id}))
  {
    QueueBooks(w, w.queued - multiset{id});
    SameLight(w, w.(queued := w.queued - multiset{id}));
  }

  lemma InvLock(w: World, id: nat)
    requires Inv(w) && CanStep(w, CallbackLocks(id))
    ensures Inv(Lock(w, id))
  {
    LockIs(w, id);
    if id in w.orphans {
      InvLockOrphan(w, id);
    } else if Live(w, id).Some? {
      InvLockHeld(w, id);
    } else {
      InvLockNone(w, id);
    }
  }

  /** A callback that has run still holds its task. */
  lemma RanBooks(w: World, id: nat)
    requires Books(w) && id in w.locked
    ensures Books(w.(locked := w.locked - multiset{id}, done := w.done + multiset{id}))
  {
    var w' := w.(locked := w.locked - multiset{id}, done := w.done + multiset{id});
    assert forall i :: Live(w', i) == Live(w, i);
    assert forall i :: StrongCallbacks(w', i) == StrongCallbacks(w, i);
  }

  lemma RunLight(w: World, id: nat)
    requires Inv(w) && id in w.locked
    ensures Light(RunCallback(w, id))
  {
    if id !in w.orphans {
      OffKeeps(w.session);
    }
  }

  lemma SharedBooks(w: World, log: Log)
    requires Books(w)
    ensures Books(WithShared(w, w.session.shared.(log := log)))
  {
    assert forall i :: Live(WithShared(w, w.session.shared.(log := log)), i) == Live(w, i);
  }

  lemma InvRunCallback(w: World, id: nat)
    requires Inv(w) && CanStep(w, CallbackRuns(id))
    ensures Inv(RunCallback(w, id))
  {
    var t := Live(w, id).value;
    var off := Task.TurnedOff(t, w.session.shared);
    OffEffect(t, w.session.shared);
    if id !in w.orphans {
      OffKeeps(w.session);
    }
    var logged := WithShared(w, off.shared);
    SharedBooks(w, off.shared.log);
    ReplaceBooks(logged, id, off.task);
    RanBooks(WithTask(logged, id, Some(off.task)), id);
    RunLight(w, id);
    RunLibrary(w, id);
  }

  lemma RunLibrary(w: World, id: nat)
    requires Inv(w) && id in w.locked
    ensures Library(RunCallback(w, id))
    ensures SessionInv(RunCallback(w, id).session)
  {
    var t := Live(w, id).value;
    var off := Task.TurnedOff(t, w.session.shared);
    OffEffect(t, w.session.shared);
    if id in w.orphans {
      assert RunCallback(w, id).orphans.Keys == w.orphans.Keys;
    } else {
      OffKeeps(w.session);
      assert RunCallback(w, id).session == OffSession(w.session);
    }
  }

  /** What is left when a callback gives up its reference: to an orphan that dies
      with it, to an orphan that lives on, or to the session's task. */
  function LastReturned(w: World, id: nat): World
    requires id in w.orphans
  {
    WithShared(w, Task.AfterDestruct(w.orphans[id], w.session.shared))
      .(orphans := w.orphans - {id}, done := w.done - multiset{id})
  }

  function OrphanReturned(w: World, id: nat): World
    requires id in w.orphans && w.orphans[id].references > 0
  {
    w.(orphans := w.orphans[id := WithReferences(w.orphans[id], w.orphans[id].references - 1)],
       done := w.done - multiset{id})
  }

  function HeldReturned(w: World): World
    requires w.session.task.Some? && w.session.task.value.references > 0
  {
    var t := w.session.task.value;
    w.(session := w.session.(task := Some(WithReferences(t, t.references - 1))), done := w.done - multiset{t.id})
  }

  lemma DoneTask(w: World, id: nat)
    requires Books(w) && id in w.done
    ensures id !in w.orphans ==>
              w.session.task.Some? && w.session.task.value.id == id && w.session.task.value.references > 1
    ensures id in w.orphans ==>
              w.orphans[id].references > 0 && (w.session.task.Some? ==> w.session.task.value.id != id)
  {
    assert Live(w, id).Some?;
  }

  lemma ReturnIs(w: World, id: nat)
    requires Books(w) && id in w.done
    ensures id !in w.orphans ==>
              w.session.task.Some? && w.session.task.value.id == id && w.session.task.value.references > 1
    ensures id in w.orphans ==> w.orphans[id].references > 0
    ensures Return(w, id) == if id !in w.orphans then HeldReturned(w)
                             else if w.orphans[id].references == 1 then LastReturned(w, id)
                             else OrphanReturned(w, id)
  {
    DoneTask(w, id);
    ReturnOf(w, id);
  }

  lemma ReturnOf(w: World, id: nat)
    requires id !in w.orphans ==>
               w.session.task.Some? && w.session.task.value.id == id && w.session.task.value.references > 1
    requires id in w.orphans ==>
               w.orphans[id].references > 0 && (w.session.task.Some? ==> w.session.task.value.id != id)
    ensures Return(w, id) == if id !in w.orphans then HeldReturned(w)
                             else if w.orphans[id].references == 1 then LastReturned(w, id)
                             else OrphanReturned(w, id)
  {
  }

  lemma ReturnLast(w: World, id: nat)
    requires Books(w) && id in w.done && id in w.orphans && w.orphans[id].references == 1
    ensures Books(LastReturned(w, id)) && LastReturned(w, id).orphans.Keys == w.orphans.Keys - {id}
  {
    var w' := LastReturned(w, id);
    assert w.done[id] == 1 && w.locked[id] == 0;
    assert id !in w'.done && id !in w'.locked;
    assert forall i :: i != id ==> Live(w', i).Some? == Live(w, i).Some?;
    assert forall i :: i != id ==> StrongCallbacks(w', i) == StrongCallbacks(w, i);
  }

  lemma ReturnOrphan(w: World, id: nat)
    requires Books(w) && id in w.done && id in w.orphans && w.orphans[id].references > 1
    ensures Books(OrphanReturned(w, id)) && OrphanReturned(w, id).orphans.Keys == w.orphans.Keys
  {
    assert forall i :: Live(OrphanReturned(w, id), i).Some? == Live(w, i).Some?;
  }

  lemma ReturnHeld(w: World)
    requires Books(w) && w.session.task.Some? && w.session.task.value.id in w.done
    ensures w.session.task.value.references > 1 && Books(HeldReturned(w))
  {
    assert forall i :: Live(HeldReturned(w), i).Some? == Live(w, i).Some?;
  }

  lemma DestructOther(s: Session, t: Task.TaskState)
    requires SessionInv(s) && t.hasDestructCallback
    ensures SessionInv(s.(shared := Task.AfterDestruct(t, s.shared)))
  {
    NodesOther(s.shared.log, Died(t.id), LitNode(s), s.shared.nextNode);
    NodesOther(Emit(s.shared.log, Died(t.id)), Released, LitNode(s), s.shared.nextNode);
  }

  lemma InvReturnLast(w: World, id: nat)
    requires Inv(w) && id in w.done && id in w.orphans && w.orphans[id].references == 1
    ensures Inv(LastReturned(w, id))
  {
    ReturnLast(w, id);
    EndEffect(w.orphans[id], w.session.shared);
    DestructOther(w.session, w.orphans[id]);
    SameLight(w, LastReturned(w, id));
  }

  lemma InvReturnOrphan(w: World, id: nat)
    requires Inv(w) && id in w.done && id in w.orphans && w.orphans[id].references > 1
    ensures Inv(OrphanReturned(w, id))
  {
    ReturnOrphan(w, id);
    SameLight(w, OrphanReturned(w, id));
  }

  lemma InvReturnHeld(w: World)
    requires Inv(w) && w.session.task.Some? && w.session.task.value.id in w.done
    ensures w.session.task.value.references > 1 && Inv(HeldReturned(w))
  {
    ReturnHeld(w);
    SessionReferences(w.session, w.session.task.value.references - 1);
    SameLight(w, HeldReturned(w));
  }

  lemma InvReturn(w: World, id: nat)
    requires Inv(w) && CanStep(w, CallbackReturns(id))
    ensures Inv(Return(w, id))
  {
    ReturnIs(w, id);
    if id !in w.orphans {
      InvReturnHeld(w);
    } else if w.orphans[id].references == 1 {
      InvReturnLast(w, id);
    } else {
      InvReturnOrphan(w, id);
    }
  }

  /** The books depend on the tasks and their callbacks only. */
  lemma SameBooks(w: World, w': World)
    requires Books(w)
    requires w'.session.task == w.session.task && w'.session.shared.nextTask == w.session.shared.nextTask
    requires w'.orphans == w.orphans && w'.queued == w.queued && w'.locked == w.locked && w'.done == w.done
    ensures Books(w')
  {
    assert forall i :: Live(w', i) == Live(w, i);
  }

  lemma LightLater(w: World, w': World)
    requires Light(w) && w'.session == w.session && w.now <= w'.now
    requires w'.queued == w.queued && w'.locked == w.locked
    ensures Light(w')
  {
  }

  /** Steps outside the session and its callbacks. */
  lemma InvElsewhere(w: World, w': World)
    requires Inv(w) && w'.session == w.session && w.now <= w'.now
    requires w'.orphans == w.orphans && w'.queued == w.queued && w'.locked == w.locked && w'.done == w.done
    ensures Inv(w')
  {
    SameBooks(w, w');
    LightLater(w, w');
    assert SessionInv(w'.session);
    assert LiveTasks(w') == LiveTasks(w);
  }

  lemma ScreenSession(s: Session, isOn: bool)
    requires SessionInv(s)
    ensures SessionInv(s.(shared := s.shared.(monitor := s.shared.monitor.(isOn := isOn))))
  {
  }

  lemma InvScreen(w: World, isOn: bool)
    requires Inv(w)
    ensures Inv(WithShared(w, w.session.shared.(monitor := w.session.shared.monitor.(isOn := isOn))))
  {
    var w' := WithShared(w, w.session.shared.(monitor := w.session.shared.monitor.(isOn := isOn)));
    ScreenSession(w.session, isOn);
    SameBooks(w, w');
    SameLight(w, w');
    assert LiveTasks(w') == LiveTasks(w);
  }

  lemma InvNotify(w: World)
    requires Inv(w) && CanStep(w, DisconnectNotifies)
    ensures Inv(Notify(w))
  {
    var notified := Adopt(w, Disconnected(w.session, Some(w.driver.executors[w.driver.cursor.value])));
    InvEnded(w);
    InvElsewhere(notified, Notify(w));
  }

  lemma InvCallback(w: World, id: nat)
    requires Inv(w)
    ensures CanStep(w, CallbackLocks(id)) ==> Inv(Next(w, CallbackLocks(id)))
    ensures CanStep(w, CallbackRuns(id)) ==> Inv(Next(w, CallbackRuns(id)))
    ensures CanStep(w, CallbackReturns(id)) ==> Inv(Next(w, CallbackReturns(id)))
  {
    if CanStep(w, CallbackLocks(id)) { InvLock(w, id); }
    if CanStep(w, CallbackRuns(id)) { InvRunCallback(w, id); }
    if CanStep(w, CallbackReturns(id)) { InvReturn(w, id); }
  }

  /** The driver's own steps, and the passing of time. */
  lemma InvDriverStep(w: World, step: Step)
    requires Inv(w) && CanStep(w, step)
    requires step.Connects? || step.DisconnectBegins? || step.DisconnectEnds? || step.TimePasses?
    ensures Inv(Next(w, step))
  {
    InvElsewhere(w, Next(w, step));
  }

  /** Every step of the subsystem keeps the invariant. */
  lemma InvStep(w: World, step: Step)
    requires Inv(w) && CanStep(w, step)
    ensures Inv(Next(w, step))
  {
    if step.Command? {
      InvCommand(w, step.executor, step.command, step.env);
    } else if step.TimerFires? {
      InvFire(w, step.task, step.timerId);
    } else if step.CallbackLocks? || step.CallbackRuns? || step.CallbackReturns? {
      InvCallback(w, step.task);
    } else if step.ScreenEvent? {
      InvScreen(w, step.isOn);
    } else if step.DisconnectNotifies? {
      InvNotify(w);
    } else {
      InvDriverStep(w, step);
    }
  }

  /** The invariant holds in every state of every run. */
  lemma {:induction false} InvRun(w: World, steps: seq<Step>)
    requires Inv(w) && Possible(w, steps)
    ensures Inv(Run(w, steps))
    decreases |steps|
  {
    if steps != [] {
      InvStep(w, steps[0]);
      InvRun(Next(w, steps[0]), steps[1..]);
    }
  }
}
