/** Runs that show where a guarantee one might expect stops. */
module Surprises {
  import opened Common
  import opened Environment
  import opened Trace
  import opened ScreenState
  import opened Platform
  import opened BackgroundAlpha
  import opened IlluminationManager
  import opened World
  import opened Invariants
  import opened Refinement
  import opened Guarantees
  import opened Composition
  import Task = IlluminationTask

  /** Every external call succeeds, at the given brightness. */
  function AllWell(brightness: uint32): Env {
    Env(true, true, true, true, true, Some(true), Some(1), true, true, Some((1000, 2000)), true, true,
        brightness, true, true, true, true)
  }

  const CENTRE := EnableParam(500, 500, 200, 0)

  function Tell(executor: Executor, id: SaCommandId, env: Env): Step {
    Command(Some(executor), SaCommand(id, CENTRE), env)
  }

  /** Enabling with everything going well puts the commanded node on a valid screen, unlit. */
  lemma EnabledTaskIs(t: Task.TaskState, sh: Shared, brightness: uint32)
    requires t.brightness == Task.INVALID_BRIGHTNESS && t.surface.None?
    requires sh.opacity(ToInt32(brightness)).Some? && brightness != Task.INVALID_BRIGHTNESS
    ensures var e := Task.Enabled(t, sh, CENTRE.centerX, CENTRE.centerY, CENTRE.radius, CENTRE.color, AllWell(brightness));
            && e.code == SUCCESS
            && e.task == t.(screenId := Some(1), hasDirector := true, node := Some(sh.nextNode),
                            surface := Some(sh.nextNode), brightness := brightness, canvasParam := e.task.canvasParam)
            && e.shared == sh.(nextNode := sh.nextNode + 1, log := e.shared.log)
            && Shown(e.shared.log, sh.nextNode) == Some(e.task.canvasParam)
            && e.task.canvasParam.alpha == sh.opacity(ToInt32(brightness)).value
  {
    assert Task.CanvasFor(CENTRE.centerX, CENTRE.centerY, CENTRE.radius, CENTRE.color, (1000, 2000))
           == Some(CanvasParam(500, 1000, CENTRE.radius, CENTRE.color, 0, 1000, 2000));
  }

  /** The task made by the first ENABLE: unlit, on screen 1, with node 0. */
  ghost predicate FirstTask(s: Session, owner: Executor, brightness: uint32) {
    && s.executor == Some(owner) && s.task.Some?
    && s.shared.monitor == Monitor(true, true) && s.shared.isOpened
    && var t := s.task.value;
       && !t.isIlluminationOn && t.screenId == Some(1) && t.brightness == brightness && t.node == Some(0)
       && t.surface == Some(0) && t.id == 0 && t.references == 1
       && t.timer == Task.Timer(map[], 0) && t.currTimerId == 0
  }

  lemma FirstEnable(opacity: Opacity, owner: Executor, brightness: uint32)
    requires opacity(ToInt32(brightness)).Some? && brightness != Task.INVALID_BRIGHTNESS
    ensures var r := Enable(Initial(opacity).session, owner, CENTRE, AllWell(brightness));
            && r.code == SUCCESS && r.orphan.None?
            && FirstTask(r.session, owner, brightness) && r.session.shared.opacity == opacity
            && Shown(r.session.shared.log, 0).Some?
            && Shown(r.session.shared.log, 0).value.alpha == opacity(ToInt32(brightness)).value
  {
    var acquired := AfterAcquire(InitialShared(opacity), AllWell(brightness)).0;
    var born := Task.NewTask(0).(hasDestructCallback := true);
    EnabledTaskIs(born, Task.AfterConstruct(acquired, AllWell(brightness)), brightness);
  }

  /** The world after one executor has enabled the sensor at start-up. */
  function EnabledWorld(opacity: Opacity, brightness: uint32): World {
    Next(Initial(opacity), Tell(7, ENABLE, AllWell(brightness)))
  }

  lemma EnabledWorldIs(opacity: Opacity, brightness: uint32)
    requires opacity(ToInt32(brightness)).Some? && brightness != Task.INVALID_BRIGHTNESS
    ensures var w := EnabledWorld(opacity, brightness);
            && FirstTask(w.session, 7, brightness) && w.session.shared.opacity == opacity
            && Shown(w.session.shared.log, 0).Some?
            && Shown(w.session.shared.log, 0).value.alpha == opacity(ToInt32(brightness)).value
            && w == Initial(opacity).(session := w.session)
  {
    FirstEnable(opacity, 7, brightness);
  }

  // ----- a stale frame

  const MISSES_FRAME := AllWell(4).(frameOk := false)

  /** Enabled at brightness 255, then two TURN_ON commands at brightness 4, the
      first of which gets no frame to draw on: the second one succeeds, redraws
      nothing, and lights a fully transparent background instead of one at 234. */
  lemma StaleFrame()
    ensures var s1 := EnabledWorld(OpacityOf(BRIGHTNESS_AND_ALPHA), 255).session;
            var missed := TurnOn(s1, 7, MISSES_FRAME, 0);
            var lit := TurnOn(missed.session, 7, AllWell(4), 0);
            && missed.code == GENERAL_ERROR && lit.code == SUCCESS
            && lit.session.task.Some? && lit.session.task.value.isIlluminationOn
            && Shown(lit.session.shared.log, 0).Some? && Shown(lit.session.shared.log, 0).value.alpha == 0
            && AlphaAt(BRIGHTNESS_AND_ALPHA, 4) == Some(234)
  {
    ProgramTableKey(36, Point(255, 0));
    ProgramTableKey(0, Point(4, 234));
    EnabledWorldIs(OpacityOf(BRIGHTNESS_AND_ALPHA), 255);
    StaleTurnOns(EnabledWorld(OpacityOf(BRIGHTNESS_AND_ALPHA), 255).session, 7, MISSES_FRAME, AllWell(4), 0, 0);
  }

  /** From any unlit session with the screen on and a valid screen: a draw that fails
      once its brightness is stored, whatever fails, is not repeated by the next
      TURN_ON at the same brightness, whatever its environment offers. */
  lemma StaleTurnOns(s: Session, owner: Executor, missing: Env, env: Env, first: nat, second: nat)
    requires s.task.Some? && s.task.value.node.Some? && s.task.value.surface == s.task.value.node
    requires s.task.value.screenId.Some? && !s.task.value.isIlluminationOn && s.shared.monitor.isOn
    requires missing.brightness != s.task.value.brightness && missing.brightness != Task.INVALID_BRIGHTNESS
    requires !DrawSucceeds(s.task.value.brightness, s.shared.opacity, missing)
    requires s.executor == Some(owner) && env.brightness == missing.brightness
    ensures var missed := TurnOn(s, owner, missing, first);
            var lit := TurnOn(missed.session, owner, env, second);
            && missed.code == GENERAL_ERROR && missed.orphan.None?
            && lit.code == SUCCESS && lit.orphan.None?
            && lit.session.task.Some? && lit.session.task.value.isIlluminationOn
            && Shown(lit.session.shared.log, s.task.value.node.value) == Shown(s.shared.log, s.task.value.node.value)
  {
  }

  // ----- a light without a bound

  const UNREGISTERED := AllWell(255).(timerOk := false)

  /** A TURN_ON whose timer the library does not register leads there at once. */
  lemma UnarmedReachable(opacity: Opacity)
    requires opacity(255).Some?
    ensures var steps := [Tell(7, ENABLE, AllWell(255)), Tell(7, TURN_ON, UNREGISTERED)];
            && Possible(Initial(opacity), steps) && LitUnarmed(Run(Initial(opacity), steps))
            && !WithinDeadline(Run(Initial(opacity), steps))
  {
    EnabledWorldIs(opacity, 255);
    var w := EnabledWorld(opacity, 255);
    LightsFirst(w.session, UNREGISTERED);
    var lit := Next(w, Tell(7, TURN_ON, UNREGISTERED));
    assert LitUnarmed(lit) && !WithinDeadline(lit);
    RunTwo(Initial(opacity), w, lit, [Tell(7, ENABLE, AllWell(255)), Tell(7, TURN_ON, UNREGISTERED)]);
  }

  lemma RunTwo(w0: World, w1: World, w2: World, steps: seq<Step>)
    requires |steps| == 2
    requires CanStep(w0, steps[0]) && w1 == Next(w0, steps[0])
    requires CanStep(w1, steps[1]) && w2 == Next(w1, steps[1])
    ensures Possible(w0, steps) && Run(w0, steps) == w2
  {
    assert steps[1..][1..] == [];
    assert Possible(w2, []) && Run(w2, []) == w2;
    assert Possible(w1, steps[1..]) && Run(w1, steps[1..]) == w2;
  }

  // ----- screen events lost by a live session

  /** A callback that outlives its session and lets go of the old task after a new
      session has begun makes the new session deaf to screen events. */
  lemma DeafSession(w: World, id: nat)
    requires Inv(w) && w.session.task.Some? && id in w.orphans && id in w.done && w.orphans[id].references == 1
    ensures var w' := Next(w, CallbackReturns(id));
            && w'.session.task == w.session.task && w'.session.executor == w.session.executor
            && !w'.session.shared.monitor.isSubscribing
  {
    ReturnIs(w, id);
  }

  /** Such a state is reachable: the light times out, the session is disabled while
      the callback holds the task, and another executor enables the sensor. */
  const OVERTAKEN := [Tell(7, TURN_ON, AllWell(255)), TimePasses(1000), TimerFires(0, 1), CallbackLocks(0),
                      Tell(7, DISABLE, AllWell(255)), CallbackRuns(0), Tell(8, ENABLE, AllWell(255))]

  lemma DeafSessionReachable(opacity: Opacity)
    requires opacity(255).Some?
    ensures var w1 := EnabledWorld(opacity, 255);
            && Possible(w1, OVERTAKEN)
            && var w := Run(w1, OVERTAKEN);
               w.session.task.Some? && 0 in w.orphans && 0 in w.done && w.orphans[0].references == 1
  {
    EnabledWorldIs(opacity, 255);
    var w1 := EnabledWorld(opacity, 255);
    var w2, w3, w4, w5 := TimesOut(w1);
    var w6, w7, w8 := OvertakesCallback(w5);
    RunSeven(w1, w2, w3, w4, w5, w6, w7, w8);
  }

  lemma TimesOut(w1: World) returns (w2: World, w3: World, w4: World, w5: World)
    requires FirstTask(w1.session, 7, 255)
    requires w1.now == 0 && w1.locked == multiset{} && w1.orphans == map[]
    ensures w2 == Adopt(w1, TurnOn(w1.session, 7, AllWell(255), w1.now)) && w3 == w2.(now := w2.now + 1000)
    ensures CanStep(w3, TimerFires(0, 1)) && w4 == Fire(w3, 0, 1)
    ensures 0 in w4.queued && w5 == Lock(w4, 0)
    ensures w5.session.executor == Some(7) && w5.session.task.Some? && w5.orphans == map[] && w5.locked == multiset{0}
    ensures var t := w5.session.task.value; t.id == 0 && t.references == 2
    ensures w5.session.shared.opacity == w1.session.shared.opacity && w5.session.shared.isOpened == w1.session.shared.isOpened
  {
    w2 := LightsUpFirst(w1);
    w3 := w2.(now := 1000);
    w4, w5 := CallbackHolds(w3);
  }

  lemma LightsUpFirst(w1: World) returns (w2: World)
    requires FirstTask(w1.session, 7, 255) && w1.now == 0
    ensures w2 == Adopt(w1, TurnOn(w1.session, 7, AllWell(255), w1.now))
    ensures w2.session.executor == Some(7) && w2.session.task.Some?
    ensures w2.orphans == w1.orphans && w2.locked == w1.locked && w2.now == 0
    ensures var t, t' := w1.session.task.value, w2.session.task.value;
            t'.id == 0 && t'.references == t.references && t'.timer.pending == map[1 := 1000]
    ensures w2.session.shared.opacity == w1.session.shared.opacity && w2.session.shared.isOpened == w1.session.shared.isOpened
  {
    LightsFirst(w1.session, AllWell(255));
    w2 := Adopt(w1, TurnOn(w1.session, 7, AllWell(255), w1.now));
  }

  lemma CallbackHolds(w3: World) returns (w4: World, w5: World)
    requires w3.session.task.Some? && w3.now == 1000
    requires var t := w3.session.task.value; t.id == 0 && t.timer.pending == map[1 := 1000]
    ensures CanStep(w3, TimerFires(0, 1)) && w4 == Fire(w3, 0, 1)
    ensures 0 in w4.queued && w5 == Lock(w4, 0)
    ensures w5.session.task.Some? && w5.locked == w3.locked + multiset{0} && w5.orphans == w3.orphans
    ensures w5.session.executor == w3.session.executor && w5.session.shared == w3.session.shared
    ensures w5.session.task.value.id == 0
            && w5.session.task.value.references == w3.session.task.value.references + 1
  {
    w4 := Fire(w3, 0, 1);
    w5 := Lock(w4, 0);
  }

  lemma LightsFirst(s: Session, env: Env)
    requires FirstTask(s, 7, 255) && env.brightness == 255
    ensures var r, t := TurnOn(s, 7, env, 0), s.task.value;
            && r.code == SUCCESS && r.orphan.None? && r.session.executor == s.executor
            && r.session.task == Some(if env.timerOk
                                      then t.(timer := Task.Timer(map[1 := 1000], 1), currTimerId := 1, isIlluminationOn := true)
                                      else t.(isIlluminationOn := true))
            && r.session.shared == WithEvent(s.shared, Attached(0, 1, 0))
  {
    assert s.task.value.timer.pending - {0} == map[];
    assert (map[] - {0})[1 := 1000] == map[1 := 1000];
  }

  lemma OvertakesCallback(w5: World) returns (w6: World, w7: World, w8: World)
    requires w5.session.executor == Some(7) && w5.session.task.Some? && w5.orphans == map[] && w5.locked == multiset{0}
    requires var t := w5.session.task.value; t.id == 0 && t.references == 2
    requires w5.session.shared.opacity(255).Some?
    ensures w6 == Adopt(w5, Disable(w5.session, 7))
    ensures 0 in w6.locked && w7 == RunCallback(w6, 0)
    ensures w8 == Adopt(w7, Enable(w7.session, 8, CENTRE, AllWell(255)))
    ensures w8.session.task.Some? && 0 in w8.orphans && 0 in w8.done && w8.orphans[0].references == 1
  {
    w6 := LeavesOrphan(w5);
    w7 := RunCallback(w6, 0);
    assert w7.session == w6.session && w7.orphans == w6.orphans;
    EnablesAgain(w7.session);
    w8 := Adopt(w7, Enable(w7.session, 8, CENTRE, AllWell(255)));
  }

  lemma LeavesOrphan(w5: World) returns (w6: World)
    requires w5.session.executor == Some(7) && w5.session.task.Some? && w5.orphans == map[]
    requires var t := w5.session.task.value; t.id == 0 && t.references == 2
    ensures w6 == Adopt(w5, Disable(w5.session, 7))
    ensures w6.session.executor.None? && w6.session.task.None? && w6.locked == w5.locked
    ensures 0 in w6.orphans && w6.orphans[0].references == 1 && w6.orphans[0].node.None?
    ensures w6.session.shared.opacity == w5.session.shared.opacity
  {
    w6 := Adopt(w5, Disable(w5.session, 7));
  }

  lemma EnablesAgain(s: Session)
    requires s.executor.None? && s.task.None? && s.shared.opacity(255).Some?
    ensures Enable(s, 8, CENTRE, AllWell(255)).session.task.Some? && Enable(s, 8, CENTRE, AllWell(255)).orphan.None?
  {
  }

  lemma RunSeven(w1: World, w2: World, w3: World, w4: World, w5: World, w6: World, w7: World, w8: World)
    requires CanStep(w1, OVERTAKEN[0]) && w2 == Next(w1, OVERTAKEN[0])
    requires CanStep(w2, OVERTAKEN[1]) && w3 == Next(w2, OVERTAKEN[1])
    requires CanStep(w3, OVERTAKEN[2]) && w4 == Next(w3, OVERTAKEN[2])
    requires CanStep(w4, OVERTAKEN[3]) && w5 == Next(w4, OVERTAKEN[3])
    requires CanStep(w5, OVERTAKEN[4]) && w6 == Next(w5, OVERTAKEN[4])
    requires CanStep(w6, OVERTAKEN[5]) && w7 == Next(w6, OVERTAKEN[5])
    requires CanStep(w7, OVERTAKEN[6]) && w8 == Next(w7, OVERTAKEN[6])
    ensures Possible(w1, OVERTAKEN) && Run(w1, OVERTAKEN) == w8
  {
  }

  // ----- sessions the driver's loop does not reach

  /** An executor the loop has told already enables the sensor before the loop is
      through; it keeps it when the loop is, with no executor left. */
  const LATE := [Connects(1), DisconnectBegins, DisconnectNotifies, Tell(0, ENABLE, AllWell(255))]

  lemma LateEnable(opacity: Opacity)
    requires opacity(255).Some?
    ensures Possible(Initial(opacity), LATE)
    ensures var w := Run(Initial(opacity), LATE);
            && CanStep(w, DisconnectEnds)
            && Next(w, DisconnectEnds).driver == Driver([], None)
            && Next(w, DisconnectEnds).session.executor == Some(0)
  {
    FirstEnable(opacity, 0, 255);
    var w0 := Initial(opacity);
    var w1 := ConnectsOne(w0);
    var w2 := w1.(driver := Driver([0], Some(0)));
    var w3 := w1.(driver := Driver([0], Some(1)));
    var w4 := w3.(session := Enable(w0.session, 0, CENTRE, AllWell(255)).session);
    RunFour(w0, w1, w2, w3, w4, LATE);
  }

  lemma ConnectsOne(w: World) returns (w': World)
    requires CanStep(w, Connects(1))
    ensures w' == Next(w, Connects(1))
    ensures w' == w.(driver := Driver([w.nextExecutor], None), nextExecutor := w.nextExecutor + 1)
  {
    w' := Next(w, Connects(1));
    assert w'.driver.executors == [w.nextExecutor];
  }

  lemma RunFour(w0: World, w1: World, w2: World, w3: World, w4: World, steps: seq<Step>)
    requires |steps| == 4
    requires CanStep(w0, steps[0]) && w1 == Next(w0, steps[0])
    requires CanStep(w1, steps[1]) && w2 == Next(w1, steps[1])
    requires CanStep(w2, steps[2]) && w3 == Next(w2, steps[2])
    requires CanStep(w3, steps[3]) && w4 == Next(w3, steps[3])
    ensures Possible(w0, steps) && Run(w0, steps) == w4
  {
    assert Possible(w4, []) && Run(w4, []) == w4;
    assert steps[1..][1..][1..][1..] == [];
    assert Possible(w3, steps[1..][1..][1..]) && Run(w3, steps[1..][1..][1..]) == w4;
    assert Possible(w2, steps[1..][1..]) && Run(w2, steps[1..][1..]) == w4;
  }

  /** The driver is asked for a new list during a session of the first generation,
      and then disconnects: the session goes on, with no executor left. */
  const RECONNECTED := [Connects(1), Tell(0, ENABLE, AllWell(255)), Connects(1), DisconnectBegins]

  lemma StrandedReachable(opacity: Opacity)
    requires opacity(255).Some?
    ensures Possible(Initial(opacity), RECONNECTED)
    ensures var w := Run(Initial(opacity), RECONNECTED);
            && Stranded(w, 0)
            && CanStep(w, DisconnectNotifies) && CanStep(Next(w, DisconnectNotifies), DisconnectEnds)
            && var w' := Next(Next(w, DisconnectNotifies), DisconnectEnds);
               w'.driver == Driver([], None) && w'.session == w.session
  {
    FirstEnable(opacity, 0, 255);
    var w0 := Initial(opacity);
    var w1 := ConnectsOne(w0);
    var w2 := w1.(session := Enable(w0.session, 0, CENTRE, AllWell(255)).session);
    var w3 := ConnectsOne(w2);
    var w4 := w3.(driver := Driver([1], Some(0)));
    RunFour(w0, w1, w2, w3, w4, RECONNECTED);
    LoopPasses(w4);
  }

  lemma LoopPasses(w: World)
    requires w.driver == Driver([1], Some(0)) && w.session.executor == Some(0)
    ensures CanStep(w, DisconnectNotifies) && CanStep(Next(w, DisconnectNotifies), DisconnectEnds)
    ensures var w' := Next(Next(w, DisconnectNotifies), DisconnectEnds);
            w'.driver == Driver([], None) && w'.session == w.session
  {
  }

  // ----- an unregistered timer that does no harm

  const RELIT := [Tell(7, TURN_ON, AllWell(255)), TimePasses(1000), TimerFires(0, 1), Tell(7, TURN_OFF, AllWell(255))]

  /** Turned off and on again while the callback of its first light is on its way, a
      light does without a timer of its own. */
  lemma RelitGoesOut(opacity: Opacity)
    requires opacity(255).Some?
    ensures var w1 := EnabledWorld(opacity, 255);
            && Possible(w1, RELIT)
            && var lit := Next(Run(w1, RELIT), Tell(7, TURN_ON, UNREGISTERED));
               IsLit(lit) && lit.session.task.value.currTimerId == 0 && !LitUnarmed(lit)
  {
    EnabledWorldIs(opacity, 255);
    var w1 := EnabledWorld(opacity, 255);
    var w2 := LightsUpFirst(w1);
    var w3 := w2.(now := 1000);
    var w4, w5 := CallbackHolds(w3);
    LightsFirst(w1.session, AllWell(255));
    var w6 := Adopt(w4, TurnOff(w4.session, 7));
    RunFour(w1, w2, w3, w4, w6, RELIT);
    Relit(w4.session);
  }

  lemma Relit(s: Session)
    requires s.executor == Some(7) && s.task.Some? && s.shared.monitor.isOn
    requires var t := s.task.value;
             t.isIlluminationOn && t.node.Some? && t.surface.Some? && t.screenId.Some? && t.brightness == 255
    ensures var off := TurnOff(s, 7);
            && off.orphan.None?
            && var on := TurnOn(off.session, 7, UNREGISTERED, 1000);
               && on.orphan.None? && on.session.task.Some? && on.session.executor == Some(7)
               && on.session.task.value.isIlluminationOn && on.session.task.value.currTimerId == 0
               && on.session.task.value.id == s.task.value.id
  {
  }

  // ----- a task enabled twice

  /** The task itself does not guard against being enabled again while lit: the old
      node then stays on the display for good, and turning off detaches a node
      that was never attached.  The manager never does this. */
  lemma EnabledTwice(s: Session, p: EnableParam, env: Env)
    requires SessionInv(s) && s.task.Some? && s.task.value.isIlluminationOn && env.screenId.Some?
    requires Task.Enabled(s.task.value, s.shared, p.centerX, p.centerY, p.radius, p.color, env).code == SUCCESS
    ensures var again := Task.Enabled(s.task.value, s.shared, p.centerX, p.centerY, p.radius, p.color, env);
            var off := Task.TurnedOff(again.task, again.shared);
            && off.code == SUCCESS && !off.task.isIlluminationOn
            && OnDisplay(Lifeline(off.shared.log, s.task.value.node.value))
            && Lifeline(off.shared.log, again.task.node.value)
               == [Detached(again.task.node.value, env.screenId.value)]
  {
    var t, canvas := s.task.value, Task.CanvasFor(p.centerX, p.centerY, p.radius, p.color, env.display.value).value;
    var prepared := t.(screenId := env.screenId, hasDirector := true, canvasParam := canvas,
                       node := Some(s.shared.nextNode), surface := Some(s.shared.nextNode));
    var sh := s.shared.(nextNode := s.shared.nextNode + 1);
    DrawEffect(prepared, sh, env);
    DrawQuiet(prepared, sh, env);
    var again := Task.Drawn(prepared, sh, env);
    DetachesUnattached(again.task, again.shared);
  }

  lemma DetachesUnattached(t: Task.TaskState, sh: Shared)
    requires t.node.Some? && t.isIlluminationOn && t.screenId.Some?
    ensures var off := Task.TurnedOff(t, sh);
            && off.code == SUCCESS && !off.task.isIlluminationOn
            && (forall n :: n != t.node.value ==> Lifeline(off.shared.log, n) == Lifeline(sh.log, n))
            && Lifeline(off.shared.log, t.node.value)
               == Lifeline(sh.log, t.node.value) + [Detached(t.node.value, t.screenId.value)]
  {
  }
}
