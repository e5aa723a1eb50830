/** The whole subsystem refines a four-line automaton: nobody has the sensor's
    light, or one executor has it unlit, or lit until a deadline. */
module Refinement {
  import opened Common
  import opened Environment
  import opened Trace
  import opened Platform
  import opened BackgroundAlpha
  import opened Geometry
  import opened IlluminationManager
  import opened World
  import opened Invariants
  import Task = IlluminationTask

  datatype Light = Idle | Unlit(owner: Executor) | Lit(owner: Executor, deadline: nat)

  /** What an observer sees of a step: the commands with their answers, the
      screen and the clock, the time-outs of the current task, and executors going away. */
  datatype Label =
    | Answered(executor: Option<Executor>, id: SaCommandId, code: ResultCode, screenOn: bool, now: nat)
    | TimedOut
    | Gone(owner: Executor)
    | Silent

  function Abstract(w: World): Light {
    if w.session.executor.None? || w.session.task.None? then Idle
    else if w.session.task.value.isIlluminationOn then
      Lit(w.session.executor.value, LastLit(w.session.shared.log) + Task.MAX_DISPLAY_TIME)
    else Unlit(w.session.executor.value)
  }

  function AnswerTo(w: World, executor: Option<Executor>, command: SaCommand, env: Env): Label {
    Answered(executor, command.id, Process(w.session, executor, command, env, w.now).code,
             w.session.shared.monitor.isOn, w.now)
  }

  function LabelOf(w: World, step: Step): Label
    requires CanStep(w, step)
  {
    match step
    case Command(executor, command, env) => AnswerTo(w, executor, command, env)
    case CallbackRuns(id) => if w.session.task.Some? && w.session.task.value.id == id then TimedOut else Silent
    case DisconnectNotifies => Gone(w.driver.executors[w.driver.cursor.value])
    case _ => Silent
  }

  predicate Owns(a: Light, executor: Option<Executor>) {
    !a.Idle? && executor == Some(a.owner)
  }

  /** Which answers the automaton allows. */
  predicate Allows(a: Light, l: Label) {
    l.Answered? ==>
      match l.id
      case ENABLE => l.code == SUCCESS ==> a.Idle? && l.executor.Some?
      case DISABLE => l.code == SUCCESS <==> Owns(a, l.executor)
      case TURN_OFF => l.code == SUCCESS <==> Owns(a, l.executor)
      case TURN_ON =>
        && (l.code == SUCCESS ==> Owns(a, l.executor))
        && (Owns(a, l.executor) && (a.Lit? || !l.screenOn) ==> l.code == SUCCESS)
      case OTHER(_) => l.code == GENERAL_ERROR
  }

  function Moves(a: Light, l: Label): Light {
    match l
    case Answered(executor, id, code, screenOn, now) =>
      if code != SUCCESS || executor.None? then a
      else
        match id {
          case ENABLE => Unlit(executor.value)
          case DISABLE => Idle
          case TURN_ON => if screenOn && a.Unlit? then Lit(a.owner, now + Task.MAX_DISPLAY_TIME) else a
          case TURN_OFF => if a.Lit? then Unlit(a.owner) else a
          case OTHER(_) => a
        }
    case TimedOut => if a.Lit? then Unlit(a.owner) else a
    case Gone(executor) => if Owns(a, Some(executor)) then Idle else a
    case Silent => a
  }

  function Labels(w: World, steps: seq<Step>): seq<Label>
    requires Possible(w, steps)
    decreases |steps|
  {
    if steps == [] then [] else [LabelOf(w, steps[0])] + Labels(Next(w, steps[0]), steps[1..])
  }

  function MovesAll(a: Light, labels: seq<Label>): Light
    decreases |labels|
  {
    if labels == [] then a else MovesAll(Moves(a, labels[0]), labels[1..])
  }

  ghost predicate AllowsAll(a: Light, labels: seq<Label>)
    decreases |labels|
  {
    labels == [] || (Allows(a, labels[0]) && AllowsAll(Moves(a, labels[0]), labels[1..]))
  }

  // ----- one step

  lemma RefinesEnable(w: World, executor: Executor, p: EnableParam, env: Env)
    requires SessionInv(w.session)
    ensures var r := Enable(w.session, executor, p, env);
            && (r.code == SUCCESS ==> Abstract(w).Idle? && Abstract(Adopt(w, r)) == Unlit(executor))
            && (r.code != SUCCESS ==> Abstract(Adopt(w, r)) == Abstract(w))
  {
    if w.session.task.None? {
      EnableCounts(w.session, executor, p, env);
    }
  }

  lemma RefinesEnded(w: World)
    ensures Ended(w.session).code == SUCCESS && Abstract(Adopt(w, Ended(w.session))) == Idle
  {
  }

  lemma RefinesTurnOff(w: World, executor: Executor)
    requires SessionInv(w.session)
    ensures var r := TurnOff(w.session, executor);
            && (r.code == SUCCESS <==> Owns(Abstract(w), Some(executor)))
            && Abstract(Adopt(w, r)) ==
               if r.code == SUCCESS && Abstract(w).Lit? then Unlit(Abstract(w).owner) else Abstract(w)
  {
    if w.session.task.Some? {
      OffKeeps(w.session);
    }
  }

  /** Turning on lights the node exactly when it succeeds on an unlit task with
      the screen on, and then the clock of the light starts. */
  lemma OnAnswer(t: Task.TaskState, sh: Shared, env: Env, now: nat)
    requires HeldTask(t)
    ensures var on := Task.TurnedOn(t, sh, env, now);
            && (t.isIlluminationOn || !sh.monitor.isOn ==> on == Task.Outcome(t, sh, SUCCESS))
            && (!t.isIlluminationOn && sh.monitor.isOn ==> (on.code == SUCCESS <==> on.task.isIlluminationOn))
            && (on.task.isIlluminationOn && !t.isIlluminationOn ==> LastLit(on.shared.log) == now)
  {
    if sh.monitor.isOn && !t.isIlluminationOn {
      DrawEffect(t, sh, env);
      DrawQuiet(t, sh, env);
    }
  }

  lemma RefinesTurnOn(w: World, executor: Executor, env: Env)
    requires SessionInv(w.session)
    ensures var a, r := Abstract(w), TurnOn(w.session, executor, env, w.now);
            && (r.code == SUCCESS ==> Owns(a, Some(executor)))
            && (Owns(a, Some(executor)) && (a.Lit? || !w.session.shared.monitor.isOn) ==> r.code == SUCCESS)
            && Abstract(Adopt(w, r)) ==
               if r.code == SUCCESS && w.session.shared.monitor.isOn && a.Unlit?
               then Lit(a.owner, w.now + Task.MAX_DISPLAY_TIME) else a
  {
    if w.session.executor == Some(executor) {
      var t, sh := w.session.task.value, w.session.shared;
      OnAnswer(t, sh, env, w.now);
      LightAfter(w, Task.TurnedOn(t, sh, env, w.now));
    }
  }

  /** The automaton's state after the session's task has answered. */
  lemma LightAfter(w: World, on: Task.Outcome)
    requires w.session.executor.Some? && w.session.task.Some?
    ensures Abstract(w.(session := w.session.(task := Some(on.task), shared := on.shared))) ==
            if on.task.isIlluminationOn then Lit(w.session.executor.value, LastLit(on.shared.log) + Task.MAX_DISPLAY_TIME)
            else Unlit(w.session.executor.value)
  {
  }

  /** The answer to a command, and what it does, are what the automaton allows and does. */
  ghost predicate Refines(w: World, executor: Option<Executor>, command: SaCommand, env: Env) {
    var l := AnswerTo(w, executor, command, env);
    Allows(Abstract(w), l) && Abstract(Perform(w, executor, command, env)) == Moves(Abstract(w), l)
  }

  lemma RefinesOwning(w: World, executor: Executor, command: SaCommand, env: Env)
    requires SessionInv(w.session) && (command.id.ENABLE? || command.id.DISABLE?)
    ensures Refines(w, Some(executor), command, env)
  {
    RefinesEnable(w, executor, command.param, env);
    RefinesEnded(w);
  }

  lemma RefinesTurning(w: World, executor: Executor, command: SaCommand, env: Env)
    requires SessionInv(w.session) && (command.id.TURN_ON? || command.id.TURN_OFF?)
    ensures Refines(w, Some(executor), command, env)
  {
    if command.id.TURN_ON? {
      RefinesTurnOn(w, executor, env);
    } else {
      RefinesTurnOff(w, executor);
    }
  }

  lemma RefinesCommand(w: World, executor: Option<Executor>, command: SaCommand, env: Env)
    requires SessionInv(w.session)
    ensures Refines(w, executor, command, env)
  {
    if executor.None? || command.id.OTHER? {
      assert Process(w.session, executor, command, env, w.now) == Refused(w.session);
    } else if command.id.ENABLE? || command.id.DISABLE? {
      RefinesOwning(w, executor.value, command, env);
    } else {
      RefinesTurning(w, executor.value, command, env);
    }
  }

  lemma RefinesFire(w: World, id: nat, timerId: nat)
    requires Inv(w)
    ensures Abstract(Fire(w, id, timerId)) == Abstract(w)
  {
  }

  lemma RefinesLock(w: World, id: nat)
    requires Inv(w)
    ensures Abstract(Lock(w, id)) == Abstract(w)
  {
    LockIs(w, id);
  }

  lemma RefinesReturn(w: World, id: nat)
    requires Inv(w) && id in w.done
    ensures Abstract(Return(w, id)) == Abstract(w)
  {
    ReturnIs(w, id);
    if id in w.orphans {
      EndEffect(w.orphans[id], w.session.shared);
    }
  }

  lemma RefinesTimeOut(w: World, id: nat)
    requires Inv(w) && CanStep(w, CallbackRuns(id))
    ensures Abstract(RunCallback(w, id)) == Moves(Abstract(w), LabelOf(w, CallbackRuns(id)))
  {
    if id !in w.orphans {
      OffKeeps(w.session);
    } else {
      assert RunCallback(w, id).session == w.session;
    }
  }

  lemma RefinesOutside(w: World, step: Step)
    requires Inv(w) && CanStep(w, step)
    requires step.ScreenEvent? || step.TimePasses? || step.Connects?
             || step.DisconnectBegins? || step.DisconnectEnds?
    ensures Abstract(Next(w, step)) == Abstract(w)
  {
  }

  lemma RefinesNotify(w: World)
    requires SessionInv(w.session) && CanStep(w, DisconnectNotifies)
    ensures Abstract(Notify(w)) == Moves(Abstract(w), LabelOf(w, DisconnectNotifies))
  {
    RefinesEnded(w);
  }

  /** Every step is a move of the automaton that the automaton allows. */
  lemma RefinesStep(w: World, step: Step)
    requires Inv(w) && CanStep(w, step)
    ensures Allows(Abstract(w), LabelOf(w, step))
    ensures Abstract(Next(w, step)) == Moves(Abstract(w), LabelOf(w, step))
  {
    if step.Command? {
      RefinesCommand(w, step.executor, step.command, step.env);
    } else if step.TimerFires? {
      RefinesFire(w, step.task, step.timerId);
    } else if step.CallbackLocks? {
      RefinesLock(w, step.task);
    } else if step.CallbackReturns? {
      RefinesReturn(w, step.task);
    } else if step.CallbackRuns? {
      RefinesTimeOut(w, step.task);
    } else if step.DisconnectNotifies? {
      RefinesNotify(w);
    } else {
      RefinesOutside(w, step);
    }
  }

  /** And so is every run, with any pattern of external failures. */
  lemma {:induction false} RefinesRun(w: World, steps: seq<Step>)
    requires Inv(w) && Possible(w, steps)
    ensures AllowsAll(Abstract(w), Labels(w, steps))
    ensures Abstract(Run(w, steps)) == MovesAll(Abstract(w), Labels(w, steps))
    decreases |steps|
  {
    if steps != [] {
      RefinesStep(w, steps[0]);
      InvStep(w, steps[0]);
      RefinesRun(Next(w, steps[0]), steps[1..]);
      assert Labels(w, steps)[1..] == Labels(Next(w, steps[0]), steps[1..]);
    }
  }

  // ----- exactly when the two commands that can fail for the owner succeed

  /** The draw a command makes goes through; 0xFFFF_FFFF says that the brightness is not known. */
  predicate DrawSucceeds(cached: uint32, opacity: Opacity, env: Env) {
    && env.brightness != 0xFFFF_FFFF
    && (env.brightness == cached
        || (opacity(ToInt32(env.brightness)).Some? && env.frameOk && env.skSurfaceOk && env.canvasOk))
  }

  lemma DrawSucceedsExactly(t: Task.TaskState, sh: Shared, env: Env)
    requires t.surface.Some?
    ensures Task.Drawn(t, sh, env).code == SUCCESS <==> DrawSucceeds(t.brightness, sh.opacity, env)
  {
  }

  /** Enabling succeeds exactly for a nobody-owned sensor, accepted parameters and
      no external failure; the geometry never makes it fail. */
  lemma EnableSucceedsExactly(s: Session, executor: Executor, p: EnableParam, env: Env)
    requires SessionInv(s)
    ensures Enable(s, executor, p, env).code == SUCCESS <==>
            && s.executor.None?
            && (s.shared.isOpened || env.dlopenOk) && env.symbolOk && env.allocOk
            && p.centerX < 1000 && p.centerY < 1000 && p.radius < 300
            && env.directorOk && env.nodeOk && env.display.Some? && env.surfaceOk && env.contextOk
            && DrawSucceeds(Task.INVALID_BRIGHTNESS, s.shared.opacity, env)
  {
    if s.executor.None? && ParamAccepted(p) && env.display.Some? {
      var (width, height) := env.display.value;
      AcceptedCentreInsideFrame(p.centerX, ToUint32(width));
      AcceptedCentreInsideFrame(p.centerY, ToUint32(height));
      var sh := Task.AfterConstruct(AfterAcquire(s.shared, env).0, env);
      var born := Task.NewTask(AfterAcquire(s.shared, env).0.nextTask).(hasDestructCallback := true);
      EnabledExactly(born, sh, p, env);
    }
  }

  lemma EnabledExactly(t: Task.TaskState, sh: Shared, p: EnableParam, env: Env)
    requires t.brightness == Task.INVALID_BRIGHTNESS && env.display.Some?
    requires Task.CanvasFor(p.centerX, p.centerY, p.radius, p.color, env.display.value).Some?
    ensures Task.Enabled(t, sh, p.centerX, p.centerY, p.radius, p.color, env).code == SUCCESS <==>
            env.directorOk && env.nodeOk && env.surfaceOk && env.contextOk
            && DrawSucceeds(Task.INVALID_BRIGHTNESS, sh.opacity, env)
  {
    var canvas := Task.CanvasFor(p.centerX, p.centerY, p.radius, p.color, env.display.value).value;
    var prepared := t.(screenId := env.screenId, hasDirector := env.directorOk, canvasParam := canvas,
                       node := Some(sh.nextNode), surface := Some(sh.nextNode));
    DrawSucceedsExactly(prepared, sh.(nextNode := sh.nextNode + 1), env);
  }

  /** For the owner, turning on succeeds exactly when nothing has to be done, or the
      draw goes through and the task's screen is valid. */
  lemma TurnOnSucceedsExactly(s: Session, executor: Executor, env: Env, now: nat)
    requires SessionInv(s)
    ensures TurnOn(s, executor, env, now).code == SUCCESS <==>
            && s.executor == Some(executor)
            && (|| !s.shared.monitor.isOn || s.task.value.isIlluminationOn
                || (DrawSucceeds(s.task.value.brightness, s.shared.opacity, env) && s.task.value.screenId.Some?))
  {
    if s.task.Some? {
      DrawSucceedsExactly(s.task.value, s.shared, env);
      DrawEffect(s.task.value, s.shared, env);
    }
  }
}
