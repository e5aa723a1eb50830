/** What the process-wide objects know over a whole run: the screen monitor about
    the screen, and the extension library about having been opened. */
module SingletonHistory {
  import opened Common
  import opened Environment
  import opened Trace
  import opened Platform
  import opened BackgroundAlpha
  import opened IlluminationManager
  import opened World
  import opened Invariants
  import opened Guarantees
  import Task = IlluminationTask

  // ----- the screen

  /** ENABLE gets as far as constructing a task, whether or not it is kept. */
  predicate Constructs(s: Session, env: Env) {
    s.executor.None? && (s.shared.isOpened || env.dlopenOk) && env.symbolOk && env.allocOk
  }

  /** The power manager's answer, when it is asked at all. */
  function Answer(env: Env): Option<bool> {
    if env.subscriberOk && env.subscribeOk then env.powerScreenOn else None
  }

  /** What is known of the screen after a run: the latest screen event, or the power
      manager's latest answer to a task that was constructed and got its subscription. */
  function LatestScreen(w: World, steps: seq<Step>, known: bool): bool
    requires Possible(w, steps)
    decreases |steps|
  {
    if steps == [] then known
    else LatestScreen(Next(w, steps[0]), steps[1..], LearntScreen(w, steps[0], known))
  }

  function LearntScreen(w: World, step: Step, known: bool): bool {
    match step
    case ScreenEvent(isOn) => isOn
    case Command(executor, command, env) =>
      if executor.Some? && command.id.ENABLE? && Constructs(w.session, env) && Answer(env).Some? then Answer(env).value
      else known
    case _ => known
  }

  lemma StartedScreen(sh: Shared, p: EnableParam, env: Env)
    requires !sh.monitor.isSubscribing
    ensures Started(sh, p, env).1.monitor.isOn == if Answer(env).Some? then Answer(env).value else sh.monitor.isOn
  {
    var born := Task.NewTask(sh.nextTask).(hasDestructCallback := true);
    EnableEffect(born, Task.AfterConstruct(sh, env), p.centerX, p.centerY, p.radius, p.color, env);
  }

  /** ENABLE takes over the power manager's answer, even when it fails later on. */
  lemma EnableLearnsScreen(s: Session, executor: Executor, p: EnableParam, env: Env)
    requires SessionInv(s)
    ensures Enable(s, executor, p, env).session.shared.monitor.isOn ==
            if Constructs(s, env) && Answer(env).Some? then Answer(env).value else s.shared.monitor.isOn
  {
    if s.executor.None? {
      StartedScreen(AfterAcquire(s.shared, env).0, p, env);
    }
  }

  /** With the screen off by that answer, the owner's next TURN_ON succeeds and does nothing. */
  lemma ScreenOffMeansNoLight(s: Session, executor: Executor, p: EnableParam, env: Env, next: Env, now: nat)
    requires SessionInv(s) && env.subscriberOk && env.subscribeOk && env.powerScreenOn == Some(false)
    ensures var enabled := Enable(s, executor, p, env);
            enabled.code == SUCCESS ==>
              var on := TurnOn(enabled.session, executor, next, now);
              && on.code == SUCCESS && on.session == enabled.session && on.orphan.None?
              && enabled.session.task.Some? && !enabled.session.task.value.isIlluminationOn
  {
    EnableLearnsScreen(s, executor, p, env);
    if s.executor.None? {
      EnableKeeps(s, executor, p, env);
      EnableCounts(s, executor, p, env);
    }
  }

  lemma EndedKeepsScreen(s: Session)
    ensures Ended(s).session.shared.monitor.isOn == s.shared.monitor.isOn
  {
    if s.task.Some? {
      OffEffect(s.task.value, s.shared);
    }
  }

  lemma ScreenCommand(w: World, executor: Option<Executor>, command: SaCommand, env: Env)
    requires Inv(w)
    ensures Process(w.session, executor, command, env, w.now).session.shared.monitor.isOn
            == LearntScreen(w, Command(executor, command, env), w.session.shared.monitor.isOn)
  {
    if executor.Some? {
      match command.id
      case ENABLE => EnableLearnsScreen(w.session, executor.value, command.param, env);
      case DISABLE => EndedKeepsScreen(w.session);
      case TURN_ON => TurningKeepsMonitor(w.session, executor.value, env, w.now);
      case TURN_OFF => TurningKeepsMonitor(w.session, executor.value, env, w.now);
      case OTHER(_) =>
    }
  }

  lemma ScreenReturn(w: World, id: nat)
    requires Books(w) && id in w.done
    ensures Return(w, id).session.shared.monitor.isOn == w.session.shared.monitor.isOn
  {
    ReturnIs(w, id);
  }

  lemma ScreenTimeOut(w: World, id: nat)
    requires Live(w, id).Some?
    ensures RunCallback(w, id).session.shared.monitor.isOn == w.session.shared.monitor.isOn
  {
    OffEffect(Live(w, id).value, w.session.shared);
  }

  lemma ScreenNotify(w: World)
    requires CanStep(w, DisconnectNotifies)
    ensures Notify(w).session.shared.monitor.isOn == w.session.shared.monitor.isOn
  {
    EndedKeepsScreen(w.session);
  }

  lemma ScreenStep(w: World, step: Step)
    requires Inv(w) && CanStep(w, step)
    ensures Next(w, step).session.shared.monitor.isOn == LearntScreen(w, step, w.session.shared.monitor.isOn)
  {
    if step.Command? {
      ScreenCommand(w, step.executor, step.command, step.env);
    } else if step.CallbackRuns? {
      ScreenTimeOut(w, step.task);
    } else if step.CallbackLocks? {
      LockIs(w, step.task);
    } else if step.CallbackReturns? {
      ScreenReturn(w, step.task);
    } else if step.DisconnectNotifies? {
      ScreenNotify(w);
    }
  }

  /** The monitor's view of the screen is the latest it was told, in every run. */
  lemma {:induction false} ScreenIsLatest(w: World, steps: seq<Step>)
    requires Inv(w) && Possible(w, steps)
    ensures Run(w, steps).session.shared.monitor.isOn == LatestScreen(w, steps, w.session.shared.monitor.isOn)
    decreases |steps|
  {
    if steps != [] {
      ScreenStep(w, steps[0]);
      InvStep(w, steps[0]);
      ScreenIsLatest(Next(w, steps[0]), steps[1..]);
    }
  }

  // ----- the library

  /** The library is open exactly if it was ever acquired. */
  ghost predicate OpenedByAcquire(sh: Shared) {
    sh.isOpened <==> Count(sh.log, Acquired) > 0
  }

  ghost predicate SameLibraryState(sh: Shared, sh': Shared) {
    sh'.isOpened == sh.isOpened && Count(sh'.log, Acquired) == Count(sh.log, Acquired)
  }

  lemma EndedKeepsLibrary(s: Session)
    requires SessionInv(s)
    ensures SameLibraryState(s.shared, Ended(s).session.shared)
  {
    if s.task.Some? {
      OffEffect(s.task.value, s.shared);
    }
  }

  lemma EnableOpens(s: Session, executor: Executor, p: EnableParam, env: Env)
    requires OpenedByAcquire(s.shared)
    ensures OpenedByAcquire(Enable(s, executor, p, env).session.shared)
  {
    if s.executor.None? && s.task.None? {
      StartedKeepsLibrary(AfterAcquire(s.shared, env).0, p, env);
    }
  }

  lemma StartedKeepsLibrary(sh: Shared, p: EnableParam, env: Env)
    ensures SameLibraryState(sh, Started(sh, p, env).1)
  {
    StartEffect(sh, p, env);
    var born := Task.NewTask(sh.nextTask).(hasDestructCallback := true);
    EnableEffect(born, Task.AfterConstruct(sh, env), p.centerX, p.centerY, p.radius, p.color, env);
  }

  lemma TurningKeepsLibrary(s: Session, executor: Executor, env: Env, now: nat)
    ensures SameLibraryState(s.shared, TurnOn(s, executor, env, now).session.shared)
    ensures SameLibraryState(s.shared, TurnOff(s, executor).session.shared)
  {
    if s.task.Some? {
      OnEffect(s.task.value, s.shared, env, now);
      OffEffect(s.task.value, s.shared);
    }
  }

  lemma OpenedCommand(w: World, executor: Option<Executor>, command: SaCommand, env: Env)
    requires SessionInv(w.session) && OpenedByAcquire(w.session.shared)
    ensures OpenedByAcquire(Process(w.session, executor, command, env, w.now).session.shared)
  {
    if executor.Some? {
      match command.id
      case ENABLE => EnableOpens(w.session, executor.value, command.param, env);
      case DISABLE => EndedKeepsLibrary(w.session);
      case TURN_ON => TurningKeepsLibrary(w.session, executor.value, env, w.now);
      case TURN_OFF => TurningKeepsLibrary(w.session, executor.value, env, w.now);
      case OTHER(_) =>
    }
  }

  lemma OpenedStep(w: World, step: Step)
    requires Inv(w) && CanStep(w, step) && OpenedByAcquire(w.session.shared)
    ensures OpenedByAcquire(Next(w, step).session.shared)
  {
    if step.Command? {
      OpenedCommand(w, step.executor, step.command, step.env);
    } else if step.CallbackRuns? {
      OffEffect(Live(w, step.task).value, w.session.shared);
    } else if step.CallbackLocks? {
      LockIs(w, step.task);
    } else if step.CallbackReturns? {
      OpenedReturn(w, step.task);
    } else if step.DisconnectNotifies? {
      EndedKeepsLibrary(w.session);
    }
  }

  lemma OpenedReturn(w: World, id: nat)
    requires Books(w) && id in w.done && OpenedByAcquire(w.session.shared)
    ensures OpenedByAcquire(Return(w, id).session.shared)
  {
    ReturnIs(w, id);
    if id in w.orphans {
      EndEffect(w.orphans[id], w.session.shared);
    }
  }

  lemma {:induction false} OpenedRun(w: World, steps: seq<Step>)
    requires Inv(w) && Possible(w, steps) && OpenedByAcquire(w.session.shared)
    ensures OpenedByAcquire(Run(w, steps).session.shared)
    decreases |steps|
  {
    if steps != [] {
      OpenedStep(w, steps[0]);
      InvStep(w, steps[0]);
      OpenedRun(Next(w, steps[0]), steps[1..]);
    }
  }

  /** In every run the library is opened by its first acquire and never closed. */
  lemma LibraryStaysOpen(opacity: Opacity, steps: seq<Step>)
    requires Possible(Initial(opacity), steps)
    ensures var sh := Reached(opacity, steps).session.shared;
            sh.isOpened <==> Count(sh.log, Acquired) > 0
  {
    InitialInv(opacity);
    OpenedRun(Initial(opacity), steps);
  }
}
