/** The whole subsystem as a transition system: commands, timer callbacks on
    their own threads, screen events, driver connects and disconnects, and time,
    interleaved in any order.  Every method that runs under one lock is one step;
    the destructor, which has no lock of its own, is taken at its unsubscription. */
module World {
  import opened Common
  import opened Environment
  import opened Platform
  import opened BackgroundAlpha
  import opened IlluminationManager
  import Task = IlluminationTask

  /** The driver's executors, and how far its disconnect loop has come. */
  datatype Driver = Driver(executors: seq<Executor>, cursor: Option<nat>)

  /** Timer callbacks are counted by the task they belong to: `queued` ones hold a
      weak reference, `locked` and `done` ones a strong one, before and after
      the time-out has been handled.  `orphans` are the tasks only callbacks hold. */
  datatype World = World(
    session: Session, orphans: map<nat, Task.TaskState>,
    queued: multiset<nat>, locked: multiset<nat>, done: multiset<nat>,
    driver: Driver, nextExecutor: Executor, now: nat)

  datatype Step =
    | Command(executor: Option<Executor>, command: SaCommand, env: Env)
    | TimerFires(task: nat, timerId: nat)
    | CallbackLocks(task: nat)
    | CallbackRuns(task: nat)
    | CallbackReturns(task: nat)
    | ScreenEvent(isOn: bool)
    | Connects(count: nat)
    | DisconnectBegins
    | DisconnectNotifies
    | DisconnectEnds
    | TimePasses(ms: nat)

  function Initial(opacity: Opacity): World {
    World(Session(None, None, InitialShared(opacity)), map[], multiset{}, multiset{}, multiset{}, Driver([], None), 0, 0)
  }

  /** The task with this identity, if it still exists. */
  function Live(w: World, id: nat): Option<Task.TaskState> {
    if w.session.task.Some? && w.session.task.value.id == id then w.session.task
    else if id in w.orphans then Some(w.orphans[id])
    else None
  }

  /** The world with this task replaced, or gone. */
  function WithTask(w: World, id: nat, t: Option<Task.TaskState>): World {
    if w.session.task.Some? && w.session.task.value.id == id then w.(session := w.session.(task := t))
    else if t.Some? then w.(orphans := w.orphans[id := t.value])
    else w.(orphans := w.orphans - {id})
  }

  function WithShared(w: World, sh: Shared): World {
    w.(session := w.session.(shared := sh))
  }

  function Adopt(w: World, reply: Reply): World {
    w.(session := reply.session,
       orphans := if reply.orphan.Some? then w.orphans[reply.orphan.value.id := reply.orphan.value] else w.orphans)
  }

  /** A command reaching the manager. */
  function Perform(w: World, executor: Option<Executor>, command: SaCommand, env: Env): World {
    Adopt(w, Process(w.session, executor, command, env, w.now))
  }

  predicate CanStep(w: World, step: Step) {
    match step
    case TimerFires(id, timerId) =>
      var t := Live(w, id);
      t.Some? && timerId in t.value.timer.pending && t.value.timer.pending[timerId] <= w.now
    case CallbackLocks(id) => id in w.queued
    case CallbackRuns(id) => id in w.locked
    case CallbackReturns(id) => id in w.done
    case Connects(_) => w.driver.cursor.None?
    case DisconnectBegins => w.driver.cursor.None?
    case DisconnectNotifies => w.driver.cursor.Some? && w.driver.cursor.value < |w.driver.executors|
    case DisconnectEnds => w.driver.cursor == Some(|w.driver.executors|)
    case _ => true
  }

  function Fire(w: World, id: nat, timerId: nat): World {
    var t := Live(w, id);
    if t.None? then w
    else
      WithTask(w, id, Some(t.value.(timer := t.value.timer.Without(timerId)))).(queued := w.queued + multiset{id})
  }

  /** The weak pointer is promoted if the task still exists. */
  function Lock(w: World, id: nat): World {
    var t := Live(w, id);
    var taken := w.(queued := w.queued - multiset{id});
    if t.None? then taken
    else
      WithTask(taken, id, Some(t.value.(references := t.value.references + 1))).(locked := w.locked + multiset{id})
  }

  function RunCallback(w: World, id: nat): World {
    var t := Live(w, id);
    if t.None? then w
    else
      var off := Task.TurnedOff(t.value, w.session.shared);
      WithTask(WithShared(w, off.shared), id, Some(off.task))
        .(locked := w.locked - multiset{id}, done := w.done + multiset{id})
  }

  function Return(w: World, id: nat): World {
    var t := Live(w, id);
    if t.None? then w
    else
      var (left, sh) := Task.Dropped(t.value, w.session.shared);
      WithTask(WithShared(w, sh), id, left).(done := w.done - multiset{id})
  }

  function Notify(w: World): World
    requires CanStep(w, DisconnectNotifies)
  {
    var i := w.driver.cursor.value;
    Adopt(w, Disconnected(w.session, Some(w.driver.executors[i]))).(driver := w.driver.(cursor := Some(i + 1)))
  }

  function Next(w: World, step: Step): World
    requires CanStep(w, step)
  {
    match step
    case Command(executor, command, env) => Perform(w, executor, command, env)
    case TimerFires(id, timerId) => Fire(w, id, timerId)
    case CallbackLocks(id) => Lock(w, id)
    case CallbackRuns(id) => RunCallback(w, id)
    case CallbackReturns(id) => Return(w, id)
    case ScreenEvent(isOn) => WithShared(w, w.session.shared.(monitor := w.session.shared.monitor.(isOn := isOn)))
    case Connects(count) =>
      w.(driver := Driver(seq(count, i requires 0 <= i => w.nextExecutor + i), None),
         nextExecutor := w.nextExecutor + count)
    case DisconnectBegins => w.(driver := w.driver.(cursor := Some(0)))
    case DisconnectNotifies => Notify(w)
    case DisconnectEnds => w.(driver := Driver([], None))
    case TimePasses(ms) => w.(now := w.now + ms)
  }

  predicate Possible(w: World, steps: seq<Step>)
    decreases |steps|
  {
    steps == [] || (CanStep(w, steps[0]) && Possible(Next(w, steps[0]), steps[1..]))
  }

  function Run(w: World, steps: seq<Step>): World
    requires Possible(w, steps)
    decreases |steps|
  {
    if steps == [] then w else Run(Next(w, steps[0]), steps[1..])
  }
}
