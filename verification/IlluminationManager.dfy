/** The session manager: at most one executor at a time owns at most one task. */
module IlluminationManager {
  import opened Common
  import opened Environment
  import opened Trace
  import opened Platform
  import Task = IlluminationTask

  const MAX_RADIUS_LEN: nat := 300
  const MAX_X_Y_VALUE: nat := 1000 // center X and Y in per thousand

  /** The identity of a shared pointer to an executor. */
  type Executor = nat

  datatype SaCommandId = ENABLE | DISABLE | TURN_ON | TURN_OFF | OTHER(code: int)

  datatype EnableParam = EnableParam(centerX: uint32, centerY: uint32, radius: uint32, color: uint32)

  datatype SaCommand = SaCommand(id: SaCommandId, param: EnableParam)

  /** The manager's two fields and what it shares with its tasks. */
  datatype Session = Session(executor: Option<Executor>, task: Option<Task.TaskState>, shared: Shared)

  /** A handler's result: the new session, the task it let go of when somebody
      else still holds it, and the code. */
  datatype Reply = Reply(session: Session, orphan: Option<Task.TaskState>, code: ResultCode)

  function Refused(s: Session): Reply {
    Reply(s, None, GENERAL_ERROR)
  }

  predicate ParamAccepted(p: EnableParam) {
    p.centerX < MAX_X_Y_VALUE && p.centerY < MAX_X_Y_VALUE && p.radius < MAX_RADIUS_LEN
  }

  /** A new task put to work, or destructed again when its parameters or its display are refused. */
  function Started(acquired: Shared, p: EnableParam, env: Env): (Option<Task.TaskState>, Shared) {
    var born := Task.NewTask(acquired.nextTask).(hasDestructCallback := true);
    var sh := Task.AfterConstruct(acquired, env);
    if !ParamAccepted(p) then (None, Task.AfterDestruct(born, sh))
    else
      var enabled := Task.Enabled(born, sh, p.centerX, p.centerY, p.radius, p.color, env);
      if enabled.code != SUCCESS then (None, Task.AfterDestruct(enabled.task, enabled.shared))
      else (Some(enabled.task), enabled.shared)
  }

  function Enable(s: Session, executor: Executor, p: EnableParam, env: Env): Reply {
    if s.executor.Some? || s.task.Some? then Refused(s)
    else
      var (acquired, code) := AfterAcquire(s.shared, env);
      if code != SUCCESS then Refused(s)
      else if !env.symbolOk || !env.allocOk then Refused(s.(shared := WithEvent(acquired, Released)))
      else
        var (started, sh) := Started(acquired, p, env);
        if started.None? then Refused(s.(shared := sh))
        else Reply(Session(Some(executor), started, sh), None, SUCCESS)
  }

  /** Ending the session: the task is disabled and let go of. */
  function Ended(s: Session): Reply {
    if s.task.None? then Reply(s.(executor := None), None, SUCCESS)
    else
      var disabled := Task.Disabled(s.task.value, s.shared);
      var (orphan, sh) := Task.Dropped(disabled.task, disabled.shared);
      Reply(Session(None, None, sh), orphan, SUCCESS)
  }

  function Disable(s: Session, executor: Executor): Reply {
    if s.executor != Some(executor) then Refused(s) else Ended(s)
  }

  function TurnOn(s: Session, executor: Executor, env: Env, now: nat): Reply {
    if s.executor != Some(executor) || s.task.None? then Refused(s)
    else
      var on := Task.TurnedOn(s.task.value, s.shared, env, now);
      Reply(s.(task := Some(on.task), shared := on.shared), None, on.code)
  }

  function TurnOff(s: Session, executor: Executor): Reply {
    if s.executor != Some(executor) || s.task.None? then Refused(s)
    else
      var off := Task.TurnedOff(s.task.value, s.shared);
      Reply(s.(task := Some(off.task), shared := off.shared), None, off.code)
  }

  function Process(s: Session, executor: Option<Executor>, command: SaCommand, env: Env, now: nat): Reply {
    if executor.None? then Refused(s)
    else
      match command.id
      case ENABLE => Enable(s, executor.value, command.param, env)
      case DISABLE => Disable(s, executor.value)
      case TURN_ON => TurnOn(s, executor.value, env, now)
      case TURN_OFF => TurnOff(s, executor.value)
      case OTHER(_) => Refused(s)
  }

  /** The manager's reaction to an executor's driver going away. */
  function Disconnected(s: Session, executor: Option<Executor>): Reply {
    if executor.None? || s.executor != executor then Reply(s, None, SUCCESS) else Ended(s)
  }

  class SensorIlluminationManager {
    const platform: Singletons
    var executorInProc: Option<Executor>
    var taskInProc: Task.SensorIlluminationTask?

    ghost predicate Valid()
      reads this, platform
    {
      && platform.Valid()
      && (taskInProc != null ==> taskInProc.platform == platform)
    }

    ghost function TaskState(): Option<Task.TaskState>
      reads this, taskInProc
    {
      if taskInProc == null then None else Some(taskInProc.State())
    }

    ghost function State(): Session
      reads this, taskInProc, platform, platform.recorder, platform.monitor, platform.service
    {
      Session(executorInProc, TaskState(), platform.State())
    }

    /** Manager and platform are in the reply's state, and so is the task held before, if it was let go of. */
    ghost predicate Gives(reply: Reply, before: Task.SensorIlluminationTask?)
      reads this, taskInProc, platform, platform.recorder, platform.monitor, platform.service, before
    {
      && State() == reply.session
      && (reply.orphan.Some? ==> before != null && before.State() == reply.orphan.value)
    }

    constructor (platform: Singletons)
      requires platform.Valid()
      ensures this.platform == platform && Valid()
      ensures executorInProc == None && taskInProc == null
    {
      this.platform := platform;
      executorInProc, taskInProc := None, null;
    }

    method ProcessSaCommand(executor: Option<Executor>, command: SaCommand, env: Env, now: nat)
      returns (code: ResultCode)
      requires Valid()
      modifies this, taskInProc, platform, platform.recorder, platform.monitor, platform.service
      ensures Valid()
      ensures var reply := Process(old(State()), executor, command, env, now);
              code == reply.code && Gives(reply, old(taskInProc))
    {
      if executor.None? {
        return GENERAL_ERROR;
      }
      code := GENERAL_ERROR;
      match command.id {
        case ENABLE => code := EnableSensorIllumination(executor.value, command.param, env);
        case DISABLE => code := DisableSensorIllumination(executor.value);
        case TURN_ON => code := TurnOnSensorIllumination(executor.value, env, now);
        case TURN_OFF => code := TurnOffSensorIllumination(executor.value);
        case OTHER(_) =>
      }
    }

    method OnHdiDisconnect(executor: Option<Executor>)
      requires Valid()
      modifies this, taskInProc, platform.recorder, platform.monitor
      ensures Valid()
      ensures Gives(Disconnected(old(State()), executor), old(taskInProc))
    {
      if executor.None? {
        return;
      }
      if executorInProc != executor {
        return;
      }
      executorInProc := None;
      if taskInProc != null {
        var ignored := taskInProc.DisableSensorIllumination();
        taskInProc.Drop();
        taskInProc := null;
      }
    }

    method EnableSensorIllumination(executor: Executor, param: EnableParam, env: Env) returns (code: ResultCode)
      requires Valid()
      modifies this, platform, platform.recorder, platform.monitor, platform.service
      ensures Valid()
      ensures var reply := Enable(old(State()), executor, param, env);
              code == reply.code && State() == reply.session && reply.orphan.None?
    {
      if executorInProc.Some? {
        return GENERAL_ERROR;
      }
      if taskInProc != null {
        return GENERAL_ERROR;
      }
      var acquireRet := platform.service.Acquire(env);
      if acquireRet != SUCCESS {
        return GENERAL_ERROR;
      }
      if !env.symbolOk || !env.allocOk {
        platform.service.Release();
        return GENERAL_ERROR;
      }
      var task := StartTask(param, env);
      if task == null {
        return GENERAL_ERROR;
      }
      executorInProc := Some(executor);
      taskInProc := task;
      return SUCCESS;
    }

    /** The part of enabling that follows the construction of the task. */
    method StartTask(param: EnableParam, env: Env) returns (task: Task.SensorIlluminationTask?)
      requires platform.Valid()
      modifies platform, platform.recorder, platform.monitor
      ensures task != null ==> fresh(task) && task.platform == platform
      ensures var (started, sh) := Started(old(platform.State()), param, env);
              && platform.State() == sh
              && started == if task == null then None else Some(task.State())
    {
      task := new Task.SensorIlluminationTask(platform, env);
      task.RegisterDestructCallback();
      if param.centerX >= MAX_X_Y_VALUE || param.centerY >= MAX_X_Y_VALUE || param.radius >= MAX_RADIUS_LEN {
        task.Drop();
        return null;
      }
      var enableResultCode :=
        task.EnableSensorIllumination(param.centerX, param.centerY, param.radius, param.color, env);
      if enableResultCode != SUCCESS {
        task.Drop();
        return null;
      }
    }

    method DisableSensorIllumination(executor: Executor) returns (code: ResultCode)
      requires Valid()
      modifies this, taskInProc, platform.recorder, platform.monitor
      ensures Valid()
      ensures var reply := Disable(old(State()), executor);
              code == reply.code && Gives(reply, old(taskInProc))
    {
      if executorInProc != Some(executor) {
        return GENERAL_ERROR;
      }
      executorInProc := None;
      if taskInProc != null {
        var ignored := taskInProc.DisableSensorIllumination();
        taskInProc.Drop();
        taskInProc := null;
      }
      return SUCCESS;
    }

    method TurnOnSensorIllumination(executor: Executor, env: Env, now: nat) returns (code: ResultCode)
      requires Valid()
      modifies taskInProc, platform.recorder
      ensures Valid()
      ensures var reply := TurnOn(old(State()), executor, env, now);
              code == reply.code && Gives(reply, old(taskInProc))
    {
      if executorInProc != Some(executor) {
        return GENERAL_ERROR;
      }
      if taskInProc == null {
        return GENERAL_ERROR;
      }
      var turnOnResultCode := taskInProc.TurnOnSensorIllumination(env, now);
      if turnOnResultCode != SUCCESS {
        return GENERAL_ERROR;
      }
      return SUCCESS;
    }

    method TurnOffSensorIllumination(executor: Executor) returns (code: ResultCode)
      requires Valid()
      modifies taskInProc, platform.recorder
      ensures Valid()
      ensures var reply := TurnOff(old(State()), executor);
              code == reply.code && Gives(reply, old(taskInProc))
    {
      if executorInProc != Some(executor) {
        return GENERAL_ERROR;
      }
      if taskInProc == null {
        return GENERAL_ERROR;
      }
      var turnOffResultCode := taskInProc.TurnOffSensorIllumination();
      if turnOffResultCode != SUCCESS {
        return GENERAL_ERROR;
      }
      return SUCCESS;
    }
  }
}
