/** One illumination task: a surface node that is lit for at most a second at a
    time, with its timer, its redraw cache and its lifetime. */
module IlluminationTask {
  import opened Common
  import opened Environment
  import opened Trace
  import opened ScreenState
  import opened Platform
  import opened BackgroundAlpha
  import opened Geometry

  const MAX_DISPLAY_TIME: nat := 1000 // ms
  const INVALID_BRIGHTNESS: uint32 := UINT32_MAX

  /** The timer library as this subsystem uses it: one-shot timers with fresh,
      non-zero ids; `0` stands for the error a failed registration returns. */
  datatype Timer = Timer(pending: map<nat, nat>, lastId: nat) {
    function Without(id: nat): Timer {
      Timer(pending - {id}, lastId)
    }

    function With(ok: bool, deadline: nat): (Timer, nat) {
      if ok then (Timer(pending[lastId + 1 := deadline], lastId + 1), lastId + 1) else (this, 0)
    }
  }

  /** The fields of a task, and the number of shared pointers to it. */
  datatype TaskState = TaskState(
    id: nat, references: nat,
    screenId: Option<nat>, hasDirector: bool, node: Option<nat>, surface: Option<nat>,
    canvasParam: CanvasParam, brightness: uint32,
    timer: Timer, currTimerId: nat, isIlluminationOn: bool, hasDestructCallback: bool)

  datatype Outcome = Outcome(task: TaskState, shared: Shared, code: ResultCode)

  function Failed(t: TaskState, sh: Shared): Outcome {
    Outcome(t, sh, GENERAL_ERROR)
  }

  const BLANK := CanvasParam(0, 0, 0, 0, 0, 0, 0)

  function NewTask(id: nat): TaskState {
    TaskState(id, 1, None, false, None, None, BLANK, INVALID_BRIGHTNESS, Timer(map[], 0), 0, false, false)
  }

  function AfterConstruct(sh: Shared, env: Env): Shared {
    var m := AfterSubscribe(sh.monitor, env);
    WithEvent(sh.(monitor := m, nextTask := sh.nextTask + 1), Born(sh.nextTask, m.isSubscribing))
  }

  function AfterDestruct(t: TaskState, sh: Shared): Shared {
    var died := WithEvent(sh.(monitor := AfterUnsubscribe(sh.monitor)), Died(t.id));
    if t.hasDestructCallback then WithEvent(died, Released) else died
  }

  /** Giving up one shared pointer: the last one destructs the task. */
  function Dropped(t: TaskState, sh: Shared): (Option<TaskState>, Shared) {
    if t.references <= 1 then (None, AfterDestruct(t, sh))
    else (Some(t.(references := t.references - 1)), sh)
  }

  function Drawn(t: TaskState, sh: Shared, env: Env): Outcome {
    if t.surface.None? || env.brightness == INVALID_BRIGHTNESS then Failed(t, sh)
    else if env.brightness == t.brightness then Outcome(t, sh, SUCCESS)
    else
      var cached := t.(brightness := env.brightness);
      var missed := WithEvent(sh, DrawFailed(t.surface.value, env.brightness));
      var alpha := sh.opacity(ToInt32(env.brightness));
      if alpha.None? then Failed(cached, missed)
      else
        var tinted := cached.(canvasParam := t.canvasParam.(alpha := alpha.value));
        if !env.frameOk || !env.skSurfaceOk || !env.canvasOk then Failed(tinted, missed)
        else
          var flushed := Flushed(t.surface.value, env.brightness, tinted.canvasParam);
          Outcome(tinted, WithEvent(sh, flushed), SUCCESS)
  }

  /** The canvas parameters for a centre in thousandths of the display. */
  function CanvasFor(centerX: uint32, centerY: uint32, radius: uint32, color: uint32, display: (int32, int32)):
    Option<CanvasParam>
  {
    var (width, height) := display;
    var x, y := ThousandthToPx(centerX, ToUint32(width)), ThousandthToPx(centerY, ToUint32(height));
    if x.None? || y.None? then None
    else Some(CanvasParam(x.value, y.value, radius, color, 0, width, height))
  }

  function Enabled(t: TaskState, sh: Shared, centerX: uint32, centerY: uint32, radius: uint32, color: uint32,
                   env: Env): Outcome
  {
    var started := t.(screenId := env.screenId, hasDirector := env.directorOk);
    if !env.directorOk || !env.nodeOk then Failed(started, sh)
    else Mounted(started, sh, centerX, centerY, radius, color, env)
  }

  /** The part of enabling that creates the surface node and draws on it. */
  function Mounted(t: TaskState, sh: Shared, centerX: uint32, centerY: uint32, radius: uint32, color: uint32,
                   env: Env): Outcome
  {
    var created := sh.(nextNode := sh.nextNode + 1);
    if env.display.None? || !env.surfaceOk || !env.contextOk then Failed(t, created)
    else
      var canvas := CanvasFor(centerX, centerY, radius, color, env.display.value);
      if canvas.None? then Failed(t, created)
      else Drawn(t.(canvasParam := canvas.value, node := Some(sh.nextNode), surface := Some(sh.nextNode)), created, env)
  }

  function TurnedOff(t: TaskState, sh: Shared): Outcome {
    if t.node.None? then Failed(t, sh)
    else if !t.isIlluminationOn then Outcome(t, sh, SUCCESS)
    else
      var stopped := t.(timer := t.timer.Without(t.currTimerId));
      if t.screenId.None? then Failed(stopped, sh)
      else
        Outcome(stopped.(isIlluminationOn := false),
                WithEvent(sh, Detached(t.node.value, t.screenId.value)), SUCCESS)
  }

  function Armed(t: TaskState, env: Env, now: nat): TaskState {
    var (timer, id) := t.timer.Without(t.currTimerId).With(env.timerOk, now + MAX_DISPLAY_TIME);
    t.(timer := timer, currTimerId := id)
  }

  function LitUp(t: TaskState, sh: Shared, env: Env, now: nat): Outcome
    requires t.node.Some?
  {
    var armed := Armed(t, env, now);
    if t.screenId.None? then Failed(armed, sh)
    else
      Outcome(armed.(isIlluminationOn := true),
              WithEvent(sh, Attached(t.node.value, t.screenId.value, now)), SUCCESS)
  }

  function TurnedOn(t: TaskState, sh: Shared, env: Env, now: nat): Outcome {
    if t.node.None? then Failed(t, sh)
    else if !sh.monitor.isOn || t.isIlluminationOn then Outcome(t, sh, SUCCESS)
    else
      var drawn := Drawn(t, sh, env);
      if drawn.code != SUCCESS then Failed(drawn.task, drawn.shared)
      else LitUp(drawn.task, drawn.shared, env, now)
  }

  function Disabled(t: TaskState, sh: Shared): Outcome {
    var off := TurnedOff(t, sh);
    Outcome(off.task.(node := None),
            off.shared.(monitor := AfterUnsubscribe(off.shared.monitor)), SUCCESS)
  }

  class SensorIlluminationTask {
    const platform: Singletons
    const id: nat
    var references: nat
    var defaultScreenId: Option<nat>
    var hasDirector: bool
    var rsSurfaceNode: Option<nat>
    var rsSurface: Option<nat>
    var canvasParam: CanvasParam
    var brightness: uint32
    var timer: Timer
    var currTimerId: nat
    var isIlluminationOn: bool
    var hasDestructCallback: bool

    ghost function State(): TaskState
      reads this
    {
      TaskState(id, references, defaultScreenId, hasDirector, rsSurfaceNode, rsSurface, canvasParam, brightness,
                timer, currTimerId, isIlluminationOn, hasDestructCallback)
    }

    ghost predicate Valid()
      reads platform
    {
      platform.Valid()
    }

    constructor (platform: Singletons, env: Env)
      requires platform.Valid()
      modifies platform, platform.monitor, platform.recorder
      ensures this.platform == platform && Valid()
      ensures State() == NewTask(old(platform.nextTask))
      ensures platform.State() == AfterConstruct(old(platform.State()), env)
    {
      this.platform := platform;
      id := platform.nextTask;
      references := 1;
      defaultScreenId, hasDirector, rsSurfaceNode, rsSurface := None, false, None, None;
      canvasParam, brightness := BLANK, INVALID_BRIGHTNESS;
      timer, currTimerId, isIlluminationOn, hasDestructCallback := Timer(map[], 0), 0, false, false;
      new;
      platform.nextTask := platform.nextTask + 1;
      platform.monitor.Subscribe(env);
      platform.recorder.Record(Born(id, platform.monitor.isSubscribing));
    }

    /** What the destructor does to the outside. */
    method Destruct()
      requires Valid()
      modifies this, platform.monitor, platform.recorder
      ensures platform.State() == AfterDestruct(old(State()), old(platform.State()))
    {
      platform.monitor.Unsubscribe();
      timer := Timer(map[], timer.lastId);
      platform.recorder.Record(Died(id));
      if hasDestructCallback {
        platform.service.Release();
      }
    }

    /** Giving up one shared pointer. */
    method Drop()
      requires Valid()
      modifies this, platform.monitor, platform.recorder
      ensures var (left, sh) := Dropped(old(State()), old(platform.State()));
              platform.State() == sh && (left.Some? ==> State() == left.value)
    {
      if references <= 1 {
        Destruct();
      } else {
        references := references - 1;
      }
    }

    method RegisterDestructCallback()
      modifies this
      ensures State() == old(State()).(hasDestructCallback := true)
    {
      hasDestructCallback := true;
    }

    static method PlaceCanvas(centerX: uint32, centerY: uint32, radius: uint32, color: uint32, display: (int32, int32))
      returns (canvas: Option<CanvasParam>)
      ensures canvas == CanvasFor(centerX, centerY, radius, color, display)
    {
      var (width, height) := display;
      var centerXInPx := ConvertThousandthToPx(centerX, ToUint32(width));
      if centerXInPx.None? {
        return None;
      }
      var centerYInPx := ConvertThousandthToPx(centerY, ToUint32(height));
      if centerYInPx.None? {
        return None;
      }
      return Some(CanvasParam(centerXInPx.value, centerYInPx.value, radius, color, 0, width, height));
    }

    method EnableSensorIllumination(centerX: uint32, centerY: uint32, radius: uint32, color: uint32, env: Env)
      returns (code: ResultCode)
      requires Valid()
      modifies this, platform, platform.recorder
      ensures Outcome(State(), platform.State(), code)
              == Enabled(old(State()), old(platform.State()), centerX, centerY, radius, color, env)
    {
      defaultScreenId := env.screenId;
      hasDirector := env.directorOk;
      if !env.directorOk || !env.nodeOk {
        return GENERAL_ERROR;
      }
      code := MountNode(centerX, centerY, radius, color, env);
    }

    /** The part of enabling that creates the surface node and draws on it. */
    method MountNode(centerX: uint32, centerY: uint32, radius: uint32, color: uint32, env: Env)
      returns (code: ResultCode)
      requires Valid()
      modifies this, platform, platform.recorder
      ensures Outcome(State(), platform.State(), code)
              == Mounted(old(State()), old(platform.State()), centerX, centerY, radius, color, env)
    {
      var node := platform.CreateNode();
      if env.display.None? || !env.surfaceOk || !env.contextOk {
        return GENERAL_ERROR;
      }
      var canvas := PlaceCanvas(centerX, centerY, radius, color, env.display.value);
      if canvas.None? {
        return GENERAL_ERROR;
      }
      canvasParam := canvas.value;
      rsSurfaceNode := Some(node);
      rsSurface := Some(node);
      assert State() == old(State()).(canvasParam := canvas.value, node := Some(node), surface := Some(node));
      assert platform.State() == old(platform.State()).(nextNode := node + 1);
      code := DrawSurfaceNode(env);
    }

    method DisableSensorIllumination() returns (code: ResultCode)
      requires Valid()
      modifies this, platform.monitor, platform.recorder
      ensures Outcome(State(), platform.State(), code) == Disabled(old(State()), old(platform.State()))
    {
      var ignored := TurnOffSensorIllumination();
      rsSurfaceNode := None;
      platform.monitor.Unsubscribe();
      return SUCCESS;
    }

    method DrawSurfaceNode(env: Env) returns (code: ResultCode)
      requires Valid()
      modifies this, platform.recorder
      ensures Outcome(State(), platform.State(), code) == Drawn(old(State()), old(platform.State()), env)
    {
      if rsSurface.None? {
        return GENERAL_ERROR;
      }
      var current := env.brightness;
      if current == INVALID_BRIGHTNESS {
        return GENERAL_ERROR;
      }
      if current == brightness {
        return SUCCESS;
      }
      brightness := current;
      var alpha := GetBackgroundAlpha(platform.table, ToInt32(brightness));
      if alpha.None? {
        platform.recorder.Record(DrawFailed(rsSurface.value, brightness));
        return GENERAL_ERROR;
      }
      canvasParam := canvasParam.(alpha := alpha.value);
      if !env.frameOk || !env.skSurfaceOk || !env.canvasOk {
        platform.recorder.Record(DrawFailed(rsSurface.value, brightness));
        return GENERAL_ERROR;
      }
      platform.recorder.Record(Flushed(rsSurface.value, brightness, canvasParam));
      return SUCCESS;
    }

    method TurnOnSensorIllumination(env: Env, now: nat) returns (code: ResultCode)
      requires Valid()
      modifies this, platform.recorder
      ensures Outcome(State(), platform.State(), code) == TurnedOn(old(State()), old(platform.State()), env, now)
    {
      if rsSurfaceNode.None? {
        return GENERAL_ERROR;
      }
      var screenOn := platform.monitor.GetScreenOn();
      if !screenOn {
        return SUCCESS;
      }
      if isIlluminationOn {
        return SUCCESS;
      }
      var drawResult := DrawSurfaceNode(env);
      if drawResult != SUCCESS {
        return GENERAL_ERROR;
      }
      timer := timer.Without(currTimerId);
      var (registered, timerId) := timer.With(env.timerOk, now + MAX_DISPLAY_TIME);
      timer, currTimerId := registered, timerId;
      if defaultScreenId.None? {
        return GENERAL_ERROR;
      }
      platform.recorder.Record(Attached(rsSurfaceNode.value, defaultScreenId.value, now));
      isIlluminationOn := true;
      return SUCCESS;
    }

    method TurnOffSensorIllumination() returns (code: ResultCode)
      requires Valid()
      modifies this, platform.recorder
      ensures Outcome(State(), platform.State(), code) == TurnedOff(old(State()), old(platform.State()))
    {
      if rsSurfaceNode.None? {
        return GENERAL_ERROR;
      }
      if !isIlluminationOn {
        return SUCCESS;
      }
      timer := timer.Without(currTimerId);
      if defaultScreenId.None? {
        return GENERAL_ERROR;
      }
      platform.recorder.Record(Detached(rsSurfaceNode.value, defaultScreenId.value));
      isIlluminationOn := false;
      return SUCCESS;
    }

    method OnDisplayTimeOut()
      requires Valid()
      modifies this, platform.recorder
      ensures var off := TurnedOff(old(State()), old(platform.State()));
              State() == off.task && platform.State() == off.shared
    {
      var ignored := TurnOffSensorIllumination();
    }
  }
}
