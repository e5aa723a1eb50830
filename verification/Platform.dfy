/** The state every task and manager shares: the process-wide singletons, the
    history, and the fresh identities handed out by the rendering service. */
module Platform {
  import opened Common
  import opened Environment
  import opened Trace
  import opened ScreenState
  import opened BackgroundAlpha

  datatype Shared = Shared(
    opacity: Opacity, monitor: Monitor, isOpened: bool, log: Log, nextTask: nat, nextNode: nat)

  function InitialShared(opacity: Opacity): Shared {
    Shared(opacity, Monitor(false, false), false, [], 0, 0)
  }

  function WithEvent(sh: Shared, e: Event): Shared {
    sh.(log := Emit(sh.log, e))
  }

  /** Acquiring the extension library: opened on first use and then kept open. */
  function AfterAcquire(sh: Shared, env: Env): (Shared, ResultCode) {
    if !sh.isOpened && !env.dlopenOk then (sh, GENERAL_ERROR)
    else (WithEvent(sh.(isOpened := true), Acquired), SUCCESS)
  }

  class Recorder {
    ghost var log: Log

    constructor ()
      ensures log == []
    {
      log := [];
    }

    ghost method Record(e: Event)
      modifies this
      ensures log == Emit(old(log), e)
    {
      log := Emit(log, e);
    }
  }

  class ServiceExManager {
    const recorder: Recorder
    var isOpened: bool

    constructor (recorder: Recorder)
      ensures this.recorder == recorder && !isOpened
    {
      this.recorder := recorder;
      isOpened := false;
    }

    method Acquire(env: Env) returns (code: ResultCode)
      modifies this, recorder
      ensures code == if !old(isOpened) && !env.dlopenOk then GENERAL_ERROR else SUCCESS
      ensures isOpened == (old(isOpened) || code == SUCCESS)
      ensures recorder.log == if code == SUCCESS then Emit(old(recorder.log), Acquired) else old(recorder.log)
    {
      if !isOpened {
        if !env.dlopenOk {
          return GENERAL_ERROR;
        }
        isOpened := true;
      }
      recorder.Record(Acquired);
      return SUCCESS;
    }

    // The library itself is never closed in this version.
    method Release()
      modifies recorder
      ensures recorder.log == Emit(old(recorder.log), Released)
    {
      recorder.Record(Released);
    }
  }

  class Singletons {
    const table: Table
    const recorder: Recorder
    const monitor: ScreenStateMonitor
    const service: ServiceExManager
    var nextTask: nat
    var nextNode: nat

    ghost predicate Valid()
      reads this
    {
      service.recorder == recorder
    }

    ghost function State(): Shared
      reads this, recorder, monitor, service
    {
      Shared(OpacityOf(table), monitor.State(), service.isOpened, recorder.log, nextTask, nextNode)
    }

    constructor ()
      ensures Valid() && State() == InitialShared(OpacityOf(BRIGHTNESS_AND_ALPHA))
      ensures fresh(recorder) && fresh(monitor) && fresh(service)
    {
      table := BRIGHTNESS_AND_ALPHA;
      var r := new Recorder();
      recorder := r;
      monitor := new ScreenStateMonitor();
      service := new ServiceExManager(r);
      nextTask, nextNode := 0, 0;
    }

    /** The rendering service hands out a new surface node. */
    method CreateNode() returns (node: nat)
      modifies this
      ensures node == old(nextNode) && State() == old(State()).(nextNode := node + 1)
    {
      node := nextNode;
      nextNode := node + 1;
    }
  }
}
