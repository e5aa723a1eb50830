/** The layers put together: batches of commands and driver disconnects as the
    illumination session sees them. */
module Composition {
  import opened Common
  import opened Environment
  import opened Trace
  import opened BackgroundAlpha
  import opened IlluminationManager
  import opened World
  import opened Invariants
  import opened Refinement
  import opened Guarantees
  import opened CommandRegistry
  import opened DriverHdi
  import Task = IlluminationTask

  // ----- batches of commands, with the illumination manager as the only processor

  /** The world, and how many calls have drawn their outcomes from the environment. */
  datatype Station = Station(world: World, turn: nat)

  function Serve(oracle: nat -> Env): Behaviour<Station> {
    (st: Station, p: Processor, executor: Option<Executor>, command: SaCommand) =>
      (Station(Perform(st.world, executor, command, oracle(st.turn)), st.turn + 1),
       Process(st.world.session, executor, command, oracle(st.turn), st.world.now).code)
  }

  const ILLUMINATION_COMMANDS := [ENABLE, DISABLE, TURN_ON, TURN_OFF]

  /** The registry after the manager registered itself at start-up. */
  function SoleRegistry(manager: Processor): Registry {
    Registered(EMPTY, ILLUMINATION_COMMANDS, Some(manager))
  }

  function SoleCalls(manager: Processor, commands: seq<SaCommand>): seq<Call> {
    if commands == [] then []
    else if commands[0].id.OTHER? then [Unknown(commands[0])]
    else [Invoke(commands[0], manager)] + SoleCalls(manager, commands[1..])
  }

  lemma SoleBinding(manager: Processor, id: SaCommandId)
    ensures id in SoleRegistry(manager).byCommand <==> !id.OTHER?
    ensures id in SoleRegistry(manager).byCommand ==> SoleRegistry(manager).byCommand[id] == {manager}
    ensures InOrder({manager}) == [manager]
  {
    AddToBinds(map[], ILLUMINATION_COMMANDS, manager, id);
    match id
    case ENABLE => assert ILLUMINATION_COMMANDS[0] == id;
    case DISABLE => assert ILLUMINATION_COMMANDS[1] == id;
    case TURN_ON => assert ILLUMINATION_COMMANDS[2] == id;
    case TURN_OFF => assert ILLUMINATION_COMMANDS[3] == id;
    case OTHER(_) =>
  }

  /** Each of the four commands goes to the manager once; any other ends the batch. */
  lemma {:induction false} SoleCallsExactly(manager: Processor, commands: seq<SaCommand>)
    ensures Calls(SoleRegistry(manager), commands) == SoleCalls(manager, commands)
  {
    if commands != [] {
      SoleBinding(manager, commands[0].id);
      SoleCallsExactly(manager, commands[1..]);
    }
  }

  /** Who owns the sensor, and through which task. */
  function Ownership(w: World): (Option<Executor>, Option<nat>) {
    (w.session.executor, if w.session.task.Some? then Some(w.session.task.value.id) else None)
  }

  lemma FailedCommandKeeps(w: World, executor: Option<Executor>, command: SaCommand, env: Env)
    requires Inv(w) && Process(w.session, executor, command, env, w.now).code != SUCCESS
    ensures var w' := Perform(w, executor, command, env);
            Ownership(w') == Ownership(w) && Abstract(w') == Abstract(w)
  {
    RefinesCommand(w, executor, command, env);
    if w.session.executor.Some? && (executor != w.session.executor || !command.id.DISABLE?) {
      OwnerKeepsCommand(w.session, executor, command, env, w.now);
    }
  }

  /** A sequence of calls leaves the ownership, and the automaton's state, where its
      longest successful prefix left them: the failing call changes neither. */
  lemma {:induction false} CallsOwnership(calls: seq<Call>, executor: Option<Executor>, oracle: nat -> Env, st: Station)
    requires Inv(st.world)
    ensures var r := Dispatch(calls, executor, Serve(oracle), st);
            var n := SuccessfulPrefix(calls, executor, Serve(oracle), st);
            var prefix := After(calls[..n], executor, Serve(oracle), st);
            && Inv(r.state.world)
            && Ownership(r.state.world) == Ownership(prefix.world)
            && Abstract(r.state.world) == Abstract(prefix.world)
            && (r.code == SUCCESS <==> n == |calls|)
  {
    if calls != [] && calls[0].Invoke? {
      var command := calls[0].command;
      var env := oracle(st.turn);
      var (st', code) := Serve(oracle)(st, calls[0].processor, executor, command);
      InvCommand(st.world, executor, command, env);
      FirstCall(calls, executor, Serve(oracle), st);
      if code == SUCCESS {
        CallsOwnership(calls[1..], executor, oracle, st');
      } else {
        FailedCommandKeeps(st.world, executor, command, env);
      }
    } else {
      assert calls[..0] == [];
    }
  }

  /** With the program's registry, a batch runs its commands one by one on the
      manager, and leaves the ownership where its longest successful prefix left it. */
  lemma BatchOwnership(manager: Processor, commands: seq<SaCommand>, executor: Option<Executor>, oracle: nat -> Env,
                       st: Station)
    requires Inv(st.world)
    ensures var r := Batch(SoleRegistry(manager), commands, executor, Serve(oracle), st);
            var calls := SoleCalls(manager, commands);
            var n := SuccessfulPrefix(calls, executor, Serve(oracle), st);
            var prefix := After(calls[..n], executor, Serve(oracle), st);
            && Inv(r.state.world)
            && Ownership(r.state.world) == Ownership(prefix.world)
            && Abstract(r.state.world) == Abstract(prefix.world)
            && (r.code == SUCCESS <==> n == |calls|)
            && (r.code == SUCCESS ==> forall i :: 0 <= i < |commands| ==> !commands[i].id.OTHER?)
  {
    SoleCallsExactly(manager, commands);
    CallsOwnership(SoleCalls(manager, commands), executor, oracle, st);
    if Batch(SoleRegistry(manager), commands, executor, Serve(oracle), st).code == SUCCESS {
      NoneUnknown(SoleCalls(manager, commands), executor, oracle, st);
      SoleCallsKnown(manager, commands);
    }
  }

  lemma {:induction false} NoneUnknown(calls: seq<Call>, executor: Option<Executor>, oracle: nat -> Env, st: Station)
    requires SuccessfulPrefix(calls, executor, Serve(oracle), st) == |calls|
    ensures forall i :: 0 <= i < |calls| ==> calls[i].Invoke?
  {
    if calls != [] {
      var (st', code) := Serve(oracle)(st, calls[0].processor, executor, calls[0].command);
      NoneUnknown(calls[1..], executor, oracle, st');
    }
  }

  lemma {:induction false} SoleCallsKnown(manager: Processor, commands: seq<SaCommand>)
    requires forall i :: 0 <= i < |SoleCalls(manager, commands)| ==> SoleCalls(manager, commands)[i].Invoke?
    ensures forall i :: 0 <= i < |commands| ==> !commands[i].id.OTHER?
  {
    if commands != [] {
      var calls := SoleCalls(manager, commands);
      assert calls[0].Invoke?;
      assert calls[1..] == SoleCalls(manager, commands[1..]);
      SoleCallsKnown(manager, commands[1..]);
    }
  }

  // ----- disconnects

  /** The manager's reaction to an executor's disconnect. */
  function Leave(w: World, executor: Executor): World {
    Adopt(w, Disconnected(w.session, Some(executor)))
  }

  function ManagerReaction(manager: Processor, executor: Executor): Notification<World> {
    (w: World, p: Processor) => if p == manager then Leave(w, executor) else w
  }

  /** An executor's disconnect, broadcast through the registry. */
  function ThroughRegistry(reg: Registry, manager: Processor): Reaction<World> {
    (w: World, executor: Executor) => Broadcast(InOrder(reg.processors), ManagerReaction(manager, executor), w)
  }

  lemma BroadcastIsLeave(reg: Registry, manager: Processor, w: World, executor: Executor)
    ensures ThroughRegistry(reg, manager)(w, executor) ==
            if manager in reg.processors then Leave(w, executor) else w
  {
    BroadcastReaches(InOrder(reg.processors), ManagerReaction(manager, executor), w, manager);
  }

  lemma LeaveEffect(w: World, executor: Executor)
    requires Inv(w)
    ensures Inv(Leave(w, executor))
    ensures if w.session.executor == Some(executor)
            then Leave(w, executor).session.executor.None? && Abstract(Leave(w, executor)).Idle?
            else Leave(w, executor) == w
  {
    RefinesEnded(w);
    InvEnded(w);
  }

  lemma {:induction false} LoopEffect(reg: Registry, manager: Processor, executors: seq<Executor>, w: World)
    requires Inv(w) && manager in reg.processors
    ensures var w' := NotifyAll(executors, ThroughRegistry(reg, manager), w);
            && Inv(w')
            && w' == (if w.session.executor.Some? && w.session.executor.value in executors
                      then Leave(w, w.session.executor.value) else w)
  {
    if executors != [] {
      var w1 := Leave(w, executors[0]);
      LeaveEffect(w, executors[0]);
      BroadcastIsLeave(reg, manager, w, executors[0]);
      LoopEffect(reg, manager, executors[1..], w1);
      assert executors == [executors[0]] + executors[1..];
    }
  }

  /** The driver's loop ends the session if its owner is in the list, and otherwise
      changes nothing at all.  So it drains the session exactly if there is none or
      its owner is still listed. */
  lemma LoopDrainsExactly(reg: Registry, manager: Processor, executors: seq<Executor>, w: World)
    requires Inv(w) && manager in reg.processors
    ensures var w' := NotifyAll(executors, ThroughRegistry(reg, manager), w);
            && w' == (if w.session.executor.Some? && w.session.executor.value in executors
                      then Leave(w, w.session.executor.value) else w)
            && (Abstract(w').Idle? <==> w.session.executor.None? || w.session.executor.value in executors)
            && Inv(w')
  {
    LoopEffect(reg, manager, executors, w);
    if w.session.executor.Some? {
      LeaveEffect(w, w.session.executor.value);
    }
  }

  /** The connect step makes the list the driver makes for that many usable proxies. */
  lemma ConnectIsMade(w: World, proxies: seq<Proxy>)
    requires CanStep(w, Connects(Usable(proxies)))
    ensures var w' := Next(w, Connects(Usable(proxies)));
            && w'.driver.executors == Made(proxies, w.nextExecutor) && w'.driver.cursor.None?
            && w'.nextExecutor == w.nextExecutor + |Made(proxies, w.nextExecutor)|
            && w'.session == w.session
  {
    MadeIsFresh(proxies, w.nextExecutor);
  }

  /** The driver's loop step by step, from telling the first of `n` executors to the end. */
  function Telling(n: nat): seq<Step> {
    if n == 0 then [DisconnectEnds] else [DisconnectNotifies] + Telling(n - 1)
  }

  function WholeLoop(w: World): seq<Step> {
    [DisconnectBegins] + Telling(|w.driver.executors|)
  }

  lemma TellOne(w: World, reg: Registry, manager: Processor)
    requires manager in reg.processors && CanStep(w, DisconnectNotifies)
    ensures var i := w.driver.cursor.value;
            Next(w, DisconnectNotifies) ==
            ThroughRegistry(reg, manager)(w, w.driver.executors[i]).(driver := w.driver.(cursor := Some(i + 1)))
  {
    BroadcastIsLeave(reg, manager, w, w.driver.executors[w.driver.cursor.value]);
  }

  /** Telling does not look at the driver. */
  lemma {:induction false} TellingIgnoresDriver(reg: Registry, manager: Processor, executors: seq<Executor>, w: World, d: Driver)
    requires manager in reg.processors
    ensures NotifyAll(executors, ThroughRegistry(reg, manager), w.(driver := d))
            == NotifyAll(executors, ThroughRegistry(reg, manager), w).(driver := d)
  {
    if executors != [] {
      BroadcastIsLeave(reg, manager, w, executors[0]);
      BroadcastIsLeave(reg, manager, w.(driver := d), executors[0]);
      TellingIgnoresDriver(reg, manager, executors[1..], Leave(w, executors[0]), d);
    }
  }

  lemma {:induction false} TellingIsNotifyAll(reg: Registry, manager: Processor, w: World, n: nat)
    requires manager in reg.processors
    requires w.driver.cursor.Some? && w.driver.cursor.value + n == |w.driver.executors|
    ensures Possible(w, Telling(n))
    ensures Run(w, Telling(n)) ==
            NotifyAll(w.driver.executors[w.driver.cursor.value..], ThroughRegistry(reg, manager), w)
            .(driver := Driver([], None))
    decreases n
  {
    var i, executors := w.driver.cursor.value, w.driver.executors;
    if n == 0 {
      assert executors[i..] == [];
      assert Possible(Next(w, DisconnectEnds), []);
    } else {
      var w' := Next(w, DisconnectNotifies);
      var told := ThroughRegistry(reg, manager)(w, executors[i]);
      TellOne(w, reg, manager);
      BroadcastIsLeave(reg, manager, w, executors[i]);
      TellingIsNotifyAll(reg, manager, w', n - 1);
      TellingIgnoresDriver(reg, manager, executors[i + 1..], told, w'.driver);
      assert executors[i..][1..] == executors[i + 1..];
      assert Telling(n)[1..] == Telling(n - 1);
    }
  }

  /** Undisturbed, the steps of the loop are the driver's loop through the registry. */
  lemma LoopIsNotifyAll(reg: Registry, manager: Processor, w: World)
    requires manager in reg.processors && w.driver.cursor.None?
    ensures Possible(w, WholeLoop(w))
    ensures Run(w, WholeLoop(w)) ==
            NotifyAll(w.driver.executors, ThroughRegistry(reg, manager), w).(driver := Driver([], None))
  {
    var w' := w.(driver := w.driver.(cursor := Some(0)));
    assert WholeLoop(w)[1..] == Telling(|w.driver.executors|);
    assert w.driver.executors[0..] == w.driver.executors;
    TellingIsNotifyAll(reg, manager, w', |w.driver.executors|);
    TellingIgnoresDriver(reg, manager, w.driver.executors, w, w'.driver);
  }

  lemma LoopReaches(reg: Registry, manager: Processor, w: World)
    requires manager in reg.processors && Inv(w) && w.driver.cursor.None?
    requires w.session.executor.Some? && w.session.executor.value in w.driver.executors
    ensures Possible(w, WholeLoop(w))
    ensures var w' := Run(w, WholeLoop(w));
            w'.session == Leave(w, w.session.executor.value).session && w'.driver == Driver([], None)
  {
    LoopIsNotifyAll(reg, manager, w);
    LoopEffect(reg, manager, w.driver.executors, w);
  }

  /** Every executor of a new generation, of whatever size, is in the loop's reach: a
      session any of them begins while the list stands is over after the next loop. */
  lemma EveryNewExecutorIsReached(reg: Registry, manager: Processor, w: World, count: nat, i: nat, later: World)
    requires manager in reg.processors && CanStep(w, Connects(count)) && i < count
    requires Inv(later) && later.driver == Next(w, Connects(count)).driver
    requires later.session.executor == Some(w.nextExecutor + i)
    ensures Possible(later, WholeLoop(later))
    ensures var w' := Run(later, WholeLoop(later));
            Abstract(w') == Idle && w'.session.executor.None? && w'.driver == Driver([], None)
  {
    assert later.driver.executors[i] == w.nextExecutor + i;
    LoopReaches(reg, manager, later);
    LeaveEffect(later, w.nextExecutor + i);
  }

  /** If the manager is not registered for disconnects, nothing ends its session. */
  lemma {:induction false} UnregisteredIsNotDrained(reg: Registry, manager: Processor, executors: seq<Executor>, w: World)
    requires manager !in reg.processors
    ensures NotifyAll(executors, ThroughRegistry(reg, manager), w) == w
  {
    if executors != [] {
      BroadcastIsLeave(reg, manager, w, executors[0]);
      UnregisteredIsNotDrained(reg, manager, executors[1..], w);
    }
  }

  /** The owner is of a generation the driver has dropped. */
  ghost predicate Stranded(w: World, owner: Executor) {
    && w.session.executor == Some(owner) && owner < w.nextExecutor
    && forall e :: e in w.driver.executors ==> owner < e
  }

  /** The driver drops a generation without disconnecting it when it is asked for a
      new one, and telling the new one of a disconnect does not end the session. */
  lemma ReconnectStrands(reg: Registry, manager: Processor, w: World, count: nat)
    requires Inv(w) && manager in reg.processors && CanStep(w, Connects(count))
    requires w.session.executor.Some? && w.session.executor.value < w.nextExecutor
    ensures var w' := Next(w, Connects(count));
            && Stranded(w', w.session.executor.value)
            && NotifyAll(w'.driver.executors, ThroughRegistry(reg, manager), w') == w'
            && !Abstract(w').Idle?
  {
    InvStep(w, Connects(count));
    RefinesStep(w, Connects(count));
    LoopDrainsExactly(reg, manager, Next(w, Connects(count)).driver.executors, Next(w, Connects(count)));
  }

  predicate Disables(step: Step, owner: Executor) {
    step.Command? && step.executor == Some(owner) && step.command.id.DISABLE?
  }

  predicate IsCallback(step: Step) {
    step.TimerFires? || step.CallbackLocks? || step.CallbackRuns? || step.CallbackReturns?
  }

  /** Callbacks leave the driver and the ownership alone. */
  lemma CallbackKeeps(w: World, step: Step)
    requires CanStep(w, step) && IsCallback(step)
    ensures Next(w, step).driver == w.driver && Next(w, step).nextExecutor == w.nextExecutor
    ensures Next(w, step).session.executor == w.session.executor
  {
    if step.TimerFires? {
      assert Next(w, step) == Fire(w, step.task, step.timerId);
    } else if step.CallbackLocks? {
      assert Next(w, step) == Lock(w, step.task);
    } else if step.CallbackRuns? {
      assert Next(w, step) == RunCallback(w, step.task);
    } else {
      assert Next(w, step) == Return(w, step.task);
    }
  }

  lemma StrandedStep(w: World, step: Step, owner: Executor)
    requires Inv(w) && Stranded(w, owner) && CanStep(w, step) && !Disables(step, owner)
    ensures Stranded(Next(w, step), owner)
    ensures SameSession(w.session, Next(w, step).session)
  {
    if step.DisconnectNotifies? {
      assert w.driver.executors[w.driver.cursor.value] in w.driver.executors;
    } else if IsCallback(step) {
      CallbackKeeps(w, step);
    }
    OwnerKeepsStep(w, step);
  }

  /** From then on nothing but the owner's own DISABLE ends the session: it outlives
      every disconnect of every later generation, whatever is interleaved. */
  lemma {:induction false} StrandedForGood(w: World, steps: seq<Step>, owner: Executor)
    requires Inv(w) && Stranded(w, owner) && Possible(w, steps)
    requires forall i :: 0 <= i < |steps| ==> !Disables(steps[i], owner)
    ensures Stranded(Run(w, steps), owner) && SameSession(w.session, Run(w, steps).session)
    decreases |steps|
  {
    if steps != [] {
      StrandedStep(w, steps[0], owner);
      InvStep(w, steps[0]);
      StrandedForGood(Next(w, steps[0]), steps[1..], owner);
    }
  }

  // ----- disconnects interleaved with commands

  /** The executors that are connected and have not been told of a disconnect yet. */
  function Remaining(w: World): seq<Executor> {
    if w.driver.cursor.Some? && w.driver.cursor.value <= |w.driver.executors|
    then w.driver.executors[w.driver.cursor.value..]
    else w.driver.executors
  }

  /** The owner, if there is one, is still to be told. */
  ghost predicate OwnerRemains(w: World) {
    w.session.executor.Some? ==> w.session.executor.value in Remaining(w)
  }

  ghost predicate CursorInList(w: World) {
    w.driver.cursor.Some? ==> w.driver.cursor.value <= |w.driver.executors|
  }

  /** The two ways in which a session gets out of the loop's reach: an executor
      that is not, or no longer, to be told enables the sensor, or the driver
      replaces the list its owner is in. */
  predicate Strays(w: World, step: Step)
    requires CanStep(w, step)
  {
    || (step.Command? && step.executor.Some? && step.command.id.ENABLE? && step.executor.value !in Remaining(w)
        && Enable(w.session, step.executor.value, step.command.param, step.env).code == SUCCESS)
    || (step.Connects? && w.session.executor.Some? && w.session.executor.value in w.driver.executors)
  }

  /** At some point of the run this happened, and the owner has neither disabled the
      sensor nor been told of a disconnect since. */
  ghost predicate StraysForGood(w: World, steps: seq<Step>)
    requires Possible(w, steps)
    decreases |steps|
  {
    && steps != []
    && var w', rest := Next(w, steps[0]), steps[1..];
       || (Strays(w, steps[0]) && w'.session.executor.Some? && NeverLeaves(w', rest, w'.session.executor.value))
       || StraysForGood(w', rest)
  }

  lemma CommandOwner(s: Session, executor: Option<Executor>, command: SaCommand, env: Env, now: nat)
    ensures var r := Process(s, executor, command, env, now);
            || r.session.executor == s.executor || r.session.executor.None?
            || (executor.Some? && r.session.executor == executor && command.id.ENABLE? && r.code == SUCCESS)
  {
  }

  lemma RemainsCommand(w: World, executor: Option<Executor>, command: SaCommand, env: Env)
    requires OwnerRemains(w) && !Strays(w, Command(executor, command, env))
    ensures OwnerRemains(Perform(w, executor, command, env))
  {
    CommandOwner(w.session, executor, command, env, w.now);
  }

  lemma RemainsNotify(w: World)
    requires OwnerRemains(w) && CursorInList(w) && CanStep(w, DisconnectNotifies)
    ensures OwnerRemains(Notify(w))
  {
    var i := w.driver.cursor.value;
    assert w.driver.executors[i..] == [w.driver.executors[i]] + w.driver.executors[i + 1..];
  }

  /** Only straying takes an owner out of the loop's reach. */
  lemma RemainsStep(w: World, step: Step)
    requires OwnerRemains(w) && CursorInList(w) && CanStep(w, step) && !Strays(w, step)
    ensures OwnerRemains(Next(w, step))
  {
    if step.Command? {
      RemainsCommand(w, step.executor, step.command, step.env);
    } else if step.DisconnectNotifies? {
      RemainsNotify(w);
    } else if IsCallback(step) {
      CallbackKeeps(w, step);
    }
  }

  lemma CursorStep(w: World, step: Step)
    requires CursorInList(w) && CanStep(w, step)
    ensures CursorInList(Next(w, step))
  {
    if IsCallback(step) {
      CallbackKeeps(w, step);
    }
  }

  lemma LeavingEnds(w: World, step: Step)
    requires Inv(w) && w.session.executor.Some? && CanStep(w, step) && Leaves(w, step, w.session.executor.value)
    ensures Next(w, step).session.executor.None?
  {
  }

  lemma {:induction false} OwnedWhenStrayed(w: World, steps: seq<Step>)
    requires Inv(w) && Possible(w, steps) && StraysForGood(w, steps)
    ensures Run(w, steps).session.executor.Some?
    decreases |steps|
  {
    var w' := Next(w, steps[0]);
    InvStep(w, steps[0]);
    if w'.session.executor.Some? && NeverLeaves(w', steps[1..], w'.session.executor.value) {
      OwnerKeepsSession(w', steps[1..]);
    } else {
      OwnedWhenStrayed(w', steps[1..]);
    }
  }

  lemma {:induction false} RemainsUnlessStrayed(w: World, steps: seq<Step>)
    requires Inv(w) && CursorInList(w) && Possible(w, steps) && !StraysForGood(w, steps)
    requires OwnerRemains(w) || !NeverLeaves(w, steps, w.session.executor.value)
    ensures OwnerRemains(Run(w, steps)) && CursorInList(Run(w, steps))
    decreases |steps|
  {
    if steps != [] {
      InvStep(w, steps[0]);
      CursorStep(w, steps[0]);
      if !OwnerRemains(w) {
        if Leaves(w, steps[0], w.session.executor.value) {
          LeavingEnds(w, steps[0]);
        } else {
          OwnerKeepsStep(w, steps[0]);
        }
      } else if !Strays(w, steps[0]) {
        RemainsStep(w, steps[0]);
      }
      RemainsUnlessStrayed(Next(w, steps[0]), steps[1..]);
    }
  }

  /** Whatever is interleaved with the driver's loop: when it is through, the session
      is over exactly if none has got out of its reach for good.  Commands may come
      from anybody, and connects at any time. */
  lemma LoopDrainsRunExactly(opacity: Opacity, steps: seq<Step>)
    requires Possible(Initial(opacity), steps) && CanStep(Reached(opacity, steps), DisconnectEnds)
    ensures Abstract(Next(Reached(opacity, steps), DisconnectEnds)).Idle? <==> !StraysForGood(Initial(opacity), steps)
  {
    InitialInv(opacity);
    ReachedInv(opacity, steps);
    if StraysForGood(Initial(opacity), steps) {
      OwnedWhenStrayed(Initial(opacity), steps);
    } else {
      RemainsUnlessStrayed(Initial(opacity), steps);
    }
  }

  function Tellings(steps: seq<Step>): nat {
    if steps == [] then 0 else Tellings(steps[1..]) + if steps[0].DisconnectNotifies? then 1 else 0
  }

  /** The loop holds the driver's lock: until it ends, the list stands still and no
      other loop begins; the loop only goes on to the next executor. */
  lemma {:induction false} LoopKeepsList(w: World, steps: seq<Step>)
    requires w.driver.cursor.Some? && Possible(w, steps)
    requires forall i :: 0 <= i < |steps| ==> !steps[i].DisconnectEnds?
    ensures Run(w, steps).driver == Driver(w.driver.executors, Some(w.driver.cursor.value + Tellings(steps)))
    ensures Run(w, steps).nextExecutor == w.nextExecutor
    ensures forall i :: 0 <= i < |steps| ==> !steps[i].Connects? && !steps[i].DisconnectBegins?
    decreases |steps|
  {
    if steps != [] {
      if IsCallback(steps[0]) {
        CallbackKeeps(w, steps[0]);
      }
      LoopKeepsList(Next(w, steps[0]), steps[1..]);
    }
  }

  /** Commands come from listed executors, and a connect follows a disconnect. */
  predicate Listed(w: World, step: Step) {
    && (step.Command? ==> step.executor.Some? && step.executor.value in w.driver.executors)
    && (step.Connects? ==> w.driver.executors == [])
  }

  /** Under this order the only way to stray is an ENABLE, during the driver's loop,
      by an executor the loop has told already. */
  lemma ListedStraysLate(w: World, step: Step)
    requires CursorInList(w) && CanStep(w, step) && Listed(w, step) && Strays(w, step)
    ensures step.Command? && step.executor.Some? && step.command.id.ENABLE?
    ensures w.driver.cursor.Some? && step.executor.value in w.driver.executors[..w.driver.cursor.value]
  {
    if w.driver.cursor.Some? {
      var i := w.driver.cursor.value;
      assert w.driver.executors == w.driver.executors[..i] + w.driver.executors[i..];
    }
  }

  /** ENABLE comes from executors still to be told, and a connect follows a disconnect. */
  predicate Disciplined(w: World, step: Step) {
    && (step.Command? && step.command.id.ENABLE? && step.executor.Some? ==> step.executor.value in Remaining(w))
    && (step.Connects? ==> w.driver.executors == [])
  }

  ghost predicate DisciplinedRun(w: World, steps: seq<Step>)
    requires Possible(w, steps)
    decreases |steps|
  {
    steps == [] || (Disciplined(w, steps[0]) && DisciplinedRun(Next(w, steps[0]), steps[1..]))
  }

  lemma {:induction false} DisciplinedNeverStrays(w: World, steps: seq<Step>)
    requires Possible(w, steps) && DisciplinedRun(w, steps)
    ensures !StraysForGood(w, steps)
    decreases |steps|
  {
    if steps != [] {
      DisciplinedNeverStrays(Next(w, steps[0]), steps[1..]);
    }
  }

  /** After any disciplined run, when the loop is through, the session is over and no
      node is on the display, and ending it empties the list. */
  lemma DisconnectDrains(opacity: Opacity, steps: seq<Step>)
    requires Possible(Initial(opacity), steps) && DisciplinedRun(Initial(opacity), steps)
    requires CanStep(Reached(opacity, steps), DisconnectEnds)
    ensures var w := Next(Reached(opacity, steps), DisconnectEnds);
            && w.session.executor.None? && w.session.task.None? && Abstract(w) == Idle
            && w.driver.executors == []
            && forall n: nat :: !OnDisplay(Lifeline(w.session.shared.log, n))
  {
    DisciplinedNeverStrays(Initial(opacity), steps);
    LoopDrainsRunExactly(opacity, steps);
    ReachedInv(opacity, steps);
  }
}
