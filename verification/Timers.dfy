/** When a light's timer fires, what its callback can cut short, and how often a
    timer and a callback take effect. */
module Timers {
  import opened Common
  import opened Environment
  import opened Trace
  import opened Platform
  import opened BackgroundAlpha
  import opened IlluminationManager
  import opened World
  import opened Invariants
  import opened Guarantees
  import Task = IlluminationTask

  // ----- no timer outlives the light it was armed for

  /** The task has a valid screen and is not lit. */
  predicate Dark(t: Task.TaskState) {
    t.screenId.Some? && !t.isIlluminationOn
  }

  /** In every reachable state, a task with a valid screen has no timer pending while
      it is not lit, in its session or after it: turning off cancels the timer. */
  lemma DarkTasksHaveNoTimer(opacity: Opacity, steps: seq<Step>, id: nat)
    requires Possible(Initial(opacity), steps)
    ensures var t := Live(Reached(opacity, steps), id);
            t.Some? && Dark(t.value) ==> t.value.timer.pending == map[]
  {
    ReachedInv(opacity, steps);
  }

  /** The callbacks of a task that have not turned it off yet. */
  function InFlight(w: World, id: nat): nat {
    w.queued[id] + w.locked[id]
  }

  /** At every point of the run the session's task is this one, and dark. */
  ghost predicate DarkThroughout(w: World, steps: seq<Step>, id: nat)
    requires Possible(w, steps)
    decreases |steps|
  {
    && w.session.task.Some? && w.session.task.value.id == id && Dark(w.session.task.value)
    && (steps != [] ==> DarkThroughout(Next(w, steps[0]), steps[1..], id))
  }

  /** How the three counts of callbacks move when one takes or gives up its reference. */
  lemma LockMoves(w: World, id: nat)
    requires Books(w)
    ensures var w' := Lock(w, id);
            && w'.queued == w.queued - multiset{id} && w'.done == w.done
            && w'.locked == if Live(w, id).Some? then w.locked + multiset{id} else w.locked
  {
    LockIs(w, id);
  }

  lemma ReturnMoves(w: World, id: nat)
    requires Books(w) && id in w.done
    ensures var w' := Return(w, id);
            w'.queued == w.queued && w'.locked == w.locked && w'.done == w.done - multiset{id}
  {
    ReturnIs(w, id);
  }

  lemma CallbacksUnmoved(w: World, step: Step)
    requires CanStep(w, step)
    requires !step.TimerFires? && !step.CallbackLocks? && !step.CallbackRuns? && !step.CallbackReturns?
    ensures var w' := Next(w, step); w'.queued == w.queued && w'.locked == w.locked && w'.done == w.done
  {
  }

  /** A dark task's timer does not fire, and no other step puts a callback on its way. */
  lemma DarkStep(w: World, step: Step)
    requires Inv(w) && w.session.task.Some? && Dark(w.session.task.value) && CanStep(w, step)
    ensures InFlight(Next(w, step), w.session.task.value.id) <= InFlight(w, w.session.task.value.id)
  {
    if step.CallbackLocks? {
      LockMoves(w, step.task);
    } else if step.CallbackReturns? {
      ReturnMoves(w, step.task);
    } else if !step.TimerFires? && !step.CallbackRuns? {
      CallbacksUnmoved(w, step);
    }
  }

  lemma {:induction false} DarkRun(w: World, steps: seq<Step>, id: nat)
    requires Inv(w) && Possible(w, steps) && DarkThroughout(w, steps, id)
    ensures InFlight(Run(w, steps), id) <= InFlight(w, id)
    decreases |steps|
  {
    if steps != [] {
      DarkStep(w, steps[0]);
      InvStep(w, steps[0]);
      DarkRun(Next(w, steps[0]), steps[1..], id);
    }
  }

  // ----- a light without an earlier callback gets its full second

  /** Lit since a given time, with no callback on its way. */
  ghost predicate Secure(w: World, since: nat) {
    && IsLit(w) && LastLit(w.session.shared.log) == since
    && InFlight(w, w.session.task.value.id) == 0
  }

  lemma SecureCommand(w: World, executor: Option<Executor>, command: SaCommand, env: Env, since: nat)
    requires SessionInv(w.session) && Secure(w, since)
    requires executor == w.session.executor ==> !command.id.DISABLE? && !command.id.TURN_OFF?
    ensures Perform(w, executor, command, env) == w
  {
    LitCommands(w, executor, command, env);
  }

  lemma SecureLock(w: World, id: nat, since: nat)
    requires Books(w) && Secure(w, since) && id in w.queued
    ensures Secure(Lock(w, id), since) && Lock(w, id).session.executor == w.session.executor
  {
    LockIs(w, id);
  }

  lemma SecureStep(w: World, step: Step, since: nat)
    requires Inv(w) && Secure(w, since) && CanStep(w, step) && !Ends(w, step, w.session.executor.value)
    requires Next(w, step).now < since + 1000
    ensures Secure(Next(w, step), since) && Next(w, step).session.executor == w.session.executor
  {
    if step.Command? {
      SecureCommand(w, step.executor, step.command, step.env, since);
    } else if step.TimerFires? {
      SecureFire(w, step.task, step.timerId, since);
    } else if step.CallbackLocks? {
      SecureLock(w, step.task, since);
    } else if step.CallbackRuns? {
      SecureRun(w, step.task, since);
    } else if step.CallbackReturns? {
      SecureReturn(w, step.task, since);
    }
  }

  /** Its own timer is not due yet, so the one that fires is another task's. */
  lemma SecureFire(w: World, id: nat, timerId: nat, since: nat)
    requires Inv(w) && Secure(w, since) && w.now < since + 1000 && CanStep(w, TimerFires(id, timerId))
    ensures Secure(Fire(w, id, timerId), since) && Fire(w, id, timerId).session.executor == w.session.executor
  {
  }

  lemma SecureRun(w: World, id: nat, since: nat)
    requires Inv(w) && Secure(w, since) && w.now < since + 1000 && id in w.locked
    ensures Secure(RunCallback(w, id), since) && RunCallback(w, id).session.executor == w.session.executor
  {
    assert id in w.orphans;
    assert Task.TurnedOff(w.orphans[id], w.session.shared) == Task.Failed(w.orphans[id], w.session.shared);
  }

  lemma SecureReturn(w: World, id: nat, since: nat)
    requires Inv(w) && Secure(w, since) && w.now < since + 1000 && id in w.done
    ensures Secure(Return(w, id), since) && Return(w, id).session.executor == w.session.executor
  {
    ReturnIs(w, id);
    if id in w.orphans {
      EndEffect(w.orphans[id], w.session.shared);
    }
  }

  lemma Later(w: World, step: Step)
    requires CanStep(w, step)
    ensures w.now <= Next(w, step).now
  {
  }

  lemma {:induction false} LaterRun(w: World, steps: seq<Step>)
    requires Possible(w, steps)
    ensures w.now <= Run(w, steps).now
    decreases |steps|
  {
    if steps != [] {
      Later(w, steps[0]);
      LaterRun(Next(w, steps[0]), steps[1..]);
    }
  }

  /** A light that no callback threatens lasts for a second, unless its owner ends it. */
  lemma {:induction false} FullSecond(w: World, steps: seq<Step>, since: nat)
    requires Inv(w) && Secure(w, since) && Possible(w, steps) && NeverEnds(w, steps, w.session.executor.value)
    requires Run(w, steps).now < since + 1000
    ensures Secure(Run(w, steps), since)
    decreases |steps|
  {
    if steps != [] {
      var w' := Next(w, steps[0]);
      LaterRun(w', steps[1..]);
      SecureStep(w, steps[0], since);
      InvStep(w, steps[0]);
      FullSecond(w', steps[1..], since);
    }
  }

  /** A callback cuts a light short only if its timer had fired before the task last
      went dark: if the light goes out within its second without its owner's ending
      it, a callback was on its way at every earlier point of the dark before. */
  lemma CutShortByEarlierCallback(w: World, dark: seq<Step>, light: Step, lit: seq<Step>, id: nat)
    requires Inv(w) && Possible(w, dark) && DarkThroughout(w, dark, id)
    requires var w1 := Run(w, dark);
             && CanStep(w1, light) && light.Command? && IsLit(Next(w1, light))
             && var w2 := Next(w1, light);
                && w2.session.executor.Some? && Possible(w2, lit) && NeverEnds(w2, lit, w2.session.executor.value)
                && !IsLit(Run(w2, lit)) && Run(w2, lit).now < w1.now + 1000
    ensures InFlight(w, id) > 0
  {
    var w1 := Run(w, dark);
    var w2 := Next(w1, light);
    InvRun(w, dark);
    InvStep(w1, light);
    DarkRun(w, dark, id);
    DarkEnd(w, dark, id);
    LitByTurnOn(w1, light.executor, light.command, light.env);
    OnEffect(w1.session.task.value, w1.session.shared, light.env, w1.now);
    CallbacksUnmoved(w1, light);
    if InFlight(w, id) == 0 {
      FullSecond(w2, lit, w1.now);
    }
  }

  lemma {:induction false} DarkEnd(w: World, steps: seq<Step>, id: nat)
    requires Possible(w, steps) && DarkThroughout(w, steps, id)
    ensures var w' := Run(w, steps);
            w'.session.task.Some? && w'.session.task.value.id == id && Dark(w'.session.task.value)
    decreases |steps|
  {
    if steps != [] {
      DarkEnd(Next(w, steps[0]), steps[1..], id);
    }
  }

  // ----- a timer fires once, and its callback runs once

  /** This timer of this task has been given out and is not pending. */
  predicate Spent(t: Task.TaskState, timerId: nat) {
    timerId <= t.timer.lastId && timerId !in t.timer.pending
  }

  ghost predicate SpentFor(w: World, id: nat, timerId: nat) {
    id < w.session.shared.nextTask && (Live(w, id).Some? ==> Spent(Live(w, id).value, timerId))
  }

  lemma SpentOn(t: Task.TaskState, sh: Shared, env: Env, now: nat, timerId: nat)
    requires Spent(t, timerId)
    ensures Spent(Task.TurnedOn(t, sh, env, now).task, timerId)
  {
    DrawEffect(t, sh, env);
  }

  lemma SpentOff(t: Task.TaskState, sh: Shared, timerId: nat)
    requires Spent(t, timerId)
    ensures Spent(Task.TurnedOff(t, sh).task, timerId)
  {
  }

  lemma SpentEnded(s: Session, timerId: nat)
    requires s.task.Some? && Spent(s.task.value, timerId)
    ensures Ended(s).orphan.Some? ==> Spent(Ended(s).orphan.value, timerId)
  {
    SpentOff(s.task.value, s.shared, timerId);
  }

  /** A command moves the session's task at most to the orphans, and new tasks have new identities. */
  lemma SpentCommand(w: World, executor: Option<Executor>, command: SaCommand, env: Env, id: nat, timerId: nat)
    requires Inv(w) && SpentFor(w, id, timerId)
    ensures SpentFor(Perform(w, executor, command, env), id, timerId)
  {
    if executor.Some? {
      match command.id
      case ENABLE => SpentEnable(w, executor.value, command.param, env, id, timerId);
      case DISABLE => SpentLeaving(w, id, timerId);
      case TURN_ON => SpentTurnOn(w, executor.value, env, id, timerId);
      case TURN_OFF => SpentTurnOff(w, executor.value, id, timerId);
      case OTHER(_) =>
    }
  }

  lemma SpentEnable(w: World, executor: Executor, p: EnableParam, env: Env, id: nat, timerId: nat)
    requires Inv(w) && SpentFor(w, id, timerId)
    ensures SpentFor(Adopt(w, Enable(w.session, executor, p, env)), id, timerId)
  {
    if w.session.task.None? {
      EnableCounts(w.session, executor, p, env);
    }
  }

  lemma SpentLeaving(w: World, id: nat, timerId: nat)
    requires Inv(w) && SpentFor(w, id, timerId)
    ensures SpentFor(Adopt(w, Ended(w.session)), id, timerId)
  {
    if w.session.task.Some? {
      EndReply(w.session);
      if w.session.task.value.id == id {
        SpentEnded(w.session, timerId);
      }
    }
  }

  lemma SpentTurnOn(w: World, executor: Executor, env: Env, id: nat, timerId: nat)
    requires Identities(w) && SpentFor(w, id, timerId)
    ensures SpentFor(Adopt(w, TurnOn(w.session, executor, env, w.now)), id, timerId)
  {
    if w.session.task.Some? {
      OnEffect(w.session.task.value, w.session.shared, env, w.now);
      if w.session.task.value.id == id {
        SpentOn(w.session.task.value, w.session.shared, env, w.now, timerId);
      }
    }
  }

  lemma SpentTurnOff(w: World, executor: Executor, id: nat, timerId: nat)
    requires Identities(w) && SpentFor(w, id, timerId)
    ensures SpentFor(Adopt(w, TurnOff(w.session, executor)), id, timerId)
  {
    if w.session.task.Some? {
      OffEffect(w.session.task.value, w.session.shared);
      if w.session.task.value.id == id {
        SpentOff(w.session.task.value, w.session.shared, timerId);
      }
    }
  }

  lemma SpentFire(w: World, other: nat, otherTimer: nat, id: nat, timerId: nat)
    requires Identities(w) && SpentFor(w, id, timerId)
    ensures SpentFor(Fire(w, other, otherTimer), id, timerId)
  {
  }

  lemma SpentLock(w: World, other: nat, id: nat, timerId: nat)
    requires Books(w) && SpentFor(w, id, timerId)
    ensures SpentFor(Lock(w, other), id, timerId)
  {
    LockIs(w, other);
  }

  lemma SpentRun(w: World, other: nat, id: nat, timerId: nat)
    requires Books(w) && other in w.locked && SpentFor(w, id, timerId)
    ensures SpentFor(RunCallback(w, other), id, timerId)
  {
    var t := Live(w, other).value;
    OffEffect(t, w.session.shared);
    if other == id {
      SpentOff(t, w.session.shared, timerId);
    }
  }

  lemma SpentReturn(w: World, other: nat, id: nat, timerId: nat)
    requires Books(w) && other in w.done && SpentFor(w, id, timerId)
    ensures SpentFor(Return(w, other), id, timerId)
  {
    ReturnIs(w, other);
    if other in w.orphans {
      EndEffect(w.orphans[other], w.session.shared);
    }
  }

  lemma SpentStep(w: World, step: Step, id: nat, timerId: nat)
    requires Inv(w) && CanStep(w, step) && SpentFor(w, id, timerId)
    ensures SpentFor(Next(w, step), id, timerId)
  {
    if step.Command? {
      SpentCommand(w, step.executor, step.command, step.env, id, timerId);
    } else if step.TimerFires? {
      SpentFire(w, step.task, step.timerId, id, timerId);
    } else if step.CallbackLocks? {
      SpentLock(w, step.task, id, timerId);
    } else if step.CallbackRuns? {
      SpentRun(w, step.task, id, timerId);
    } else if step.CallbackReturns? {
      SpentReturn(w, step.task, id, timerId);
    } else {
      SpentOutside(w, step, id, timerId);
    }
  }

  lemma SpentOutside(w: World, step: Step, id: nat, timerId: nat)
    requires Inv(w) && CanStep(w, step) && SpentFor(w, id, timerId)
    requires !step.Command? && !step.TimerFires?
    requires !step.CallbackLocks? && !step.CallbackRuns? && !step.CallbackReturns?
    ensures SpentFor(Next(w, step), id, timerId)
  {
    if step.DisconnectNotifies? {
      SpentNotify(w, id, timerId);
    } else {
      assert Live(Next(w, step), id) == Live(w, id);
    }
  }

  lemma SpentNotify(w: World, id: nat, timerId: nat)
    requires Inv(w) && CanStep(w, DisconnectNotifies) && SpentFor(w, id, timerId)
    ensures SpentFor(Notify(w), id, timerId)
  {
    SpentLeaving(w, id, timerId);
  }

  lemma {:induction false} SpentForever(w: World, steps: seq<Step>, id: nat, timerId: nat)
    requires Inv(w) && Possible(w, steps) && SpentFor(w, id, timerId)
    ensures SpentFor(Run(w, steps), id, timerId)
    decreases |steps|
  {
    if steps != [] {
      SpentStep(w, steps[0], id, timerId);
      InvStep(w, steps[0]);
      SpentForever(Next(w, steps[0]), steps[1..], id, timerId);
    }
  }

  lemma FireSpends(w: World, id: nat, timerId: nat)
    requires Books(w) && CanStep(w, TimerFires(id, timerId))
    requires OneTimer(Live(w, id).value)
    ensures SpentFor(Fire(w, id, timerId), id, timerId)
  {
  }

  /** Timers are one-shot, and their identities are not used again: once one has
      fired, it never fires again. */
  lemma FiresOnce(w: World, id: nat, timerId: nat, steps: seq<Step>)
    requires Inv(w) && CanStep(w, TimerFires(id, timerId)) && Possible(Fire(w, id, timerId), steps)
    ensures !CanStep(Run(Fire(w, id, timerId), steps), TimerFires(id, timerId))
  {
    InvFire(w, id, timerId);
    FireSpends(w, id, timerId);
    SpentForever(Fire(w, id, timerId), steps, id, timerId);
  }

  /** How often the timers of a task fired in a run, how many of their callbacks found
      it alive or gone, and how many ran and gave it up. */
  datatype Tally = Tally(fired: nat, promoted: nat, expired: nat, ran: nat, returned: nat)

  function Plus(a: Tally, b: Tally): Tally {
    Tally(a.fired + b.fired, a.promoted + b.promoted, a.expired + b.expired, a.ran + b.ran, a.returned + b.returned)
  }

  function Tallied(w: World, step: Step, id: nat): Tally {
    match step
    case TimerFires(task, _) => Tally(if task == id then 1 else 0, 0, 0, 0, 0)
    case CallbackLocks(task) =>
      if task != id then Tally(0, 0, 0, 0, 0)
      else if Live(w, id).Some? then Tally(0, 1, 0, 0, 0) else Tally(0, 0, 1, 0, 0)
    case CallbackRuns(task) => Tally(0, 0, 0, if task == id then 1 else 0, 0)
    case CallbackReturns(task) => Tally(0, 0, 0, 0, if task == id then 1 else 0)
    case _ => Tally(0, 0, 0, 0, 0)
  }

  function TallyOf(w: World, steps: seq<Step>, id: nat): Tally
    requires Possible(w, steps)
    decreases |steps|
  {
    if steps == [] then Tally(0, 0, 0, 0, 0)
    else Plus(Tallied(w, steps[0], id), TallyOf(Next(w, steps[0]), steps[1..], id))
  }

  /** Of each firing comes one callback; of each callback that finds its task, one
      time-out; and each of those gives its reference up once. */
  ghost predicate Balanced(w: World, w': World, tally: Tally, id: nat) {
    && w.queued[id] + tally.fired == w'.queued[id] + tally.promoted + tally.expired
    && w.locked[id] + tally.promoted == w'.locked[id] + tally.ran
    && w.done[id] + tally.ran == w'.done[id] + tally.returned
  }

  lemma BalancedStep(w: World, step: Step, id: nat)
    requires Books(w) && CanStep(w, step)
    ensures Balanced(w, Next(w, step), Tallied(w, step, id), id)
  {
    if step.CallbackLocks? {
      LockMoves(w, step.task);
    } else if step.CallbackReturns? {
      ReturnMoves(w, step.task);
    } else if !step.TimerFires? && !step.CallbackRuns? {
      CallbacksUnmoved(w, step);
    }
  }

  lemma BalancedSum(w: World, w1: World, w2: World, a: Tally, b: Tally, id: nat)
    requires Balanced(w, w1, a, id) && Balanced(w1, w2, b, id)
    ensures Balanced(w, w2, Plus(a, b), id)
  {
  }

  lemma {:induction false} CallbacksBalance(w: World, steps: seq<Step>, id: nat)
    requires Inv(w) && Possible(w, steps)
    ensures Balanced(w, Run(w, steps), TallyOf(w, steps, id), id)
    decreases |steps|
  {
    if steps != [] {
      var w' := Next(w, steps[0]);
      BalancedStep(w, steps[0], id);
      InvStep(w, steps[0]);
      CallbacksBalance(w', steps[1..], id);
      BalancedSum(w, w', Run(w, steps), Tallied(w, steps[0], id), TallyOf(w', steps[1..], id), id);
    }
  }

  /** From start-up on, no task times out more often than its timers have fired. */
  lemma TimeOutsHaveFired(opacity: Opacity, steps: seq<Step>, id: nat)
    requires Possible(Initial(opacity), steps)
    ensures var tally := TallyOf(Initial(opacity), steps, id); tally.returned <= tally.ran <= tally.promoted <= tally.fired
  {
    InitialInv(opacity);
    CallbacksBalance(Initial(opacity), steps, id);
  }

  lemma Promoted(w: World, id: nat) returns (w': World)
    requires Inv(w) && id in w.queued && Live(w, id).Some?
    ensures w' == Lock(w, id) && Inv(w')
    ensures w'.queued == w.queued - multiset{id} && w'.locked == w.locked + multiset{id} && w'.done == w.done
  {
    w' := Lock(w, id);
    LockMoves(w, id);
    InvLock(w, id);
  }

  lemma TimedOutOnce(w: World, id: nat) returns (w': World)
    requires Inv(w) && id in w.locked
    ensures w' == RunCallback(w, id) && Inv(w')
    ensures w'.queued == w.queued && w'.locked == w.locked - multiset{id} && w'.done == w.done + multiset{id}
  {
    w' := RunCallback(w, id);
    InvRunCallback(w, id);
    RunMoves(w, id);
  }

  lemma RunMoves(w: World, id: nat)
    requires Live(w, id).Some?
    ensures var w' := RunCallback(w, id);
            w'.queued == w.queued && w'.locked == w.locked - multiset{id} && w'.done == w.done + multiset{id}
  {
  }

  /** A queued callback can always be carried through, and then is gone, */
  lemma CallbackCompletes(w: World, id: nat) returns (w1: World, w2: World, w3: World)
    requires Inv(w) && id in w.queued && Live(w, id).Some?
    ensures CanStep(w, CallbackLocks(id)) && w1 == Next(w, CallbackLocks(id))
    ensures CanStep(w1, CallbackRuns(id)) && w2 == Next(w1, CallbackRuns(id))
    ensures CanStep(w2, CallbackReturns(id)) && w3 == Next(w2, CallbackReturns(id))
    ensures w3.queued == w.queued - multiset{id} && w3.locked == w.locked && w3.done == w.done
  {
    w1 := Promoted(w, id);
    w2 := TimedOutOnce(w1, id);
    ReturnMoves(w2, id);
    w3 := Return(w2, id);
  }

  /** and one whose task is gone does nothing. */
  lemma CallbackExpires(w: World, id: nat)
    requires Books(w) && id in w.queued && Live(w, id).None?
    ensures CanStep(w, CallbackLocks(id))
    ensures Next(w, CallbackLocks(id)) == w.(queued := w.queued - multiset{id})
  {
    LockIs(w, id);
  }
}
