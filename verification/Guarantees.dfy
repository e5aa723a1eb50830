/** What holds in every run from start-up, whatever the interleaving and
    whichever external calls fail. */
module Guarantees {
  import opened Common
  import opened Environment
  import opened Trace
  import opened ScreenState
  import opened Platform
  import opened BackgroundAlpha
  import opened Geometry
  import opened IlluminationManager
  import opened World
  import opened Invariants
  import opened Refinement
  import Task = IlluminationTask

  /** The state after a run from start-up. */
  function Reached(opacity: Opacity, steps: seq<Step>): World
    requires Possible(Initial(opacity), steps)
  {
    Run(Initial(opacity), steps)
  }

  lemma ReachedInv(opacity: Opacity, steps: seq<Step>)
    requires Possible(Initial(opacity), steps)
    ensures Inv(Reached(opacity, steps))
  {
    InitialInv(opacity);
    InvRun(Initial(opacity), steps);
  }

  // ----- the light

  predicate IsLit(w: World) {
    w.session.task.Some? && w.session.task.value.isIlluminationOn
  }

  /** Due timers have fired and their callbacks have run. */
  predicate TimersServed(w: World) {
    w.session.task.Some? ==>
      var t := w.session.task.value;
      !TimingOut(w, t.id) && forall i :: i in t.timer.pending ==> w.now <= t.timer.pending[i]
  }

  /** A lit sensor is due to go out 1000 ms after the light came on, or a
      callback is already on its way; once due timers are served, nothing stays lit
      for longer. */
  ghost predicate WithinDeadline(w: World) {
    IsLit(w) ==>
      var t, deadline := w.session.task.value, LastLit(w.session.shared.log) + 1000;
      && (t.timer.pending == map[t.currTimerId := deadline] || TimingOut(w, t.id))
      && (TimersServed(w) ==> w.now <= deadline)
  }

  /** Lit, with no timer armed and no callback on its way. */
  ghost predicate LitUnarmed(w: World) {
    IsLit(w) && w.session.task.value.currTimerId == 0 && !TimingOut(w, w.session.task.value.id)
  }

  lemma WithinDeadlineExactly(w: World)
    requires Inv(w)
    ensures WithinDeadline(w) <==> !LitUnarmed(w)
  {
    if IsLit(w) {
      var t := w.session.task.value;
      if TimersServed(w) && t.currTimerId != 0 {
        assert t.currTimerId in t.timer.pending;
      }
      if LitUnarmed(w) {
        assert 0 !in t.timer.pending;
      }
    }
  }

  /** TURN_ON by the owner is the only command that lights. */
  lemma LitByTurnOn(w: World, executor: Option<Executor>, command: SaCommand, env: Env)
    requires Inv(w) && !IsLit(w) && IsLit(Perform(w, executor, command, env))
    ensures executor.Some? && executor == w.session.executor && command.id.TURN_ON?
    ensures Perform(w, executor, command, env) == w.(session := OnSession(w.session, env, w.now))
  {
    RefinesCommand(w, executor, command, env);
  }

  /** The timer is armed when the light comes on, exactly if the timer library
      registered it, which the code never checks. */
  lemma ArmedExactly(t: Task.TaskState, sh: Shared, env: Env, now: nat)
    requires !t.isIlluminationOn
    ensures var on := Task.TurnedOn(t, sh, env, now);
            on.task.isIlluminationOn ==> on.task.id == t.id && (on.task.currTimerId != 0 <==> env.timerOk)
  {
    DrawEffect(t, sh, env);
  }

  /** So a light comes on without a bound exactly if its timer was not registered
      and no callback of an earlier light of the same task is on its way. */
  lemma LitUnarmedExactly(w: World, executor: Option<Executor>, command: SaCommand, env: Env)
    requires Inv(w) && !IsLit(w)
    ensures var w' := Perform(w, executor, command, env);
            IsLit(w') ==>
              && w.session.task.Some?
              && (LitUnarmed(w') <==> !env.timerOk && !TimingOut(w, w.session.task.value.id))
  {
    if IsLit(Perform(w, executor, command, env)) {
      LitByTurnOn(w, executor, command, env);
      ArmedExactly(w.session.task.value, w.session.shared, env, w.now);
    }
  }

  /** The commands and disconnects of one executor that can end its light. */
  predicate Ends(w: World, step: Step, owner: Executor)
    requires CanStep(w, step)
  {
    || (step.Command? && step.executor == Some(owner) && (step.command.id.DISABLE? || step.command.id.TURN_OFF?))
    || (step.DisconnectNotifies? && w.driver.executors[w.driver.cursor.value] == owner)
  }

  ghost predicate NeverEnds(w: World, steps: seq<Step>, owner: Executor)
    requires Possible(w, steps)
    decreases |steps|
  {
    steps == [] || (!Ends(w, steps[0], owner) && NeverEnds(Next(w, steps[0]), steps[1..], owner))
  }

  /** Without an armed timer there is no bound: the light stays on through every
      run, however long, in which its owner does not end it. */
  lemma {:induction false} UnarmedLightStays(w: World, steps: seq<Step>)
    requires Inv(w) && LitUnarmed(w) && Possible(w, steps) && NeverEnds(w, steps, w.session.executor.value)
    ensures LitUnarmed(Run(w, steps)) && Run(w, steps).session.executor == w.session.executor
    decreases |steps|
  {
    if steps != [] {
      UnarmedStep(w, steps[0]);
      InvStep(w, steps[0]);
      UnarmedLightStays(Next(w, steps[0]), steps[1..]);
    }
  }

  /** A command to a lit sensor either ends the light or changes nothing at all:
      in particular no number of further TURN_ON commands prolongs it. */
  lemma LitCommands(w: World, executor: Option<Executor>, command: SaCommand, env: Env)
    requires SessionInv(w.session) && IsLit(w)
    ensures var w' := Perform(w, executor, command, env);
            if executor == w.session.executor && (command.id.DISABLE? || command.id.TURN_OFF?)
            then !IsLit(w') else w' == w
  {
    if executor == w.session.executor && command.id.TURN_OFF? {
      OffKeeps(w.session);
    } else if executor == w.session.executor && command.id.DISABLE? {
      assert Perform(w, executor, command, env) == Adopt(w, Ended(w.session));
    } else {
      LitReply(w.session, executor, command, env, w.now);
    }
  }

  lemma LitReply(s: Session, executor: Option<Executor>, command: SaCommand, env: Env, now: nat)
    requires SessionInv(s) && s.task.Some? && s.task.value.isIlluminationOn
    requires executor != s.executor || (!command.id.DISABLE? && !command.id.TURN_OFF?)
    ensures var r := Process(s, executor, command, env, now); r.session == s && r.orphan.None?
  {
  }

  lemma UnarmedFire(w: World, id: nat, timerId: nat)
    requires Inv(w) && LitUnarmed(w) && CanStep(w, TimerFires(id, timerId))
    ensures LitUnarmed(Fire(w, id, timerId)) && Fire(w, id, timerId).session.executor == w.session.executor
  {
    assert w.session.task.value.timer.pending.Keys <= {0};
  }

  lemma UnarmedLock(w: World, id: nat)
    requires Inv(w) && LitUnarmed(w) && id in w.queued
    ensures LitUnarmed(Lock(w, id)) && Lock(w, id).session.executor == w.session.executor
  {
    LockIs(w, id);
  }

  lemma UnarmedRun(w: World, id: nat)
    requires Inv(w) && LitUnarmed(w) && id in w.locked
    ensures LitUnarmed(RunCallback(w, id)) && RunCallback(w, id).session.executor == w.session.executor
  {
    assert id in w.orphans;
    assert Task.TurnedOff(w.orphans[id], w.session.shared) == Task.Failed(w.orphans[id], w.session.shared);
  }

  lemma UnarmedReturn(w: World, id: nat)
    requires Inv(w) && LitUnarmed(w) && id in w.done
    ensures LitUnarmed(Return(w, id)) && Return(w, id).session.executor == w.session.executor
  {
    ReturnIs(w, id);
  }

  lemma UnarmedStep(w: World, step: Step)
    requires Inv(w) && LitUnarmed(w) && CanStep(w, step) && !Ends(w, step, w.session.executor.value)
    ensures LitUnarmed(Next(w, step)) && Next(w, step).session.executor == w.session.executor
  {
    if step.Command? {
      LitCommands(w, step.executor, step.command, step.env);
    } else if step.TimerFires? {
      UnarmedFire(w, step.task, step.timerId);
    } else if step.CallbackLocks? {
      UnarmedLock(w, step.task);
    } else if step.CallbackRuns? {
      UnarmedRun(w, step.task);
    } else if step.CallbackReturns? {
      UnarmedReturn(w, step.task);
    }
  }

  // ----- which runs have a light without a bound

  /** A command that lights with its timer not registered and no callback on its way. */
  predicate LightsUnarmed(w: World, step: Step)
    requires CanStep(w, step)
  {
    && step.Command? && w.session.task.Some? && !IsLit(w) && IsLit(Next(w, step))
    && !step.env.timerOk && !TimingOut(w, w.session.task.value.id)
  }

  /** At some point of the run such a command came, and its owner has not ended the light since. */
  ghost predicate LightsForGood(w: World, steps: seq<Step>)
    requires Possible(w, steps)
    decreases |steps|
  {
    && steps != []
    && var w', rest := Next(w, steps[0]), steps[1..];
       || (LightsUnarmed(w, steps[0]) && w'.session.executor.Some? && NeverEnds(w', rest, w'.session.executor.value))
       || LightsForGood(w', rest)
  }

  lemma ArmedCallbacks(w: World, id: nat, timerId: nat)
    requires Inv(w) && !LitUnarmed(w)
    ensures CanStep(w, TimerFires(id, timerId)) ==> !LitUnarmed(Fire(w, id, timerId))
    ensures id in w.queued ==> !LitUnarmed(Lock(w, id))
    ensures id in w.locked ==> !LitUnarmed(RunCallback(w, id))
  {
    LockIs(w, id);
    if id in w.locked && id !in w.orphans {
      OffKeeps(w.session);
    }
  }

  lemma EndsTheLight(w: World, step: Step)
    requires Inv(w) && IsLit(w) && CanStep(w, step) && Ends(w, step, w.session.executor.value)
    ensures !IsLit(Next(w, step))
  {
    if step.Command? {
      LitCommands(w, step.executor, step.command, step.env);
    }
  }

  /** Nothing but such a command leads to a light without a bound. */
  lemma ArmedStep(w: World, step: Step)
    requires Inv(w) && !LitUnarmed(w) && CanStep(w, step)
    ensures LitUnarmed(Next(w, step)) <==> LightsUnarmed(w, step)
  {
    if step.Command? {
      if IsLit(w) {
        LitCommands(w, step.executor, step.command, step.env);
      } else if IsLit(Next(w, step)) {
        LitUnarmedExactly(w, step.executor, step.command, step.env);
      }
    } else if step.TimerFires? {
      ArmedCallbacks(w, step.task, step.timerId);
    } else if step.CallbackLocks? || step.CallbackRuns? {
      ArmedCallbacks(w, step.task, 0);
    } else if step.CallbackReturns? {
      ReturnIs(w, step.task);
    }
  }

  lemma {:induction false} UnarmedWhenLitForGood(w: World, steps: seq<Step>)
    requires Inv(w) && Possible(w, steps) && LightsForGood(w, steps)
    ensures LitUnarmed(Run(w, steps))
    decreases |steps|
  {
    var w' := Next(w, steps[0]);
    InvStep(w, steps[0]);
    if LightsUnarmed(w, steps[0]) && w'.session.executor.Some? && NeverEnds(w', steps[1..], w'.session.executor.value) {
      ArmedStep(w, steps[0]);
      UnarmedLightStays(w', steps[1..]);
    } else {
      UnarmedWhenLitForGood(w', steps[1..]);
    }
  }

  lemma {:induction false} ArmedUnlessLitForGood(w: World, steps: seq<Step>)
    requires Inv(w) && Possible(w, steps) && !LightsForGood(w, steps)
    requires LitUnarmed(w) ==> !NeverEnds(w, steps, w.session.executor.value)
    ensures !LitUnarmed(Run(w, steps))
    decreases |steps|
  {
    if steps != [] {
      InvStep(w, steps[0]);
      if !LitUnarmed(w) {
        ArmedStep(w, steps[0]);
      } else if Ends(w, steps[0], w.session.executor.value) {
        EndsTheLight(w, steps[0]);
      } else {
        UnarmedStep(w, steps[0]);
      }
      ArmedUnlessLitForGood(Next(w, steps[0]), steps[1..]);
    }
  }

  /** The light of a run is within its deadline exactly if there is no command in the
      run that lit it with its timer not registered and no callback on its way, and
      whose light its owner has not ended since. */
  lemma BoundedLight(opacity: Opacity, steps: seq<Step>)
    requires Possible(Initial(opacity), steps)
    ensures WithinDeadline(Reached(opacity, steps)) <==> !LightsForGood(Initial(opacity), steps)
  {
    ReachedInv(opacity, steps);
    WithinDeadlineExactly(Reached(opacity, steps));
    InitialInv(opacity);
    if LightsForGood(Initial(opacity), steps) {
      UnarmedWhenLitForGood(Initial(opacity), steps);
    } else {
      ArmedUnlessLitForGood(Initial(opacity), steps);
    }
  }

  ghost predicate TimersRegister(steps: seq<Step>) {
    forall i :: 0 <= i < |steps| ==> steps[i].Command? ==> steps[i].env.timerOk
  }

  lemma {:induction false} RegisteredNeverForGood(w: World, steps: seq<Step>)
    requires Possible(w, steps) && TimersRegister(steps)
    ensures !LightsForGood(w, steps)
    decreases |steps|
  {
    if steps != [] {
      RegisteredNeverForGood(Next(w, steps[0]), steps[1..]);
    }
  }

  /** In particular while the timer library registers whatever it is asked to. */
  lemma BoundedWhenRegistered(opacity: Opacity, steps: seq<Step>)
    requires Possible(Initial(opacity), steps) && TimersRegister(steps)
    ensures WithinDeadline(Reached(opacity, steps))
  {
    RegisteredNeverForGood(Initial(opacity), steps);
    BoundedLight(opacity, steps);
  }

  // ----- the time-out turns the light off

  function LastSteps(id: nat): seq<Step> {
    [CallbackLocks(id), CallbackRuns(id)]
  }

  /** What it takes, from a lit and armed state, for the time-out to happen. */
  function Service(w: World): seq<Step>
    requires IsLit(w)
  {
    var t := w.session.task.value;
    var deadline := LastLit(w.session.shared.log) + Task.MAX_DISPLAY_TIME;
    if t.id in w.locked then [CallbackRuns(t.id)]
    else if t.id in w.queued then LastSteps(t.id)
    else if deadline <= w.now then [TimerFires(t.id, t.currTimerId)] + LastSteps(t.id)
    else [TimePasses(deadline - w.now)] + ([TimerFires(t.id, t.currTimerId)] + LastSteps(t.id))
  }

  /** The steps are possible and end with the light off. */
  ghost predicate TurnsOffBy(w: World, steps: seq<Step>, time: nat) {
    Possible(w, steps) && !IsLit(Run(w, steps)) && Run(w, steps).now == time
  }

  lemma TurnsOffAfter(w: World, step: Step, next: World, steps: seq<Step>, time: nat)
    requires CanStep(w, step) && next == Next(w, step) && TurnsOffBy(next, steps, time)
    ensures TurnsOffBy(w, [step] + steps, time)
  {
    assert ([step] + steps)[1..] == steps;
  }

  lemma LockedTurnsOff(w: World)
    requires Inv(w) && IsLit(w) && w.session.task.value.id in w.locked
    ensures TurnsOffBy(w, [CallbackRuns(w.session.task.value.id)], w.now)
  {
    var id := w.session.task.value.id;
    OffKeeps(w.session);
    assert !IsLit(RunCallback(w, id)) && RunCallback(w, id).now == w.now;
    assert TurnsOffBy(RunCallback(w, id), [], w.now);
    TurnsOffAfter(w, CallbackRuns(id), RunCallback(w, id), [], w.now);
    assert [CallbackRuns(id)] + [] == [CallbackRuns(id)];
  }

  lemma QueuedTurnsOff(w: World)
    requires Inv(w) && IsLit(w) && w.session.task.value.id in w.queued
    ensures TurnsOffBy(w, LastSteps(w.session.task.value.id), w.now)
  {
    var id := w.session.task.value.id;
    InvLock(w, id);
    LockIs(w, id);
    LockedTurnsOff(Lock(w, id));
    TurnsOffAfter(w, CallbackLocks(id), Lock(w, id), [CallbackRuns(id)], w.now);
    assert [CallbackLocks(id)] + [CallbackRuns(id)] == LastSteps(id);
  }

  lemma DueTurnsOff(w: World)
    requires Inv(w) && IsLit(w)
    requires var t := w.session.task.value; CanStep(w, TimerFires(t.id, t.currTimerId))
    ensures var t := w.session.task.value;
            TurnsOffBy(w, [TimerFires(t.id, t.currTimerId)] + LastSteps(t.id), w.now)
  {
    var t := w.session.task.value;
    InvFire(w, t.id, t.currTimerId);
    QueuedTurnsOff(Fire(w, t.id, t.currTimerId));
    TurnsOffAfter(w, TimerFires(t.id, t.currTimerId), Fire(w, t.id, t.currTimerId), LastSteps(t.id), w.now);
  }

  lemma LaterTurnsOff(w: World, ms: nat)
    requires Inv(w) && IsLit(w)
    requires var t := w.session.task.value; t.timer.pending == map[t.currTimerId := w.now + ms]
    ensures var t := w.session.task.value;
            TurnsOffBy(w, [TimePasses(ms)] + ([TimerFires(t.id, t.currTimerId)] + LastSteps(t.id)), w.now + ms)
  {
    var t, later := w.session.task.value, w.(now := w.now + ms);
    InvElsewhere(w, later);
    assert Live(later, t.id) == Some(t);
    DueTurnsOff(later);
    TurnsOffAfter(w, TimePasses(ms), later, [TimerFires(t.id, t.currTimerId)] + LastSteps(t.id), w.now + ms);
  }

  /** From every reachable lit state with an armed timer, serving the timer turns
      the light off, at the deadline or right away when that has passed or a
      callback is on its way. */
  lemma TimeOutTurnsOff(w: World)
    requires Inv(w) && IsLit(w) && w.session.task.value.currTimerId != 0
    ensures var deadline := LastLit(w.session.shared.log) + Task.MAX_DISPLAY_TIME;
            TurnsOffBy(w, Service(w), if TimingOut(w, w.session.task.value.id) || deadline <= w.now then w.now else deadline)
  {
    var id := w.session.task.value.id;
    if id in w.locked {
      LockedTurnsOff(w);
    } else if id in w.queued {
      QueuedTurnsOff(w);
    } else {
      PendingTurnsOff(w);
    }
  }

  lemma PendingAtDeadline(w: World)
    requires Invariants.Light(w) && IsLit(w) && w.session.task.value.currTimerId != 0
    requires !TimingOut(w, w.session.task.value.id)
    ensures var t := w.session.task.value;
            && t.timer.pending == map[t.currTimerId := LastLit(w.session.shared.log) + Task.MAX_DISPLAY_TIME]
            && Live(w, t.id) == Some(t)
  {
  }

  lemma PendingTurnsOff(w: World)
    requires Inv(w) && IsLit(w) && w.session.task.value.currTimerId != 0
    requires !TimingOut(w, w.session.task.value.id)
    ensures var deadline := LastLit(w.session.shared.log) + Task.MAX_DISPLAY_TIME;
            TurnsOffBy(w, Service(w), if deadline <= w.now then w.now else deadline)
  {
    var t := w.session.task.value;
    var deadline := LastLit(w.session.shared.log) + Task.MAX_DISPLAY_TIME;
    PendingAtDeadline(w);
    if deadline <= w.now {
      assert Service(w) == [TimerFires(t.id, t.currTimerId)] + LastSteps(t.id);
      DueTurnsOff(w);
    } else {
      assert Service(w) == [TimePasses(deadline - w.now)] + ([TimerFires(t.id, t.currTimerId)] + LastSteps(t.id));
      LaterTurnsOff(w, deadline - w.now);
    }
  }

  /** No command and no disconnect is among these steps. */
  ghost predicate Unattended(steps: seq<Step>) {
    forall i :: 0 <= i < |steps| ==> !steps[i].Command? && !steps[i].DisconnectNotifies?
  }

  lemma {:induction false} UnattendedNeverEnds(w: World, steps: seq<Step>, owner: Executor)
    requires Possible(w, steps) && Unattended(steps)
    ensures NeverEnds(w, steps, owner)
    decreases |steps|
  {
    if steps != [] {
      UnattendedNeverEnds(Next(w, steps[0]), steps[1..], owner);
    }
  }

  /** The light can go out without its owner ending it. */
  ghost predicate CanGoOut(w: World)
    requires w.session.executor.Some?
  {
    exists steps :: Possible(w, steps) && NeverEnds(w, steps, w.session.executor.value) && !IsLit(Run(w, steps))
  }

  lemma GoesOutBy(w: World, steps: seq<Step>, time: nat)
    requires w.session.executor.Some? && TurnsOffBy(w, steps, time) && Unattended(steps)
    ensures CanGoOut(w)
  {
    UnattendedNeverEnds(w, steps, w.session.executor.value);
  }

  lemma UnarmedNeverGoesOut(w: World)
    requires Inv(w) && LitUnarmed(w)
    ensures !CanGoOut(w)
  {
    forall steps | Possible(w, steps) && NeverEnds(w, steps, w.session.executor.value)
      ensures IsLit(Run(w, steps))
    {
      UnarmedLightStays(w, steps);
    }
  }

  lemma ServiceUnattended(w: World)
    requires IsLit(w)
    ensures Unattended(Service(w))
  {
  }

  lemma QueuedGoesOut(w: World)
    requires Inv(w) && IsLit(w) && TimingOut(w, w.session.task.value.id)
    ensures CanGoOut(w)
  {
    var id := w.session.task.value.id;
    if id in w.locked {
      LockedTurnsOff(w);
      GoesOutBy(w, [CallbackRuns(id)], w.now);
    } else {
      QueuedTurnsOff(w);
      GoesOutBy(w, LastSteps(id), w.now);
    }
  }

  lemma ArmedGoesOut(w: World)
    requires Inv(w) && IsLit(w) && w.session.task.value.currTimerId != 0 && !TimingOut(w, w.session.task.value.id)
    ensures CanGoOut(w)
  {
    var deadline := LastLit(w.session.shared.log) + Task.MAX_DISPLAY_TIME;
    PendingTurnsOff(w);
    ServiceUnattended(w);
    GoesOutBy(w, Service(w), if deadline <= w.now then w.now else deadline);
  }

  lemma CanGoOutExactly(w: World)
    requires Inv(w) && IsLit(w)
    ensures CanGoOut(w) <==> !LitUnarmed(w)
  {
    if LitUnarmed(w) {
      UnarmedNeverGoesOut(w);
    } else if TimingOut(w, w.session.task.value.id) {
      QueuedGoesOut(w);
    } else {
      ArmedGoesOut(w);
    }
  }

  /** Whether a light can go out by itself is decided by the command that lights it. */
  lemma LightGoesOutExactly(w: World, executor: Option<Executor>, command: SaCommand, env: Env)
    requires Inv(w) && !IsLit(w)
    ensures var w' := Perform(w, executor, command, env);
            IsLit(w') ==>
              && w.session.task.Some? && w'.session.executor.Some?
              && (CanGoOut(w') <==> env.timerOk || TimingOut(w, w.session.task.value.id))
  {
    LitUnarmedExactly(w, executor, command, env);
    InvCommand(w, executor, command, env);
    if IsLit(Perform(w, executor, command, env)) {
      CanGoOutExactly(Perform(w, executor, command, env));
    }
  }

  // ----- the display

  /** At every point of every run: a node is on the display exactly if the
      session's task has it lit, its attach and detach calls alternate, and they
      are equally many once the session is over.  Turning off never fails. */
  lemma NoOrphanLight(opacity: Opacity, steps: seq<Step>, node: nat)
    requires Possible(Initial(opacity), steps)
    ensures var w := Reached(opacity, steps);
            var calls := Lifeline(w.session.shared.log, node);
            && Alternating(calls)
            && (OnDisplay(calls) <==> IsLit(w) && w.session.task.value.node == Some(node))
            && (IsLit(w) ==> Task.TurnedOff(w.session.task.value, w.session.shared).code == SUCCESS)
            && (w.session.task.None? ==> 2 * Attaches(calls) == |calls|)
  {
    ReachedInv(opacity, steps);
    var w := Reached(opacity, steps);
    AlternatingCounts(Lifeline(w.session.shared.log, node));
    if IsLit(w) {
      OffKeeps(w.session);
    }
  }

  /** A time-out of a task that is not lit is not noticed by anybody. */
  lemma TimeOutWhenUnlit(w: World, id: nat)
    requires Inv(w) && CanStep(w, CallbackRuns(id)) && !Live(w, id).value.isIlluminationOn
    ensures RunCallback(w, id).session == w.session && RunCallback(w, id).orphans == w.orphans
  {
  }

  /** On a task without a valid screen, TURN_ON with the screen on fails but may leave its timer pending. */
  lemma InvalidScreenArms(s: Session, executor: Executor, env: Env, now: nat)
    requires SessionInv(s) && s.executor == Some(executor) && s.task.value.screenId.None? && s.shared.monitor.isOn
    requires DrawSucceeds(s.task.value.brightness, s.shared.opacity, env) && env.timerOk
    ensures var r := TurnOn(s, executor, env, now);
            && r.code == GENERAL_ERROR && !r.session.task.value.isIlluminationOn
            && r.session.task.value.timer.pending ==
               map[r.session.task.value.currTimerId := now + Task.MAX_DISPLAY_TIME]
  {
    var t := s.task.value;
    DrawSucceedsExactly(t, s.shared, env);
    DrawEffect(t, s.shared, env);
    assert t.timer.pending - {t.currTimerId} == map[];
  }

  /** But such a session is never lit, whatever happens until its owner leaves; so
      its time-outs are never noticed. */
  lemma InvalidScreenNeverLit(w: World, steps: seq<Step>)
    requires Inv(w) && w.session.task.Some? && w.session.task.value.screenId.None? && Possible(w, steps)
    requires NeverLeaves(w, steps, w.session.executor.value)
    ensures !IsLit(Run(w, steps))
  {
    OwnerKeepsSession(w, steps);
    InvRun(w, steps);
  }

  /** In every reachable state, a task has at most the timer armed last pending. */
  lemma OneLiveTimer(opacity: Opacity, steps: seq<Step>, id: nat)
    requires Possible(Initial(opacity), steps)
    ensures var t := Live(Reached(opacity, steps), id);
            t.Some? ==> t.value.timer.pending.Keys <= {t.value.currTimerId}
  {
    ReachedInv(opacity, steps);
  }

  // ----- the redraw cache

  /** The frame is the commanded circle: its centre converted with less than a pixel
      lost, its radius and colour, and the opacity for the brightness. */
  ghost predicate IsCircle(frame: CanvasParam, p: EnableParam, display: (int32, int32), opacity: Opacity, brightness: uint32) {
    && 0 <= p.centerX * ToUint32(display.0) - 1000 * frame.centerXInPx < 1000
    && 0 <= p.centerY * ToUint32(display.1) - 1000 * frame.centerYInPy < 1000
    && frame.radius == p.radius && frame.color == p.color
    && frame.frameWidth == display.0 && frame.frameHeight == display.1
    && Fresh(opacity, brightness, frame)
  }

  /** A successful ENABLE shows the commanded circle. */
  lemma EnableShows(s: Session, executor: Executor, p: EnableParam, env: Env)
    requires SessionInv(s) && Enable(s, executor, p, env).code == SUCCESS
    ensures env.display.Some?
    ensures var s' := Enable(s, executor, p, env).session;
            && s'.task.Some? && s'.task.value.node.Some? && s'.task.value.screenId == env.screenId
            && var frame := Shown(s'.shared.log, s'.task.value.node.value);
               frame.Some? && IsCircle(frame.value, p, env.display.value, s.shared.opacity, env.brightness)
  {
    EnableKeeps(s, executor, p, env);
    var acquired := AfterAcquire(s.shared, env).0;
    var born := Task.NewTask(acquired.nextTask).(hasDestructCallback := true);
    FirstDraw(born, Task.AfterConstruct(acquired, env), p, env);
    var (width, height) := env.display.value;
    ConversionIsFloor(p.centerX, ToUint32(width));
    ConversionIsFloor(p.centerY, ToUint32(height));
  }

  lemma FirstDraw(t: Task.TaskState, sh: Shared, p: EnableParam, env: Env)
    requires t.brightness == Task.INVALID_BRIGHTNESS
    requires Task.Enabled(t, sh, p.centerX, p.centerY, p.radius, p.color, env).code == SUCCESS
    ensures env.display.Some?
    ensures var e := Task.Enabled(t, sh, p.centerX, p.centerY, p.radius, p.color, env);
            var canvas := Task.CanvasFor(p.centerX, p.centerY, p.radius, p.color, env.display.value);
            && canvas.Some? && e.task.node == Some(sh.nextNode) && e.task.screenId == env.screenId
            && Shown(e.shared.log, sh.nextNode) == Some(e.task.canvasParam)
            && e.task.canvasParam == canvas.value.(alpha := e.task.canvasParam.alpha)
            && Fresh(sh.opacity, env.brightness, e.task.canvasParam)
  {
  }

  /** The latest draw on the node failed, at this very brightness. */
  predicate MissedDraw(log: Log, node: nat, cached: uint32, brightness: uint32) {
    brightness == cached && LastDraw(log, node).Some? && LastDraw(log, node).value.DrawFailed?
  }

  /** When a command lights the display, the frame it shows is a fresh draw at the
      current brightness, unless the latest draw, at that same brightness, had
      failed; then nothing is redrawn and an older frame stays.  So the light is
      fresh exactly if no draw was missed or the older frame happens to be right. */
  lemma LitFrame(s: Session, env: Env, now: nat)
    requires SessionInv(s) && s.task.Some? && !s.task.value.isIlluminationOn
    requires OnSession(s, env, now).task.value.isIlluminationOn
    ensures var t, t' := s.task.value, OnSession(s, env, now).task.value;
            var log, log', node := s.shared.log, OnSession(s, env, now).shared.log, t.node.value;
            && t'.brightness == env.brightness && Shown(log', node).Some?
            && Shown(log, node).Some?
            && (if MissedDraw(log, node, t.brightness, env.brightness)
                then log' == log + [Attached(node, t.screenId.value, now)] && Shown(log', node) == Shown(log, node)
                else Shown(log', node) == Some(t'.canvasParam))
            && (Fresh(s.shared.opacity, env.brightness, Shown(log', node).value) <==>
                  (MissedDraw(log, node, t.brightness, env.brightness) ==>
                     Fresh(s.shared.opacity, env.brightness, Shown(log, node).value)))
  {
    var t := s.task.value;
    DrawEffect(t, s.shared, env);
    LitDraw(t, s.shared, env);
    DrawCache(t, s.shared, env);
  }

  /** On runs without a failed draw on the task, every light shows a fresh frame. */
  lemma NeverStale(s: Session, env: Env, now: nat)
    requires SessionInv(s) && s.task.Some? && !s.task.value.isIlluminationOn
    requires OnSession(s, env, now).task.value.isIlluminationOn
    requires forall e :: e in s.shared.log ==> !(e.DrawFailed? && e.node == s.task.value.node.value)
    ensures var t' := OnSession(s, env, now).task.value;
            && Shown(OnSession(s, env, now).shared.log, t'.node.value) == Some(t'.canvasParam)
            && Fresh(s.shared.opacity, env.brightness, t'.canvasParam)
  {
    LitFrame(s, env, now);
    LastDrawOf(s.shared.log, s.task.value.node.value);
  }

  lemma LitDraw(t: Task.TaskState, sh: Shared, env: Env)
    requires t.surface.Some? && Task.Drawn(t, sh, env).code == SUCCESS
    requires CacheOf(sh.log, sh.opacity, t.surface.value, t.brightness, t.canvasParam)
    ensures var d, n := Task.Drawn(t, sh, env), t.surface.value;
            && d.task.brightness == env.brightness
            && (env.brightness != t.brightness ==> LastDraw(d.shared.log, n).value.Flushed?)
            && (env.brightness == t.brightness ==> d.shared == sh && d.task == t)
  {
  }

  // ----- the library and the screen monitor

  /** At every point of every run, acquires are releases plus tasks alive; they
      are equal once the session is over and no callback holds a task. */
  lemma LibraryBalanced(opacity: Opacity, steps: seq<Step>)
    requires Possible(Initial(opacity), steps)
    ensures var w := Reached(opacity, steps);
            var acquired, released := Count(w.session.shared.log, Acquired), Count(w.session.shared.log, Released);
            && acquired == released + LiveTasks(w)
            && (w.session.task.None? && w.locked == multiset{} && w.done == multiset{} ==> acquired == released)
  {
    ReachedInv(opacity, steps);
    var w := Reached(opacity, steps);
    if w.locked == multiset{} && w.done == multiset{} {
      assert forall id :: id in w.orphans ==> StrongCallbacks(w, id) > 0;
      assert w.orphans.Keys == {};
    }
  }

  /** Screen events never arrive without a session; during one they arrive exactly
      if its task was constructed with them and no other task has died since. */
  lemma SubscribedExactly(opacity: Opacity, steps: seq<Step>)
    requires Possible(Initial(opacity), steps)
    ensures var s := Reached(opacity, steps).session;
            s.shared.monitor.isSubscribing <==>
              s.task.Some? && LastBirthOrDeath(s.shared.log) == Some(Born(s.task.value.id, true))
  {
    ReachedInv(opacity, steps);
  }

  /** A task is always constructed while nobody receives screen events, so the
      monitor's duplicate-subscription branch is never taken. */
  lemma NoDuplicateSubscription(w: World)
    requires Inv(w) && w.session.task.None?
    ensures !w.session.shared.monitor.isSubscribing
  {
  }

  /** What a task's birth records is whether the event service took the
      subscription, when ENABLE made the task. */
  lemma BornSubscribedExactly(s: Session, executor: Executor, p: EnableParam, env: Env)
    requires SessionInv(s)
    ensures var r := Enable(s, executor, p, env);
            r.code == SUCCESS ==>
              && r.session.task.Some?
              && LastBirthOrDeath(r.session.shared.log)
                 == Some(Born(r.session.task.value.id, env.subscriberOk && env.subscribeOk))
              && (r.session.shared.monitor.isSubscribing <==> env.subscriberOk && env.subscribeOk)
  {
    var acquired := AfterAcquire(s.shared, env).0;
    StartSubscribes(acquired, p, env);
    StartIsBorn(acquired, p, env);
  }

  lemma StartIsBorn(sh: Shared, p: EnableParam, env: Env)
    ensures var (started, sh') := Started(sh, p, env);
            started.Some? ==>
              && started.value.id == sh.nextTask
              && LastBirthOrDeath(sh'.log) == Some(Born(sh.nextTask, AfterSubscribe(sh.monitor, env).isSubscribing))
  {
    var born := Task.NewTask(sh.nextTask).(hasDestructCallback := true);
    EnableEffect(born, Task.AfterConstruct(sh, env), p.centerX, p.centerY, p.radius, p.color, env);
  }

  /** Every subscription succeeds and no callback ever outlives its task's session. */
  ghost predicate Orderly(w: World, steps: seq<Step>)
    requires Possible(w, steps)
    decreases |steps|
  {
    && w.orphans == map[]
    && (steps != [] ==>
          && (steps[0].Command? ==> steps[0].env.subscriberOk && steps[0].env.subscribeOk)
          && Orderly(Next(w, steps[0]), steps[1..]))
  }

  /** In orderly runs the monitor's flag is on exactly during sessions. */
  lemma {:induction false} SubscribedDuringSessions(w: World, steps: seq<Step>)
    requires Inv(w) && Possible(w, steps) && Orderly(w, steps)
    requires w.session.shared.monitor.isSubscribing <==> w.session.task.Some?
    ensures Run(w, steps).session.shared.monitor.isSubscribing <==> Run(w, steps).session.task.Some?
    decreases |steps|
  {
    if steps != [] {
      InvStep(w, steps[0]);
      SubscribedStep(w, steps[0]);
      SubscribedDuringSessions(Next(w, steps[0]), steps[1..]);
    }
  }

  lemma SubscribedStep(w: World, step: Step)
    requires Inv(w) && CanStep(w, step) && w.orphans == map[]
    requires step.Command? ==> step.env.subscriberOk && step.env.subscribeOk
    requires w.session.shared.monitor.isSubscribing <==> w.session.task.Some?
    ensures var s := Next(w, step).session; s.task.Some? ==> s.shared.monitor.isSubscribing
  {
    if step.Command? {
      SubscribedCommand(w.session, step.executor, step.command, step.env, w.now);
    } else if step.CallbackReturns? {
      ReturnIs(w, step.task);
    } else if step.CallbackRuns? {
      OffEffect(Live(w, step.task).value, w.session.shared);
    }
  }

  lemma SubscribedCommand(s: Session, executor: Option<Executor>, command: SaCommand, env: Env, now: nat)
    requires SessionInv(s) && env.subscriberOk && env.subscribeOk
    requires s.shared.monitor.isSubscribing <==> s.task.Some?
    ensures var s' := Process(s, executor, command, env, now).session;
            s'.task.Some? ==> s'.shared.monitor.isSubscribing
  {
    if executor.Some? {
      match command.id
      case ENABLE => if s.task.None? { StartSubscribes(AfterAcquire(s.shared, env).0, command.param, env); }
      case DISABLE =>
      case TURN_ON => TurningKeepsMonitor(s, executor.value, env, now);
      case TURN_OFF => TurningKeepsMonitor(s, executor.value, env, now);
      case OTHER(_) =>
    }
  }

  lemma TurningKeepsMonitor(s: Session, executor: Executor, env: Env, now: nat)
    ensures TurnOn(s, executor, env, now).session.shared.monitor == s.shared.monitor
    ensures TurnOff(s, executor).session.shared.monitor == s.shared.monitor
  {
    if s.task.Some? {
      OnEffect(s.task.value, s.shared, env, now);
      OffEffect(s.task.value, s.shared);
    }
  }

  lemma StartSubscribes(sh: Shared, p: EnableParam, env: Env)
    ensures var (started, sh') := Started(sh, p, env);
            started.Some? ==> sh'.monitor == AfterSubscribe(sh.monitor, env)
  {
    var born := Task.NewTask(sh.nextTask).(hasDestructCallback := true);
    EnableEffect(born, Task.AfterConstruct(sh, env), p.centerX, p.centerY, p.radius, p.color, env);
  }

  // ----- exclusive ownership

  /** In every reachable state the sensor has an owner exactly if it has a task. */
  lemma OwnerExactlyWithTask(opacity: Opacity, steps: seq<Step>)
    requires Possible(Initial(opacity), steps)
    ensures var s := Reached(opacity, steps).session;
            s.executor.Some? <==> s.task.Some?
  {
    ReachedInv(opacity, steps);
  }

  /** While somebody owns the sensor, a command from anyone else, or from nobody, is
      refused and changes nothing; and so does anyone else's disconnect. */
  lemma ForeignCommand(w: World, executor: Option<Executor>, command: SaCommand, env: Env)
    requires Inv(w) && w.session.executor.Some? && executor != w.session.executor
    ensures Process(w.session, executor, command, env, w.now) == Refused(w.session)
    ensures Perform(w, executor, command, env) == w
    ensures Disconnected(w.session, executor).session == w.session
  {
  }

  /** A command of somebody else, or the driver's loop without the owner's turn. */
  predicate ForeignAct(w: World, step: Step, owner: Executor)
    requires CanStep(w, step)
  {
    || (step.Command? && step.executor != Some(owner))
    || (step.DisconnectNotifies? && w.driver.executors[w.driver.cursor.value] != owner)
    || step.DisconnectBegins? || step.DisconnectEnds?
  }

  ghost predicate Foreign(w: World, steps: seq<Step>, owner: Executor)
    requires Possible(w, steps)
    decreases |steps|
  {
    steps == [] || (ForeignAct(w, steps[0], owner) && Foreign(Next(w, steps[0]), steps[1..], owner))
  }

  ghost predicate RefusedIfCommand(w: World, step: Step) {
    step.Command? ==> Process(w.session, step.executor, step.command, step.env, w.now) == Refused(w.session)
  }

  /** Every command of the run is refused. */
  ghost predicate AllRefused(w: World, steps: seq<Step>)
    requires Possible(w, steps)
    decreases |steps|
  {
    steps == [] || (RefusedIfCommand(w, steps[0]) && AllRefused(Next(w, steps[0]), steps[1..]))
  }

  lemma ForeignStep(w: World, step: Step)
    requires Inv(w) && w.session.executor.Some? && CanStep(w, step) && ForeignAct(w, step, w.session.executor.value)
    ensures Next(w, step) == w.(driver := Next(w, step).driver) && RefusedIfCommand(w, step)
    ensures step.Command? ==> Next(w, step) == w
  {
    if step.Command? {
      ForeignCommand(w, step.executor, step.command, step.env);
    }
  }

  /** No mix of other executors' commands and disconnects touches the owner's
      session: only the driver's own list and cursor move. */
  lemma {:induction false} ForeignActsChangeNothing(w: World, steps: seq<Step>, owner: Executor)
    requires Inv(w) && w.session.executor == Some(owner) && Possible(w, steps) && Foreign(w, steps, owner)
    ensures Run(w, steps) == w.(driver := Run(w, steps).driver) && AllRefused(w, steps)
    ensures (forall i :: 0 <= i < |steps| ==> steps[i].Command?) ==> Run(w, steps) == w
    decreases |steps|
  {
    if steps != [] {
      ForeignStep(w, steps[0]);
      InvStep(w, steps[0]);
      ForeignActsChangeNothing(Next(w, steps[0]), steps[1..], owner);
    }
  }

  /** The owner gives its session up, or goes away. */
  predicate Leaves(w: World, step: Step, owner: Executor)
    requires CanStep(w, step)
  {
    || (step.Command? && step.executor == Some(owner) && step.command.id.DISABLE?)
    || (step.DisconnectNotifies? && w.driver.executors[w.driver.cursor.value] == owner)
  }

  ghost predicate NeverLeaves(w: World, steps: seq<Step>, owner: Executor)
    requires Possible(w, steps)
    decreases |steps|
  {
    steps == [] || (!Leaves(w, steps[0], owner) && NeverLeaves(Next(w, steps[0]), steps[1..], owner))
  }

  /** The same owner, and the same task on the same screen. */
  ghost predicate SameSession(s: Session, s': Session) {
    && s.executor == s'.executor && s.task.Some? && s'.task.Some?
    && s'.task.value.id == s.task.value.id && s'.task.value.screenId == s.task.value.screenId
  }

  lemma OwnerKeepsStep(w: World, step: Step)
    requires Inv(w) && w.session.executor.Some? && CanStep(w, step) && !Leaves(w, step, w.session.executor.value)
    ensures SameSession(w.session, Next(w, step).session)
  {
    if step.Command? {
      OwnerKeepsCommand(w.session, step.executor, step.command, step.env, w.now);
    } else if step.CallbackReturns? {
      OwnerKeepsReturn(w, step.task);
    } else if step.CallbackRuns? {
      OffEffect(Live(w, step.task).value, w.session.shared);
    }
  }

  lemma OwnerKeepsReturn(w: World, id: nat)
    requires Books(w) && w.session.executor.Some? && w.session.task.Some? && id in w.done
    ensures SameSession(w.session, Return(w, id).session)
  {
    ReturnIs(w, id);
  }

  lemma OwnerKeepsOn(s: Session, executor: Executor, env: Env, now: nat)
    requires s.executor.Some? && s.task.Some?
    ensures SameSession(s, TurnOn(s, executor, env, now).session)
  {
    OnEffect(s.task.value, s.shared, env, now);
  }

  lemma OwnerKeepsOff(s: Session, executor: Executor)
    requires s.executor.Some? && s.task.Some?
    ensures SameSession(s, TurnOff(s, executor).session)
  {
    OffEffect(s.task.value, s.shared);
  }

  lemma OwnerKeepsCommand(s: Session, executor: Option<Executor>, command: SaCommand, env: Env, now: nat)
    requires s.executor.Some? && s.task.Some?
    requires executor != s.executor || !command.id.DISABLE?
    ensures SameSession(s, Process(s, executor, command, env, now).session)
  {
    if executor.Some? && command.id.TURN_ON? {
      OwnerKeepsOn(s, executor.value, env, now);
    } else if executor.Some? && command.id.TURN_OFF? {
      OwnerKeepsOff(s, executor.value);
    } else {
      assert Process(s, executor, command, env, now) == Refused(s);
    }
  }

  /** Until its owner leaves, a session keeps its owner and its task through
      everything else that happens. */
  lemma {:induction false} OwnerKeepsSession(w: World, steps: seq<Step>)
    requires Inv(w) && w.session.executor.Some? && Possible(w, steps)
    requires NeverLeaves(w, steps, w.session.executor.value)
    ensures SameSession(w.session, Run(w, steps).session)
    decreases |steps|
  {
    if steps != [] {
      OwnerKeepsStep(w, steps[0]);
      InvStep(w, steps[0]);
      OwnerKeepsSession(Next(w, steps[0]), steps[1..]);
    }
  }
}
