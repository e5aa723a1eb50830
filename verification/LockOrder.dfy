/** Why the threads of the subsystem never deadlock: every scoped lock is taken
    in one order, and scoped locking on ranked locks never closes a cycle. */
module LockOrder {
  datatype Lock =
    | DRIVER            // fingerprint_auth_driver_hdi.cpp
    | REGISTRY          // sa_command_manager.cpp, the only one with shared mode
    | MANAGER           // sensor_illumination_manager.cpp
    | SERVICE           // service_ex_manager.cpp, recursive
    | TASK(task: nat)   // sensor_illumination_task.cpp, one for each task, recursive
    | MONITOR           // screen_state_monitor.cpp
    | SUBSCRIBER        // screen_state_monitor.cpp, the event subscriber's

  function Rank(lock: Lock): nat {
    match lock
    case DRIVER => 0
    case REGISTRY => 1
    case MANAGER => 2
    case SERVICE => 3
    case TASK(_) => 4
    case MONITOR => 5
    case SUBSCRIBER => 6
  }

  predicate Recursive(lock: Lock) {
    lock.SERVICE? || lock.TASK?
  }

  /** Code as the lock scopes it runs through: a guarded block, then the rest. */
  datatype Code = Done | Guard(lock: Lock, isShared: bool, inside: Code, next: Code)

  datatype Hold = Hold(lock: Lock, isShared: bool)

  datatype Op = Take(hold: Hold) | Give

  function Ops(code: Code): seq<Op> {
    match code
    case Done => []
    case Guard(lock, isShared, inside, next) => [Take(Hold(lock, isShared))] + Ops(inside) + [Give] + Ops(next)
  }

  predicate Holds(held: seq<Hold>, lock: Lock) {
    exists i :: 0 <= i < |held| && held[i].lock == lock
  }

  /** A lock may be taken over the ones already held: it ranks above all of them,
      or is a recursive one that is already held.  Recursive locks are never shared. */
  predicate MayTake(held: seq<Hold>, hold: Hold) {
    && (Recursive(hold.lock) ==> !hold.isShared)
    && if Holds(held, hold.lock) then Recursive(hold.lock)
       else forall i :: 0 <= i < |held| ==> Rank(held[i].lock) < Rank(hold.lock)
  }

  predicate Ordered(code: Code, held: seq<Hold>) {
    match code
    case Done => true
    case Guard(lock, isShared, inside, next) =>
      && MayTake(held, Hold(lock, isShared))
      && Ordered(inside, held + [Hold(lock, isShared)])
      && Ordered(next, held)
  }

  // ----- threads

  datatype Thread = Thread(held: seq<Hold>, ops: seq<Op>)

  /** The rest of a thread's operations respect the order and give everything back. */
  predicate Sound(held: seq<Hold>, ops: seq<Op>)
    decreases |ops|
  {
    if ops == [] then held == []
    else
      match ops[0]
      case Take(hold) => MayTake(held, hold) && Sound(held + [hold], ops[1..])
      case Give => held != [] && Sound(held[..|held| - 1], ops[1..])
  }

  lemma {:induction false} OrderedIsSound(code: Code, held: seq<Hold>, rest: seq<Op>)
    requires Ordered(code, held) && Sound(held, rest)
    ensures Sound(held, Ops(code) + rest)
  {
    match code
    case Done => assert Ops(code) + rest == rest;
    case Guard(lock, isShared, inside, next) =>
      var inner, tail := held + [Hold(lock, isShared)], Ops(next) + rest;
      OrderedIsSound(next, held, rest);
      GiveIsSound(held, Hold(lock, isShared), tail);
      OrderedIsSound(inside, inner, [Give] + tail);
      assert Ops(code) + rest == [Take(Hold(lock, isShared))] + (Ops(inside) + ([Give] + tail));
      TakeIsSound(held, Hold(lock, isShared), Ops(inside) + ([Give] + tail));
  }

  lemma GiveIsSound(held: seq<Hold>, hold: Hold, ops: seq<Op>)
    requires Sound(held, ops)
    ensures Sound(held + [hold], [Give] + ops)
  {
    assert ([Give] + ops)[1..] == ops && (held + [hold])[..|held|] == held;
  }

  lemma TakeIsSound(held: seq<Hold>, hold: Hold, ops: seq<Op>)
    requires MayTake(held, hold) && Sound(held + [hold], ops)
    ensures Sound(held, [Take(hold)] + ops)
  {
    assert ([Take(hold)] + ops)[1..] == ops;
  }

  type System = seq<Thread>

  /** Thread `i` wants a lock it does not already hold. */
  predicate Wants(ts: System, i: nat)
    requires i < |ts|
  {
    ts[i].ops != [] && ts[i].ops[0].Take? && !Holds(ts[i].held, ts[i].ops[0].hold.lock)
  }

  predicate HoldsAgainst(held: seq<Hold>, hold: Hold) {
    exists k :: 0 <= k < |held| && held[k].lock == hold.lock && !(held[k].isShared && hold.isShared)
  }

  /** Thread `i` waits for thread `j`, which holds the lock in a conflicting mode, or is
      itself waiting to take exclusively what `i` wants to share. */
  predicate WaitsFor(ts: System, i: nat, j: nat)
    requires i < |ts| && j < |ts|
  {
    && i != j && Wants(ts, i)
    && var hold := ts[i].ops[0].hold;
       || HoldsAgainst(ts[j].held, hold)
       || (hold.isShared && Wants(ts, j) && ts[j].ops[0].hold == Hold(hold.lock, false))
  }

  /** A thread can take its next step: it is not waiting, and does not re-take a lock
      that is not recursive. */
  predicate CanGo(ts: System, i: nat)
    requires i < |ts|
  {
    && ts[i].ops != []
    && match ts[i].ops[0]
       case Give => ts[i].held != []
       case Take(hold) =>
         if Holds(ts[i].held, hold.lock) then Recursive(hold.lock)
         else forall j: nat :: j < |ts| ==> !WaitsFor(ts, i, j)
  }

  function Go(ts: System, i: nat): System
    requires i < |ts| && CanGo(ts, i)
  {
    var t := ts[i];
    match t.ops[0]
    case Take(hold) => ts[i := Thread(t.held + [hold], t.ops[1..])]
    case Give => ts[i := Thread(t.held[..|t.held| - 1], t.ops[1..])]
  }

  ghost predicate AllSound(ts: System) {
    forall i :: 0 <= i < |ts| ==> Sound(ts[i].held, ts[i].ops)
  }

  predicate PossibleGoes(ts: System, order: seq<nat>)
    decreases |order|
  {
    order == [] || (order[0] < |ts| && CanGo(ts, order[0]) && PossibleGoes(Go(ts, order[0]), order[1..]))
  }

  function GoAll(ts: System, order: seq<nat>): System
    requires PossibleGoes(ts, order)
    decreases |order|
  {
    if order == [] then ts else GoAll(Go(ts, order[0]), order[1..])
  }

  function Start(codes: seq<Code>): System {
    seq(|codes|, i requires 0 <= i < |codes| => Thread([], Ops(codes[i])))
  }

  lemma StartSound(codes: seq<Code>)
    requires forall i :: 0 <= i < |codes| ==> Ordered(codes[i], [])
    ensures AllSound(Start(codes))
  {
    forall i | 0 <= i < |codes| ensures Sound([], Ops(codes[i])) {
      OrderedIsSound(codes[i], [], []);
      assert Ops(codes[i]) + [] == Ops(codes[i]);
    }
  }

  lemma {:induction false} SoundForever(ts: System, order: seq<nat>)
    requires AllSound(ts) && PossibleGoes(ts, order)
    ensures AllSound(GoAll(ts, order))
    decreases |order|
  {
    if order != [] {
      SoundForever(Go(ts, order[0]), order[1..]);
    }
  }

  // ----- the locks exclude

  /** Two threads hold the same lock only if both share it, and nobody shares a recursive one. */
  ghost predicate Exclusive(ts: System) {
    && (forall i, j, k, l :: 0 <= i < |ts| && 0 <= j < |ts| && i != j
          && 0 <= k < |ts[i].held| && 0 <= l < |ts[j].held| && ts[i].held[k].lock == ts[j].held[l].lock
          ==> ts[i].held[k].isShared && ts[j].held[l].isShared)
    && (forall i, k :: 0 <= i < |ts| && 0 <= k < |ts[i].held| && Recursive(ts[i].held[k].lock)
          ==> !ts[i].held[k].isShared)
  }

  lemma ExclusiveGo(ts: System, i: nat)
    requires AllSound(ts) && Exclusive(ts) && i < |ts| && CanGo(ts, i)
    ensures Exclusive(Go(ts, i))
  {
    assert Sound(ts[i].held, ts[i].ops);
    if ts[i].ops[0].Take? {
      TakenAlone(ts, i);
      ExclusiveTake(ts, i, ts[i].ops[0].hold);
    }
  }

  lemma ExclusiveTake(ts: System, i: nat, hold: Hold)
    requires Exclusive(ts) && i < |ts| && CanGo(ts, i) && ts[i].ops[0] == Take(hold)
    requires Recursive(hold.lock) ==> !hold.isShared
    requires forall j, k :: 0 <= j < |ts| && j != i && 0 <= k < |ts[j].held| && ts[j].held[k].lock == hold.lock
               ==> ts[j].held[k].isShared && hold.isShared
    ensures Exclusive(Go(ts, i))
  {
    var held := ts[i].held;
    assert Go(ts, i)[i].held == held + [hold];
    assert forall k :: 0 <= k < |held| ==> (held + [hold])[k] == held[k];
  }

  /** A lock a thread takes is held by others only if all of them share it. */
  lemma TakenAlone(ts: System, i: nat)
    requires Exclusive(ts) && i < |ts| && CanGo(ts, i) && ts[i].ops[0].Take?
    requires Recursive(ts[i].ops[0].hold.lock) ==> !ts[i].ops[0].hold.isShared
    ensures var hold := ts[i].ops[0].hold;
            forall j, k :: 0 <= j < |ts| && j != i && 0 <= k < |ts[j].held| && ts[j].held[k].lock == hold.lock
              ==> ts[j].held[k].isShared && hold.isShared
  {
    var hold := ts[i].ops[0].hold;
    forall j, k | 0 <= j < |ts| && j != i && 0 <= k < |ts[j].held| && ts[j].held[k].lock == hold.lock
      ensures ts[j].held[k].isShared && hold.isShared
    {
      if !Holds(ts[i].held, hold.lock) {
        assert !WaitsFor(ts, i, j);
        assert !HoldsAgainst(ts[j].held, hold);
      }
    }
  }

  lemma {:induction false} ExclusiveForever(ts: System, order: seq<nat>)
    requires AllSound(ts) && Exclusive(ts) && PossibleGoes(ts, order)
    ensures Exclusive(GoAll(ts, order))
    decreases |order|
  {
    if order != [] {
      ExclusiveGo(ts, order[0]);
      ExclusiveForever(Go(ts, order[0]), order[1..]);
    }
  }

  /** However the threads are scheduled, a lock held exclusively has one holder. */
  lemma MutualExclusion(codes: seq<Code>, order: seq<nat>)
    requires forall i :: 0 <= i < |codes| ==> Ordered(codes[i], [])
    requires PossibleGoes(Start(codes), order)
    ensures Exclusive(GoAll(Start(codes), order))
  {
    StartSound(codes);
    ExclusiveForever(Start(codes), order);
  }

  /** How far up the order a waiting thread waits; a writer waits above the readers. */
  function Height(ts: System, i: nat): nat
    requires i < |ts| && Wants(ts, i)
  {
    var hold := ts[i].ops[0].hold;
    2 * Rank(hold.lock) + if hold.isShared then 0 else 1
  }

  lemma WaitingClimbs(ts: System, i: nat, j: nat)
    requires AllSound(ts) && i < |ts| && j < |ts| && WaitsFor(ts, i, j) && Wants(ts, j)
    ensures Height(ts, i) < Height(ts, j)
  {
    assert Sound(ts[j].held, ts[j].ops);
  }

  ghost predicate WaitingPath(ts: System, path: seq<nat>) {
    && (forall k :: 0 <= k < |path| ==> path[k] < |ts|)
    && (forall k :: 0 < k < |path| ==> WaitsFor(ts, path[k - 1], path[k]))
  }

  lemma {:induction false} PathClimbs(ts: System, path: seq<nat>)
    requires AllSound(ts) && WaitingPath(ts, path) && |path| > 1 && Wants(ts, path[|path| - 1])
    ensures Wants(ts, path[0]) && Height(ts, path[0]) < Height(ts, path[|path| - 1])
  {
    var n := |path| - 1;
    assert WaitsFor(ts, path[n - 1], path[n]);
    WaitingClimbs(ts, path[n - 1], path[n]);
    if n > 1 {
      PathClimbs(ts, path[..n]);
    }
  }

  /** However the threads are scheduled, none ever waits for itself through others. */
  lemma NoWaitingCycle(codes: seq<Code>, order: seq<nat>, path: seq<nat>)
    requires forall i :: 0 <= i < |codes| ==> Ordered(codes[i], [])
    requires PossibleGoes(Start(codes), order)
    requires WaitingPath(GoAll(Start(codes), order), path) && |path| > 1
    ensures path[0] != path[|path| - 1]
  {
    var ts := GoAll(Start(codes), order);
    StartSound(codes);
    SoundForever(Start(codes), order);
    assert WaitsFor(ts, path[0], path[1]);
    if Wants(ts, path[|path| - 1]) {
      PathClimbs(ts, path);
    }
  }

  /** And as long as some thread is not finished, some thread can go on. */
  lemma SomebodyGoes(codes: seq<Code>, order: seq<nat>, i: nat)
    requires forall k :: 0 <= k < |codes| ==> Ordered(codes[k], [])
    requires PossibleGoes(Start(codes), order)
    requires i < |GoAll(Start(codes), order)| && GoAll(Start(codes), order)[i].ops != []
    ensures exists j: nat :: j < |GoAll(Start(codes), order)| && CanGo(GoAll(Start(codes), order), j)
  {
    var ts := GoAll(Start(codes), order);
    StartSound(codes);
    SoundForever(Start(codes), order);
    var j := Climb(ts, i);
    assert CanGo(ts, j);
  }

  /** Following the threads waited for ends at one that can go. */
  lemma {:induction false} Climb(ts: System, i: nat) returns (j: nat)
    requires AllSound(ts) && i < |ts| && ts[i].ops != []
    ensures j < |ts| && CanGo(ts, j)
    decreases if Wants(ts, i) then 14 - Height(ts, i) else 0
  {
    assert Sound(ts[i].held, ts[i].ops);
    if CanGo(ts, i) {
      j := i;
    } else {
      var k: nat :| k < |ts| && WaitsFor(ts, i, k);
      assert Sound(ts[k].held, ts[k].ops);
      if Wants(ts, k) {
        WaitingClimbs(ts, i, k);
      }
      j := Climb(ts, k);
    }
  }

  // ----- the lock scopes of the program

  function Scope(lock: Lock, inside: Code): Code {
    Guard(lock, false, inside, Done)
  }

  /** One piece of code after another. */
  function Then(first: Code, second: Code): Code {
    match first
    case Done => second
    case Guard(lock, isShared, inside, next) => Guard(lock, isShared, inside, Then(next, second))
  }

  lemma {:induction false} ThenOrdered(first: Code, second: Code, held: seq<Hold>)
    requires Ordered(first, held) && Ordered(second, held)
    ensures Ordered(Then(first, second), held)
  {
    match first
    case Done =>
    case Guard(lock, isShared, inside, next) => ThenOrdered(next, second, held);
  }

  const SUBSCRIBES := Scope(MONITOR, Scope(SUBSCRIBER, Done))
  const READS_SCREEN := Scope(MONITOR, Done)
  const SERVICE_CALL := Scope(SERVICE, Done)
  const CONSTRUCTS := Scope(SERVICE, SUBSCRIBES)

  function Destructs(): Code { Then(READS_SCREEN, SERVICE_CALL) }

  function TurnsOff(task: nat): Code { Scope(TASK(task), Done) }

  function TurnsOn(task: nat): Code { Scope(TASK(task), READS_SCREEN) }

  function EndsSession(task: nat): Code {
    Then(Scope(TASK(task), Then(TurnsOff(task), READS_SCREEN)), Destructs())
  }

  function EnablesTask(task: nat): Code { Scope(TASK(task), Done) }

  /** Enabling on its longest way: a failed enable also destructs the task. */
  function EnablesSession(task: nat): Code {
    Then(Then(SERVICE_CALL, CONSTRUCTS), Then(EnablesTask(task), Destructs()))
  }

  datatype ManagerCall = Enables(task: nat) | EndsIt(task: nat) | LightsIt(task: nat) | DarkensIt(task: nat) | RefusesIt

  function ManagerCode(call: ManagerCall): Code {
    Scope(MANAGER,
          match call
          case Enables(task) => EnablesSession(task)
          case EndsIt(task) => EndsSession(task)
          case LightsIt(task) => TurnsOn(task)
          case DarkensIt(task) => TurnsOff(task)
          case RefusesIt => Done)
  }

  function ManagerCalls(calls: seq<ManagerCall>): Code {
    if calls == [] then Done else Then(ManagerCode(calls[0]), ManagerCalls(calls[1..]))
  }

  /** What the program's threads run: a batch of commands, a registration, a driver
      connect, the driver's disconnect loop, a timer callback, a screen event. */
  datatype Activity =
    | Commands(calls: seq<ManagerCall>)
    | Registration
    | Connection
    | Disconnection(calls: seq<ManagerCall>)
    | TimerCallback(task: nat)
    | ScreenChange

  function Broadcasts(calls: seq<ManagerCall>): Code {
    if calls == [] then Done
    else Then(Guard(REGISTRY, true, ManagerCode(calls[0]), Done), Broadcasts(calls[1..]))
  }

  function CodeOf(activity: Activity): Code {
    match activity
    case Commands(calls) => Guard(REGISTRY, true, ManagerCalls(calls), Done)
    case Registration => Scope(REGISTRY, Done)
    case Connection => Scope(DRIVER, Done)
    case Disconnection(calls) => Scope(DRIVER, Broadcasts(calls))
    case TimerCallback(task) => Then(TurnsOff(task), Destructs())
    case ScreenChange => Then(Scope(SUBSCRIBER, Done), READS_SCREEN)
  }

  /** Only locks below the manager's are held. */
  predicate Below(held: seq<Hold>, rank: nat) {
    forall i :: 0 <= i < |held| ==> Rank(held[i].lock) < rank
  }

  lemma ScopeOrdered(lock: Lock, isShared: bool, inside: Code, held: seq<Hold>)
    requires Below(held, Rank(lock)) && Ordered(inside, held + [Hold(lock, isShared)])
    requires Recursive(lock) ==> !isShared
    ensures Ordered(Guard(lock, isShared, inside, Done), held)
  {
  }

  lemma LeavesOrdered(held: seq<Hold>, task: nat)
    requires Below(held, 3)
    ensures Ordered(SUBSCRIBES, held) && Ordered(READS_SCREEN, held) && Ordered(SERVICE_CALL, held)
    ensures Ordered(Destructs(), held) && Ordered(TurnsOff(task), held) && Ordered(TurnsOn(task), held)
  {
    ThenOrdered(READS_SCREEN, SERVICE_CALL, held);
    var inTask := held + [Hold(TASK(task), false)];
    ScopeOrdered(MONITOR, false, Done, inTask);
    ScopeOrdered(SUBSCRIBER, false, Done, held + [Hold(MONITOR, false)]);
  }

  lemma EndsOrdered(held: seq<Hold>, task: nat)
    requires Below(held, 3)
    ensures Ordered(EndsSession(task), held)
  {
    LeavesOrdered(held, task);
    var inTask := held + [Hold(TASK(task), false)];
    assert inTask[|held|].lock == TASK(task);
    assert Holds(inTask, TASK(task));
    ScopeOrdered(MONITOR, false, Done, inTask);
    ThenOrdered(TurnsOff(task), READS_SCREEN, inTask);
    ScopeOrdered(TASK(task), false, Then(TurnsOff(task), READS_SCREEN), held);
    ThenOrdered(Scope(TASK(task), Then(TurnsOff(task), READS_SCREEN)), Destructs(), held);
  }

  lemma EnablesOrdered(held: seq<Hold>, task: nat)
    requires Below(held, 3)
    ensures Ordered(EnablesSession(task), held)
  {
    LeavesOrdered(held, task);
    var inService := held + [Hold(SERVICE, false)];
    ScopeOrdered(SUBSCRIBER, false, Done, inService + [Hold(MONITOR, false)]);
    ScopeOrdered(MONITOR, false, Scope(SUBSCRIBER, Done), inService);
    ScopeOrdered(SERVICE, false, SUBSCRIBES, held);
    ThenOrdered(SERVICE_CALL, CONSTRUCTS, held);
    ThenOrdered(EnablesTask(task), Destructs(), held);
    ThenOrdered(Then(SERVICE_CALL, CONSTRUCTS), Then(EnablesTask(task), Destructs()), held);
  }

  lemma ManagerOrdered(call: ManagerCall, held: seq<Hold>)
    requires Below(held, 2)
    ensures Ordered(ManagerCode(call), held)
  {
    var inManager := held + [Hold(MANAGER, false)];
    match call
    case Enables(task) => EnablesOrdered(inManager, task);
    case EndsIt(task) => EndsOrdered(inManager, task);
    case LightsIt(task) => LeavesOrdered(inManager, task);
    case DarkensIt(task) => LeavesOrdered(inManager, task);
    case RefusesIt =>
  }

  lemma {:induction false} ManagerCallsOrdered(calls: seq<ManagerCall>, held: seq<Hold>)
    requires Below(held, 2)
    ensures Ordered(ManagerCalls(calls), held)
  {
    if calls != [] {
      ManagerOrdered(calls[0], held);
      ManagerCallsOrdered(calls[1..], held);
      ThenOrdered(ManagerCode(calls[0]), ManagerCalls(calls[1..]), held);
    }
  }

  lemma {:induction false} BroadcastsOrdered(calls: seq<ManagerCall>, held: seq<Hold>)
    requires Below(held, 1)
    ensures Ordered(Broadcasts(calls), held)
  {
    if calls != [] {
      ManagerOrdered(calls[0], held + [Hold(REGISTRY, true)]);
      BroadcastsOrdered(calls[1..], held);
      ThenOrdered(Guard(REGISTRY, true, ManagerCode(calls[0]), Done), Broadcasts(calls[1..]), held);
    }
  }

  /** Every activity takes its locks in order. */
  lemma ActivitiesOrdered(activity: Activity)
    ensures Ordered(CodeOf(activity), [])
  {
    match activity
    case Commands(calls) =>
      ManagerCallsOrdered(calls, [] + [Hold(REGISTRY, true)]);
      ScopeOrdered(REGISTRY, true, ManagerCalls(calls), []);
    case Registration =>
    case Connection =>
    case Disconnection(calls) =>
      BroadcastsOrdered(calls, [] + [Hold(DRIVER, false)]);
      ScopeOrdered(DRIVER, false, Broadcasts(calls), []);
    case TimerCallback(task) =>
      LeavesOrdered([], task);
      ThenOrdered(TurnsOff(task), Destructs(), []);
    case ScreenChange =>
  }

  /** So any number of threads running any activities, scheduled in any way, never
      close a cycle of waiting, and never stop before all are finished. */
  lemma NoDeadlock(activities: seq<Activity>, order: seq<nat>)
    requires var codes := seq(|activities|, i requires 0 <= i < |activities| => CodeOf(activities[i]));
             PossibleGoes(Start(codes), order)
    ensures var codes := seq(|activities|, i requires 0 <= i < |activities| => CodeOf(activities[i]));
            var ts := GoAll(Start(codes), order);
            && (forall path :: WaitingPath(ts, path) && |path| > 1 ==> path[0] != path[|path| - 1])
            && ((forall i :: 0 <= i < |ts| ==> ts[i].ops == []) || exists j: nat :: j < |ts| && CanGo(ts, j))
  {
    var codes := seq(|activities|, i requires 0 <= i < |activities| => CodeOf(activities[i]));
    forall i | 0 <= i < |codes| ensures Ordered(codes[i], []) {
      ActivitiesOrdered(activities[i]);
    }
    var ts := GoAll(Start(codes), order);
    forall path | WaitingPath(ts, path) && |path| > 1 ensures path[0] != path[|path| - 1] {
      NoWaitingCycle(codes, order, path);
    }
    if i :| 0 <= i < |ts| && ts[i].ops != [] {
      SomebodyGoes(codes, order, i);
    }
  }
}
