# Fingerprint sensor illumination: a verified model

The service lights a spot on the screen under an optical fingerprint sensor. Commands for that
arrive from the hardware driver in batches, are dispatched through a registry of processors to one
session manager, which lets one executor at a time own one illumination task. A task owns a surface
node, puts it on the display for at most a second at a time, and takes it off again from a timer
thread. The screen state, the driver's executor list and the extension library are shared with
everything else in the process.

This project models that subsystem and proves what its layers guarantee together.

## How it is built

* Every object the program updates in place is a class with the same fields and methods
  (`SensorIlluminationTask`, `SensorIlluminationManager`, `SaCommandManager`,
  `FingerprintAuthDriverHdi`, `ScreenStateMonitor`, `ServiceExManager`). Each method is proved equal
  to a function on values (`Task.TurnedOn`, `IlluminationManager.Enable`, ...).
* Every call that leaves the subsystem succeeds or fails as the record `Env` says, each one
  independently; nothing is assumed about the outcomes. That includes registering a timer, whose
  result the program does not check.
* `World` makes a transition system of these functions: commands, timers firing, callbacks taking
  their strong pointer, running and giving it up, screen events, driver connects, the driver's
  disconnect loop one executor at a time, and time, in any order. Each method that holds one lock
  throughout is one step; the task's destructor takes the monitor's and the service's lock one after
  the other, and its step is taken at the unsubscription. Shared-pointer counts are modelled, so a callback can keep a task alive
  after its session and destruct it later.
* Effects are kept in one history (`Trace`): attach and detach calls, frames shown, draws that
  failed, acquires and releases of the library, births and deaths of tasks.
* The theorems hold for every opacity function of brightness; `BackgroundAlpha` studies the one the
  program uses, for every table that ascends in brightness and then for the program's own.

| file | content |
|---|---|
| `Common.dfy`, `Environment.dfy`, `Trace.dfy` | shared types, outcomes of external calls, the history |
| `BackgroundAlpha.dfy`, `Geometry.dfy` | brightness to opacity, thousandths to pixels |
| `ScreenStateMonitor.dfy`, `Platform.dfy`, `IlluminationTask.dfy`, `IlluminationManager.dfy` | the components: value functions and classes |
| `SaCommandManager.dfy`, `Driver.dfy` | registry, batches, executor generations |
| `World.dfy`, `Invariants.dfy`, `Refinement.dfy`, `Guarantees.dfy` | steps, what every step keeps, the automaton refined, what holds in every run |
| `Timers.dfy`, `SingletonHistory.dfy` | timers and callbacks over whole runs; what the monitor and the library know |
| `Composition.dfy` | batches and disconnects through all layers |
| `Surprises.dfy` | runs that show where an expected guarantee stops |
| `LockOrder.dfy` | lock scopes of all threads, and why they never deadlock |

## Findings

Five guarantees one might expect do not hold of the code as it stands. For each there is a run from
start-up in which it fails, and the exact condition under which it does hold.

* *The light is bounded to one second.* TURN_ON does not check that its timer was registered
  (`UnarmedReachable`). A light can go out by itself exactly if its timer was registered or a
  callback of an earlier light of the same task was still on its way when it came on
  (`LightGoesOutExactly`; `RelitGoesOut` reaches the second case); otherwise it stays on through every
  run in which its owner does not end it (`UnarmedLightStays`). Over whole runs the light is within
  its deadline exactly if no command lit it in that other case without its owner having ended it
  since (`BoundedLight`), so always while registration succeeds (`BoundedWhenRegistered`).
* *A lit frame matches the brightness.* A draw that fails after its brightness was cached is not
  repeated at that brightness (`StaleFrame`). The frame lit is right exactly if the latest draw was not
  such a failure at this very brightness, or the older frame happens to be right at it (`LitFrame`).
* *A live session receives screen events.* A callback of an earlier task that destructs that task
  late silences the new session (`DeafSession`, `DeafSessionReachable`). Events arrive exactly while
  the session's task was born subscribed and no other task has died since (`SubscribedExactly`), and a
  task is born subscribed exactly if the event service took the subscription
  (`BornSubscribedExactly`). That events arrive only during sessions holds without any condition.
* *A disconnect ends every session.* While the driver's loop is under way, an executor it has told
  already can still enable the sensor, and keeps it when the loop is through and the list is empty
  (`LateEnable`). Whatever is interleaved, the loop ends with the sensor idle exactly if no session
  began with an executor that was not to be told any more, or had its owner's list replaced, and has
  neither been disabled nor told since (`LoopDrainsRunExactly`). With commands from listed executors
  and connects that follow disconnects, the late ENABLE is the only way (`ListedStraysLate`), and
  without it the loop always drains (`DisconnectDrains`).
* *A new generation replaces the old one.* Asking the driver for a new executor list drops the old
  list without disconnecting it (`ReconnectStrands`, `StrandedReachable`). A session of a dropped
  generation goes on through every later generation, disconnect and interleaving until its owner's
  own DISABLE (`StrandedForGood`). `LoopDrainsExactly` and `LoopDrainsRunExactly` give the exact
  conditions.

## Model

| member | source | states |
|---|---|---|
| `BackgroundAlpha.GetBackgroundAlpha` | services_ex/src/sensor_illumination_task.cpp:60-82 | the table scan with its loop finds the first entry not below the brightness and returns its alpha or the truncated interpolation, or fails |
| `BackgroundAlpha.AlphaDefined` | services_ex/src/sensor_illumination_task.cpp:62-81 | on an ascending table the scan succeeds exactly up to the last brightness |
| `BackgroundAlpha.AlphaAtKeys` | services_ex/src/sensor_illumination_task.cpp:65-66 | exact at every key and clamped below the first |
| `BackgroundAlpha.AlphaBetweenKeys` | services_ex/src/sensor_illumination_task.cpp:67-75 | between two keys the result lies between their alphas, less than one from the exact line and never past it: at or below a rising line, at or above a falling one |
| `BackgroundAlpha.FadingIff` | services_ex/src/sensor_illumination_task.cpp:60-82 | over a stretch of keys, a brighter input never gets a larger alpha if and only if the alphas of the stretch never increase |
| `BackgroundAlpha.ProgramTableBounds` | services_ex/src/sensor_illumination_task.cpp:55-59 | with the program's table: defined exactly up to 255, never above 234 |
| `BackgroundAlpha.ProgramTableFades` | services_ex/src/sensor_illumination_task.cpp:55-59 | the program's table fades up to 8, from 10 to 224 and from 234 to 255 |
| `BackgroundAlpha.ProgramTableRisesDark` | services_ex/src/sensor_illumination_task.cpp:55 | it does not fade from 8 to 10 |
| `BackgroundAlpha.ProgramTableRisesBright` | services_ex/src/sensor_illumination_task.cpp:59 | it does not fade from 224 to 234 |
| `BackgroundAlpha.ProgramTableTruncatesUp` | services_ex/src/sensor_illumination_task.cpp:75 | at 9 the program's table gives 219, half a step truncated away |
| `BackgroundAlpha.ProgramTableTruncatesDown` | services_ex/src/sensor_illumination_task.cpp:75 | at 5 it gives 232, two and a half steps truncated to two |
| `Geometry.ConvertThousandthToPx` | services_ex/src/sensor_illumination_task.cpp:134-143 | the 64-bit computation yields the exact quotient, or fails above 32 bits |
| `Geometry.ProductFits` | services_ex/src/sensor_illumination_task.cpp:136 | the 64-bit product of two 32-bit factors never wraps |
| `Geometry.ConversionIsFloor` | services_ex/src/sensor_illumination_task.cpp:136-142 | succeeds exactly below 1000 times 2^32, and loses less than a pixel |
| `Geometry.AcceptedCentreInsideFrame` | services/src/sensor_illumination_manager.cpp:131-132 | a centre the manager accepts converts on every display and lies strictly inside a non-empty one |
| `Geometry.ConversionMonotone` | services_ex/src/sensor_illumination_task.cpp:134-143 | monotone in both arguments |
| `ScreenState.ScreenStateMonitor.Subscribe` | services_ex/src/screen_state_monitor.cpp:153-174 | duplicates and failures change nothing; success sets the flag and asks the power manager |
| `ScreenState.ScreenStateMonitor.Unsubscribe` | services_ex/src/screen_state_monitor.cpp:176-182 | clears the flag whatever the event service says |
| `ScreenState.ScreenStateMonitor.SetScreenOn` | services_ex/src/screen_state_monitor.cpp:184-190 | stores the screen state only |
| `ScreenState.ScreenStateMonitor.GetScreenOn` | services_ex/src/screen_state_monitor.cpp:192-197 | reads it |
| `Platform.ServiceExManager.Acquire` | services/src/service_ex_manager.cpp:40-56 | opens the library on first use only; fails exactly if that open fails |
| `Platform.ServiceExManager.Release` | services/src/service_ex_manager.cpp:58-62 | is recorded and closes nothing |
| `IlluminationTask.SensorIlluminationTask.constructor` | services_ex/src/sensor_illumination_task.cpp:146-150 | a new task with its initial fields, subscribed to the screen |
| `IlluminationTask.SensorIlluminationTask.Destruct` | services_ex/src/sensor_illumination_task.cpp:152-160 | unsubscribes, drops its timers, runs the destruct callback |
| `IlluminationTask.SensorIlluminationTask.Drop` | services/src/sensor_illumination_manager.cpp:99 | giving up the last shared pointer destructs |
| `IlluminationTask.SensorIlluminationTask.EnableSensorIllumination` | services_ex/src/sensor_illumination_task.cpp:162-219 | every failure exit and the first draw, as the specification function |
| `IlluminationTask.SensorIlluminationTask.DisableSensorIllumination` | services_ex/src/sensor_illumination_task.cpp:221-238 | turns off, drops the node, unsubscribes, always succeeds |
| `IlluminationTask.SensorIlluminationTask.DrawSurfaceNode` | services_ex/src/sensor_illumination_task.cpp:240-280 | the cache is keyed by brightness and stored before the draw can fail |
| `IlluminationTask.SensorIlluminationTask.TurnOnSensorIllumination` | services_ex/src/sensor_illumination_task.cpp:282-322 | screen off and already on succeed without effect; otherwise draw, re-arm the timer, attach |
| `IlluminationTask.SensorIlluminationTask.TurnOffSensorIllumination` | services_ex/src/sensor_illumination_task.cpp:324-346 | cancels the timer and detaches when on |
| `IlluminationTask.SensorIlluminationTask.OnDisplayTimeOut` | services_ex/src/sensor_illumination_task.cpp:348-352 | a time-out turns off |
| `IlluminationManager.SensorIlluminationManager.ProcessSaCommand` | services/src/sensor_illumination_manager.cpp:55-79 | the four commands dispatched, everything else refused |
| `IlluminationManager.SensorIlluminationManager.OnHdiDisconnect` | services/src/sensor_illumination_manager.cpp:81-102 | ends the owner's session and nobody else's |
| `IlluminationManager.SensorIlluminationManager.EnableSensorIllumination` | services/src/sensor_illumination_manager.cpp:104-144 | refused while owned; every failure exit leaves the sensor free |
| `IlluminationManager.SensorIlluminationManager.DisableSensorIllumination` | services/src/sensor_illumination_manager.cpp:146-166 | the owner's session ends, and its task is let go of |
| `IlluminationManager.SensorIlluminationManager.TurnOnSensorIllumination` | services/src/sensor_illumination_manager.cpp:168-185 | forwarded for the owner only |
| `IlluminationManager.SensorIlluminationManager.TurnOffSensorIllumination` | services/src/sensor_illumination_manager.cpp:187-204 | forwarded for the owner only |
| `CommandRegistry.SaCommandManager.RegisterSaCommandProcessor` | services/src/sa_command_manager.cpp:31-47 | both indexes gain the processor, null is ignored |
| `CommandRegistry.SaCommandManager.UnregisterSaCommandProcessor` | services/src/sa_command_manager.cpp:49-65 | both indexes lose it, unknown commands are skipped and none is forgotten |
| `CommandRegistry.SaCommandManager.ProcessSaCommands` | services/src/sa_command_manager.cpp:67-84 | the nested loop makes the batch's calls in order up to the first failure, and changes neither index |
| `CommandRegistry.SaCommandManager.OnHdiDisconnect` | services/src/sa_command_manager.cpp:86-96 | tells every registered processor, in order |
| `CommandRegistry.RegistryIsHistory` | services/src/sa_command_manager.cpp:31-65 | a command reaches exactly the processors whose latest operation mentioning it was a registration, a disconnect those whose latest operation was one |
| `CommandRegistry.KnownCommands` | services/src/sa_command_manager.cpp:40-43 | a command is known exactly if it was ever registered for |
| `CommandRegistry.UnregisterKeepsToldExactly` | services/src/sa_command_manager.cpp:49-65 | everyone who can be sent a command still hears of disconnects if and only if the call listed all of the processor's commands |
| `CommandRegistry.ThoroughHistoriesTellAll` | services/src/sa_command_manager.cpp:31-65 | so after every history whose unregistrations are thorough |
| `CommandRegistry.DispatchStopsAtFirstFailure` | services/src/sa_command_manager.cpp:72-83 | a batch makes a prefix of its calls, ends at the first failure or unknown command, and succeeds exactly if every call does |
| `CommandRegistry.CallsExactly` | services/src/sa_command_manager.cpp:72-82 | a known command is called once on each processor bound to it, in ascending order, before the next command; an unknown one ends the batch |
| `CommandRegistry.BatchAppend` | services/src/sa_command_manager.cpp:67-84 | two batches in one are the first and then, on success, the second |
| `CommandRegistry.BroadcastReaches` | services/src/sa_command_manager.cpp:90-93 | a broadcast reaches the one reacting processor exactly if it is registered |
| `CommandRegistry.BroadcastAppend` | services/src/sa_command_manager.cpp:90-93 | processors are told one after the other in order |
| `DriverHdi.FingerprintAuthDriverHdi.GetExecutorList` | services/src/fingerprint_auth_driver_hdi.cpp:47-78 | replaces the generation and extends the caller's list, or changes nothing without an answer |
| `DriverHdi.FingerprintAuthDriverHdi.OnHdiDisconnect` | services/src/fingerprint_auth_driver_hdi.cpp:80-93 | notifies every executor in order and empties the list |
| `DriverHdi.MadeIsFresh` | services/src/fingerprint_auth_driver_hdi.cpp:64-77 | one new executor for each usable proxy, none for null ones or failed allocations |
| `Composition.ConnectIsMade` | services/src/fingerprint_auth_driver_hdi.cpp:63-77 | the connect step lists exactly the executors the driver makes, however many |
| `Composition.LoopIsNotifyAll` | services/src/fingerprint_auth_driver_hdi.cpp:80-92 | undisturbed, the steps of the disconnect loop are the driver's loop through the registry |
| `Composition.LoopKeepsList` | services/src/fingerprint_auth_driver_hdi.cpp:63-92 | until the loop ends its list stands still: no connect and no second loop comes in between |
| `Composition.EveryNewExecutorIsReached` | services/src/fingerprint_auth_driver_hdi.cpp:63-91 | a session begun by any executor of a new list is over after the next loop |
| `Trace.AlternatingCounts` | services_ex/src/sensor_illumination_task.cpp:316-342 | alternating calls attach as often as they detach, and once more while on display |
| `Common.ConversionsInvert` | services_ex/src/sensor_illumination_task.cpp:261 | passing between the signed and the unsigned width changes a number by 2^32 or not at all, and back again |
| `Invariants.InvStep` | services_ex/src/sensor_illumination_task.cpp:146-352 | every step keeps the whole invariant: tasks, shared pointers, display, cache, library, subscription, light |
| `Invariants.InvRun` | services/src/sensor_illumination_manager.cpp:55-204 | it holds in every state of every run |
| `Invariants.OffKeeps` | services_ex/src/sensor_illumination_task.cpp:324-346 | turning off the session's task never fails and never leaves it lit |
| `Refinement.RefinesStep` | services/src/sensor_illumination_manager.cpp:55-204 | every step is a move of the automaton idle, unlit, lit until a deadline; failures stutter |
| `Refinement.RefinesRun` | services/src/sensor_illumination_manager.cpp:55-204 | and so is every run |
| `Refinement.EnableSucceedsExactly` | services/src/sensor_illumination_manager.cpp:104-144 | ENABLE succeeds exactly for a free sensor, a centre below 1000 in both coordinates, a radius below 300 and no external failure |
| `Refinement.TurnOnSucceedsExactly` | services/src/sensor_illumination_manager.cpp:168-185 | TURN_ON succeeds exactly for the owner, with nothing to do or a draw that goes through on a valid screen |
| `Guarantees.BoundedLight` | services_ex/src/sensor_illumination_task.cpp:302-318 | in every run, a light is due one display time after it came on or a callback is on its way, and served timers bound it, if and only if no command lit it unregistered with no callback on its way and its owner let it be since |
| `Guarantees.BoundedWhenRegistered` | services_ex/src/sensor_illumination_task.cpp:302-318 | so in every run in which the timer library registers what it is asked to |
| `Guarantees.LitUnarmedExactly` | services_ex/src/sensor_illumination_task.cpp:303-312 | a command lights without a bound exactly if its timer was not registered and no callback of the task is on its way |
| `Guarantees.LightGoesOutExactly` | services_ex/src/sensor_illumination_task.cpp:303-312 | a light has a run in which it goes out without its owner ending it, exactly if its timer was registered or a callback is on its way |
| `Guarantees.ArmedExactly` | services_ex/src/sensor_illumination_task.cpp:303-312 | a light is armed with a timer of its own exactly if that was registered |
| `Guarantees.UnarmedLightStays` | services_ex/src/sensor_illumination_task.cpp:302-318 | an unarmed light stays on until its owner ends it |
| `Guarantees.LitCommands` | services_ex/src/sensor_illumination_task.cpp:294-297 | a command to a lit sensor ends the light or changes nothing, so repeated TURN_ON never prolongs it |
| `Guarantees.TimeOutTurnsOff` | services_ex/src/sensor_illumination_task.cpp:303-312 | from every lit and armed state, serving the timer turns the light off by the deadline |
| `Timers.DarkTasksHaveNoTimer` | services_ex/src/sensor_illumination_task.cpp:336 | in every run a task with a valid screen has no timer pending while it is not lit, in its session or after it |
| `Timers.FullSecond` | services_ex/src/sensor_illumination_task.cpp:302-312 | a light that no callback threatens lasts 1000 ms unless its owner ends it |
| `Timers.CutShortByEarlierCallback` | services_ex/src/sensor_illumination_task.cpp:302-336 | a callback cuts a light short only if its timer had fired before the task last went dark |
| `Timers.FiresOnce` | services_ex/src/sensor_illumination_task.cpp:312 | a timer that has fired never fires again |
| `Timers.CallbacksBalance` | services_ex/src/sensor_illumination_task.cpp:304-311 | over any run, one callback comes of each firing, one time-out of each callback that finds its task, and each of those gives its reference up once |
| `Timers.TimeOutsHaveFired` | services_ex/src/sensor_illumination_task.cpp:304-312 | so from start-up no task times out more often than its timers fired |
| `Timers.CallbackCompletes` | services_ex/src/sensor_illumination_task.cpp:304-311 | a queued callback of a live task can always be carried through, and is then gone |
| `Timers.CallbackExpires` | services_ex/src/sensor_illumination_task.cpp:305-309 | one whose task is gone does nothing |
| `Guarantees.NoOrphanLight` | services_ex/src/sensor_illumination_task.cpp:314-342 | in every run a node is on the display exactly if the session's task has it lit, its attaches and detaches alternate and balance, and turning off a lit task succeeds |
| `Guarantees.TimeOutWhenUnlit` | services_ex/src/sensor_illumination_task.cpp:329-334 | a time-out of an unlit task changes nothing observable |
| `Guarantees.OneLiveTimer` | services_ex/src/sensor_illumination_task.cpp:302-312 | at most the timer armed last is pending |
| `Guarantees.InvalidScreenArms` | services_ex/src/sensor_illumination_task.cpp:302-314 | on an invalid screen TURN_ON fails with its timer pending |
| `Guarantees.InvalidScreenNeverLit` | services_ex/src/sensor_illumination_task.cpp:314 | such a session is never lit |
| `Guarantees.EnableShows` | services_ex/src/sensor_illumination_task.cpp:162-217 | a successful ENABLE shows the commanded circle, and remembers the screen it was given, valid or not |
| `Guarantees.LitFrame` | services_ex/src/sensor_illumination_task.cpp:254-277 | a light redraws unless the latest draw at this very brightness failed, and then shows exactly the older frame; it is fresh if and only if that did not happen or the older frame is right at this brightness |
| `Guarantees.NeverStale` | services_ex/src/sensor_illumination_task.cpp:240-280 | without failed draws on the node every light is fresh |
| `Guarantees.LibraryBalanced` | services/src/sensor_illumination_manager.cpp:118-130 | acquires are releases plus live tasks in every run |
| `Guarantees.SubscribedExactly` | services_ex/src/screen_state_monitor.cpp:153-182 | in every run screen events arrive exactly while a session's task was born subscribed and nothing has died since |
| `SingletonHistory.EnableLearnsScreen` | services_ex/src/screen_state_monitor.cpp:166-173 | ENABLE takes over the power manager's answer exactly if it constructs a task and the subscription is accepted |
| `SingletonHistory.ScreenOffMeansNoLight` | services_ex/src/sensor_illumination_task.cpp:289-292 | when that answer is that the screen is off, the owner's next TURN_ON succeeds and changes nothing |
| `SingletonHistory.ScreenIsLatest` | services_ex/src/screen_state_monitor.cpp:166-197 | in every run the monitor's view is the latest screen event or accepted answer |
| `SingletonHistory.LibraryStaysOpen` | services/src/service_ex_manager.cpp:40-62 | in every run the library is open exactly if it was ever acquired |
| `Guarantees.BornSubscribedExactly` | services_ex/src/screen_state_monitor.cpp:153-174 | a successful ENABLE makes a task that is born subscribed exactly if subscriber and subscription succeeded |
| `Guarantees.SubscribedDuringSessions` | services_ex/src/screen_state_monitor.cpp:153-182 | without late callbacks and subscription failures, exactly during sessions |
| `Guarantees.NoDuplicateSubscription` | services_ex/src/screen_state_monitor.cpp:157-160 | the duplicate-subscription branch is never reached by a new task |
| `Guarantees.OwnerExactlyWithTask` | services/src/sensor_illumination_manager.cpp:104-166 | owner and task are set and cleared together |
| `Guarantees.ForeignCommand` | services/src/sensor_illumination_manager.cpp:87-89 | anyone else's command is refused and changes nothing, nor does their disconnect |
| `Guarantees.ForeignActsChangeNothing` | services/src/sensor_illumination_manager.cpp:81-204 | nor does any sequence of others' commands and disconnects: all the commands are refused, and only the driver's own cursor and list move |
| `Guarantees.OwnerKeepsSession` | services/src/sensor_illumination_manager.cpp:146-166 | owner and task stay through every run until the owner leaves |
| `Composition.SoleCallsExactly` | services/src/sensor_illumination_manager.cpp:33-43 | with the manager registered at start-up, each of the four commands reaches it once and any other ends a batch |
| `Composition.BatchOwnership` | services/src/sa_command_manager.cpp:67-84 | a batch through the start-up registry leaves ownership and light where its longest successful prefix left them, and succeeds exactly if that is all of it |
| `Composition.LoopDrainsExactly` | services/src/fingerprint_auth_driver_hdi.cpp:84-90 | the driver's loop ends the session exactly if its owner is listed, and otherwise changes nothing |
| `Composition.UnregisteredIsNotDrained` | services/src/sa_command_manager.cpp:56 | an unregistered manager is never drained |
| `Composition.ReconnectStrands` | services/src/fingerprint_auth_driver_hdi.cpp:64 | a new generation strands a session of the old one, and a disconnect of the new one does not end it |
| `Composition.StrandedForGood` | services/src/fingerprint_auth_driver_hdi.cpp:64-91 | a stranded session keeps its owner and task through every run without its owner's DISABLE |
| `Composition.LoopDrainsRunExactly` | services/src/fingerprint_auth_driver_hdi.cpp:80-93 | in every run, the driver's loop ends with the sensor idle if and only if no session got out of the loop's reach and was kept: begun by an executor not to be told any more, or with its list replaced |
| `Composition.ListedStraysLate` | services/src/fingerprint_auth_driver_hdi.cpp:83-90 | with commands from listed executors and connects onto an empty list, only an ENABLE by an executor told already does so |
| `Composition.DisconnectDrains` | services/src/fingerprint_auth_driver_hdi.cpp:80-93 | if ENABLE comes from executors still to be told and connects follow disconnects, the loop ends with no session, nothing on display and no executors, whatever else is interleaved |
| `Surprises.StaleFrame` | services_ex/src/sensor_illumination_task.cpp:254-258 | a concrete run lights a stale frame |
| `Surprises.StaleTurnOns` | services_ex/src/sensor_illumination_task.cpp:254-277 | a draw that failed once its brightness was stored is never repeated at that brightness |
| `Surprises.UnarmedReachable` | services_ex/src/sensor_illumination_task.cpp:303-318 | a run from start-up lights without a bound |
| `Surprises.RelitGoesOut` | services_ex/src/sensor_illumination_task.cpp:304-311 | a run in which an unregistered light is turned off by an earlier callback |
| `Surprises.LateEnable` | services/src/fingerprint_auth_driver_hdi.cpp:84-91 | a run in which an executor told already enables the sensor and keeps it after the loop |
| `Surprises.StrandedReachable` | services/src/fingerprint_auth_driver_hdi.cpp:64 | a run in which a session survives a reconnect and the disconnect after it |
| `Surprises.DeafSession` | services_ex/src/sensor_illumination_task.cpp:152-155 | the late death of an old task silences a live session |
| `Surprises.DeafSessionReachable` | services_ex/src/sensor_illumination_task.cpp:304-311 | and a run leads there |
| `Surprises.EnabledTwice` | services_ex/src/sensor_illumination_task.cpp:209-212 | enabling a lit task again would orphan its node; the manager never does |
| `LockOrder.NoWaitingCycle` | services/src/sa_command_manager.cpp:70 | threads that take ranked scoped locks in order never wait in a cycle |
| `LockOrder.SomebodyGoes` | services/src/sa_command_manager.cpp:70 | and some thread can always go on |
| `LockOrder.MutualExclusion` | services/src/sa_command_manager.cpp:70-88 | under any schedule a lock held exclusively has one holder |
| `LockOrder.ActivitiesOrdered` | services/src/fingerprint_auth_driver_hdi.cpp:83 | commands, registration, connect, disconnect loop, timer callback and screen event all take their locks in one order |
| `LockOrder.NoDeadlock` | services_ex/src/screen_state_monitor.cpp:155 | so any number of such threads never deadlocks |

## Left out

- The interpolation is exact rationals truncated toward zero; the original computes in single-precision floats.
- The cast of a negative float to an unsigned integer (services_ex/src/sensor_illumination_task.cpp:75) is undefined in C++; the model takes the evident intent, a signed difference added to the previous alpha.
- Drawing, colour packing, surface and render-context creation and message sending: only their success or failure and the frames shown are modelled.
- Common-event subscription, power and display clients, dlopen and dlsym, IPC and HDI proxies: outcomes only.
- The timer library's internals: timers are one-shot with fresh non-zero ids, a failed registration returns an id nothing is pending under, unregistering removes a pending timer; joining its thread at shutdown and its own lock are not part of this model.
- Vibration, memory guard, logging, result-code conversion tables and the forwarding methods of the executor: one call or one look-up each.
- Null processors inside the registry: registration refuses them, so the model's sets hold addresses only.
- A processor other than the illumination manager is a function on the processors' shared state; the repository has only the one.
- The timer callback's promotion of its weak pointer is a step of `World`; it has no class method of its own.
- `SoleCallsExactly` and `BatchOwnership` treat a batch as running without other threads in between; interleaving is covered command by command in `World`.
