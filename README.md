# easy-tasker's TaskScheduler in Dafny

This project models `TaskScheduler` from easy-tasker, a small in-process task scheduler.
A scheduler runs a task function in one of two ways. In interval mode it runs once after a delay, then on a repeating timer. In cron mode it runs at every occurrence of a cron expression registered with node-schedule.
It also supports pausing and resuming, replacing the arguments, switching to a new interval or cron expression, and stopping.

The project has four modules:

- `Model` (model.dfy) is the scheduler as a state machine over values. A `World` pairs the scheduler's fields (`Sched`) with what the host holds for it (`Host`):
  - the pending one-shot timeouts;
  - the live repeating timers;
  - the live cron registrations;
  - the trace of task calls.

  Every public method and every callback the scheduler installs is one function from `World` to `World`. Each of these functions states in its `ensures` what changes, what does not, and that it keeps the invariant `Inv`. `Event`, `Step` and `Run` describe arbitrary interleavings of the owner's calls with firings that the host delivers to live handles.
- `Properties` (properties.dfy) holds the lemmas over those functions and over whole runs:
  - the invariant holds on every reachable world;
  - args are fresh at every call;
  - a paused task is never called;
  - there is at most one cron registration, and it is the stored one;
  - orphaned timers are never cleared;
  - the places where the code is looser than its method names suggest (see below).
- `Scheduler` (scheduler.dfy) holds the imperative form.
  - `TaskScheduler` is a class with the source's fields, and its methods update them in the source's order. Each method is proved equal to the matching `Model` step on `World()`, and keeps `Valid()`.
  - `Runtime` is a class for the collaborators: setTimeout, setInterval and clearInterval, node-schedule's scheduleJob and cancel, and the record of task calls. It is an assumed model of those collaborators, not code of the scheduler.
- `Logging` (logging.dfy) covers two things:
  - `log`: logging gates the line, and a truthy task id adds a prefix;
  - `options.taskId || null` in the constructor.

Each method's result depends on the host in only two ways:
- Fresh handles come from a counter.
- Whether node-schedule accepts an expression is the function `Runtime.accepts`, which the pure model receives as a boolean.

## Where the code is looser than its method names suggest

The model follows the code. A reader of the method names would expect some behaviour that the code does not have. The model proves what the code actually does:

- **Arming during the delay.** One would expect arming an armed scheduler to do nothing. In the code, `intervalJob` is set only when the initial timeout fires. So a second `intervalSchedule` during the delay overwrites the args and the interval, and installs a second timeout (`SecondArmDuringDelay`).
- **Both modes at once.** One would expect the two modes to exclude each other. In the code, each arm method tests only its own handle, so both can be armed at once (`BothModesArmed`).
- **Leaked timers.** A timeout that fires while a timer is stored overwrites `intervalJob` without clearing that timer. The overwritten timer is orphaned: it keeps firing for ever and nothing can clear it (`OrphansAfterStep`, `OrphansOutliveEveryRun`, `LateTimeoutLeaksTimer`).
- **Stopping.** One would expect `stopScheduling` to end all firings. In the code, it leaves pending timeouts and orphaned timers alone. A timeout that fires after the stop arms the interval again (`StopLeavesOrphansAndTimeouts`, `StopLeavesPendingTimeout`). Cron mode is clean: after a stop no cron job fires until the next `timeAlignedSchedule` (`NoCronAfterStop`).
- **New interval during the delay.** One would expect the new period to apply from then on. In the code, `setNewInterval` is a no-op until the initial timeout fires, and the timer that timeout starts uses the original interval (`NewIntervalDuringDelayIsLost`). Once the timeout has fired, `setNewInterval` replaces the timer even before its first tick.
- **Rejected cron expressions.** The code reports no error for an expression node-schedule rejects; it stores the null that scheduleJob returns. `setNewSchedule` also cancels before it registers, so a rejected expression leaves the task without a registration while it remembers the rejected expression (`RejectedNewScheduleDisarms`).
- **No duration checks.** The code checks no delay or interval, so the model takes any integer.

## Model

| member | source | states |
|---|---|---|
| `Scheduler.TaskScheduler.constructor` | src/TaskScheduler.js:4-14 | A new scheduler has no interval and no cron handle, empty args, is not paused and has no stored interval or expression. The logging flag is the option, and the task id is the option with an empty id stored as null. |
| `Scheduler.TaskScheduler.IntervalSchedule` | src/TaskScheduler.js:26-48 | Its effect on fields and host is the `Model.IntervalSchedule` step, and the invariant is kept. |
| `Scheduler.TaskScheduler.FireTimeout` | src/TaskScheduler.js:34-46 | The initial timeout's callback is the `Model.TimeoutFires` step: it calls the task unless paused, then stores a new repeating timer. |
| `Scheduler.TaskScheduler.FireInterval` | src/TaskScheduler.js:40-45 | A timer tick is `Model.RunTask`: no field and no handle changes, and the task is called with the current args unless paused. The callback installed by `setNewInterval` (lines 89-94) is the same and is modelled here too. |
| `Scheduler.TaskScheduler.FireCron` | src/TaskScheduler.js:58-63 | A cron occurrence is `Model.RunTask`, as a timer tick is. The callback installed by `setNewSchedule` (lines 105-110) is the same and is modelled here too. |
| `Scheduler.TaskScheduler.TimeAlignedSchedule` | src/TaskScheduler.js:50-65 | Its effect is the `Model.TimeAlignedSchedule` step with node-schedule's verdict on the expression. |
| `Scheduler.TaskScheduler.PauseSchedule` | src/TaskScheduler.js:67-70 | Its effect is the `Model.PauseSchedule` step. |
| `Scheduler.TaskScheduler.ResumeSchedule` | src/TaskScheduler.js:72-77 | Its effect is the `Model.ResumeSchedule` step. |
| `Scheduler.TaskScheduler.UpdateArgs` | src/TaskScheduler.js:79-82 | Its effect is the `Model.UpdateArgs` step. |
| `Scheduler.TaskScheduler.SetNewInterval` | src/TaskScheduler.js:84-98 | Its effect is the `Model.SetNewInterval` step: clear, then set a new timer, then store the period. |
| `Scheduler.TaskScheduler.SetNewSchedule` | src/TaskScheduler.js:100-114 | Its effect is the `Model.SetNewSchedule` step: cancel, then register, then store the expression. |
| `Scheduler.TaskScheduler.StopScheduling` | src/TaskScheduler.js:116-127 | Its effect is the `Model.StopScheduling` step. |
| `Model.Initial` | src/TaskScheduler.js:4-14 | Both handles are null, args are empty, the task is not paused, and no interval or expression is stored. Over a host holding nothing of the scheduler, the invariant holds. |
| `Model.RunTask` | src/TaskScheduler.js:35-38 | The shared callback body never changes a field or a handle. It appends exactly one call, carrying the args stored at firing time, when not paused, and none when paused. It is also the body of the other four callbacks (lines 41-44, 59-62, 90-93 and 106-109). |
| `Model.IntervalSchedule` | src/TaskScheduler.js:26-48 | It is a no-op when `intervalJob` is set. Otherwise it stores the args and interval and adds one pending timeout. It never sets `intervalJob`, starts no timer, makes no call, and keeps the invariant. |
| `Model.TimeoutFires` | src/TaskScheduler.js:34-46 | The timeout is removed, the task is called once unless paused, and `intervalJob` becomes a fresh timer with the captured interval. No other field changes, and the invariant is kept. |
| `Model.TimeAlignedSchedule` | src/TaskScheduler.js:50-65 | It is a no-op when `scheduledJob` is set. Otherwise it stores the args and expression. The handle is present exactly when node-schedule accepts, with one new live registration then. The interval side is untouched and the invariant is kept. |
| `Model.PauseSchedule` | src/TaskScheduler.js:67-70 | `isPaused` is true afterwards, and nothing else changes. |
| `Model.ResumeSchedule` | src/TaskScheduler.js:72-77 | `isPaused` is false afterwards, and nothing else changes. It is a no-op when not paused. |
| `Model.UpdateArgs` | src/TaskScheduler.js:79-82 | The args are replaced, and no other field and nothing in the host changes. |
| `Model.SetNewInterval` | src/TaskScheduler.js:84-98 | It is a no-op without an interval handle. Otherwise the old timer is cleared and one fresh timer of the new period is stored, together with the period. Timeouts, cron jobs and other fields are untouched, and the invariant is kept. |
| `Model.SetNewSchedule` | src/TaskScheduler.js:100-114 | It is a no-op without a cron handle. Otherwise the old registration is cancelled, the handle is present exactly when node-schedule accepts, and the expression is stored. Timers and timeouts are untouched, and the invariant is kept. |
| `Model.StopScheduling` | src/TaskScheduler.js:116-127 | Both handles are null afterwards. Exactly the stored timer and the stored cron job are removed from the host. Everything else is unchanged, including pending timeouts. |
| `Logging.StoredTaskId` | src/TaskScheduler.js:13 | The `options.taskId` default keeps a non-empty id and stores an empty one as null. The stored id is truthy exactly when the given one is. |
| `Logging.LogLine` | src/TaskScheduler.js:16-24 | A line is written exactly when logging is enabled. It is the bare message without a truthy task id. With one, it is `[Task: id] ` followed by the message, which differs from the bare message. |
| `Logging.PrefixIdentifiesTask` | src/TaskScheduler.js:18-19 | Equal prefixed lines for the same message imply equal task ids. |
| `Properties.StepPreservesInv` | src/TaskScheduler.js:26-127 | Every method call and every firing keeps the invariant. The invariant says: handles are fresh, a stored interval handle is a live timer, and the live cron registrations are exactly the stored one. |
| `Properties.RunPreservesInv` | src/TaskScheduler.js:26-127 | Every run of events from a world satisfying the invariant keeps it. |
| `Properties.ReachableInv` | src/TaskScheduler.js:4-14 | Every world reachable from a new scheduler satisfies the invariant. |
| `Properties.AtMostOneCron` | src/TaskScheduler.js:51-58 | In a world satisfying the invariant, at most one cron registration is live, and one is live exactly when a cron handle is stored. |
| `Properties.RunExtendsTrace` | src/TaskScheduler.js:35-44 | No run removes or changes a recorded task call. |
| `Properties.CallsUseStoredArgs` | src/TaskScheduler.js:41-44 | While no event stores new args, every call from any timeout, timer or cron job carries the args stored at the start. |
| `Properties.UpdatedArgsReachLaterCalls` | src/TaskScheduler.js:79-82 | After `updateArgs(xs)`, every later call carries `xs` until something stores args again. |
| `Properties.TimeoutUsesArgsAtFiring` | src/TaskScheduler.js:35-38 | The initial timeout calls the task with the args stored when it fires, not those it was armed with. |
| `Properties.PausedRunIsSilent` | src/TaskScheduler.js:41-44 | From a paused world, no run without `resumeSchedule` calls the task, and the flag stays set (re-arming does not clear it). |
| `Properties.PausedTickIsSwallowed` | src/TaskScheduler.js:41-44 | A tick while paused changes nothing, and the timer stays live. |
| `Properties.ResumedTickCalls` | src/TaskScheduler.js:72-77 | After `resumeSchedule`, the next tick calls the task with the stored args. |
| `Properties.PauseIdempotent` | src/TaskScheduler.js:67-70 | Pausing twice is the same as pausing once. |
| `Properties.ResumeIdempotent` | src/TaskScheduler.js:72-77 | Resuming twice is the same as resuming once. |
| `Properties.ResumeUndoesPause` | src/TaskScheduler.js:67-77 | On a running task, resuming after pausing gives back the same world. |
| `Properties.UpdateArgsLastWins` | src/TaskScheduler.js:79-82 | Of two updates, the second wins. |
| `Properties.ArmAddsOneTimeout` | src/TaskScheduler.js:26-34 | Arming an unarmed interval adds exactly one pending timeout under a fresh handle, and no timer. |
| `Properties.NewIntervalSwapsOneTimer` | src/TaskScheduler.js:84-96 | On an armed interval, the old timer is gone and one fresh timer of the new period replaces it, so the number of timers is unchanged. |
| `Properties.NewScheduleSwapsOneJob` | src/TaskScheduler.js:100-112 | When the new expression is accepted, exactly one fresh registration replaces the old one. |
| `Properties.RejectedNewScheduleDisarms` | src/TaskScheduler.js:100-112 | When the new expression is rejected, no registration is left, yet the rejected expression is stored. |
| `Properties.StopIdempotent` | src/TaskScheduler.js:116-127 | Stopping twice is the same as stopping once. |
| `Properties.StopLeavesOrphansAndTimeouts` | src/TaskScheduler.js:116-127 | After a stop, no cron job is live, the live timers are exactly the orphans, and the pending timeouts are unchanged. |
| `Properties.NoCronAfterStop` | src/TaskScheduler.js:122-126 | After a stop, no cron registration exists in any run until `timeAlignedSchedule` is called again. |
| `Properties.OrphansAfterStep` | src/TaskScheduler.js:40 | The only event that orphans a timer is a timeout firing while an interval handle is stored, and it orphans exactly that handle. |
| `Properties.OrphansOutliveEveryRun` | src/TaskScheduler.js:117-119 | An orphaned timer stays live and orphaned through every later run. |
| `Properties.SecondArmDuringDelay` | src/TaskScheduler.js:27-34 | Two `intervalSchedule` calls during the delay install two timeouts. `intervalJob` stays null, and the second call's args and interval win. |
| `Properties.BothModesArmed` | src/TaskScheduler.js:26-65 | Cron arming, then interval arming, then the timeout firing leaves both a cron handle and an interval handle stored and live. |
| `Properties.LateTimeoutLeaksTimer` | src/TaskScheduler.js:34-46 | Two arms followed by both timeouts leave one orphaned timer. That timer is still live after `stopScheduling`. |
| `Properties.StopLeavesPendingTimeout` | src/TaskScheduler.js:116-127 | Arming, stopping, then the timeout firing leaves an interval timer stored with the original interval, and the task called once unless paused. |
| `Properties.NewIntervalDuringDelayIsLost` | src/TaskScheduler.js:84-85 | `setNewInterval` during the delay is a no-op, so the timer then started uses the interval given to `intervalSchedule`. |

## Left out

- Time is not modelled: the delays and periods, the `* 1000` scaling and the timer semantics of setTimeout and setInterval. Firings are events that the host may deliver on any live handle in any order.
- node-schedule's cron parsing and calendar matching. Whether an expression is accepted is the parameter `Runtime.accepts`. An exception thrown by scheduleJob is not modelled, and neither is a job that stops having occurrences.
- The console output of `log` and the `JSON.stringify` of args in the messages. `Logging.LogLine` models the gating and the prefix, applied to the instance's `loggingEnabled` and stored `taskId`, but the methods do not compute the lines they would write.
- Args are assumed JSON-serialisable. The `JSON.stringify(this.args)` inside each message runs even when logging is off, and it throws on a BigInt or a cyclic argument (src/TaskScheduler.js:32, 36, 42, 56, 60, 81, 91, 107). That error path is not modelled, and its consequences follow below.
- Model.IntervalSchedule: with unserialisable args the code stores the args and the interval, then throws at line 32 and installs no timeout; the model always installs one.
- Model.TimeAlignedSchedule: with unserialisable args the code stores the args and the expression, then throws at line 56 before line 58, leaving `scheduledJob` null and registering nothing; the model registers.
- Model.TimeoutFires: with unserialisable args an unpaused timeout throws at line 36, so it neither calls the task nor reaches line 40; the model calls the task and stores a timer.
- Model.RunTask: with unserialisable args an unpaused tick or cron occurrence throws at line 42, 60, 91 or 107 and makes no call; the model records one. `updateArgs` likewise throws at line 81 after storing the args, which the model matches.
- The body of the task function and any exception it throws. Only the fact of a call and its arguments are recorded. If the task throws on its first execution (line 37), the timeout callback never reaches line 40 and no repeating timer is started; the model always starts one.
- Overlapping executions and asynchronous delivery, which belong to the host event loop.
- JavaScript numbers are modelled as integers, so fractional seconds and NaN are not covered.
- `options.logging` is taken as a boolean and `options.taskId` as an optional string. Truthiness of other JavaScript values is not modelled.
- Each scheduler gets its own `Runtime`, so handles of other schedulers sharing the host are not modelled.
- test/TaskScheduler.test.js only checks that a property exists, so there is nothing in it to model.
