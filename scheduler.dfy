/**
 * TaskScheduler as a class over the host runtime it drives.  Each method does what the
 * JavaScript method does to the scheduler's fields and to the host, in the same order,
 * and is proved to be the matching step of module Model; so everything module
 * Properties proves about the steps holds of these objects.
 */
module Scheduler {
  import opened Wrappers
  import M = Model
  import Logging

  /**
   * The collaborators: Node's setTimeout, setInterval and clearInterval, node-schedule's
   * scheduleJob and Job.cancel, and a record of the calls of the task function.  Handles
   * are fresh numbers; `accepts` stands for node-schedule's verdict on an expression
   * (scheduleJob returns null for one it rejects).  Only this scheduler's callbacks are
   * held here.
   */
  class Runtime {
    var next: M.Handle
    var timeouts: map<M.Handle, M.Timeout>
    var timers: map<M.Handle, int>
    var crons: map<M.Handle, string>
    var calls: seq<seq<M.Value>>
    const accepts: string -> bool

    function Model(): M.Host
      reads this
    {
      M.Host(next, timeouts, timers, crons, calls)
    }

    constructor (accepts: string -> bool)
      ensures Model() == M.EmptyHost()
      ensures this.accepts == accepts
    {
      next, timeouts, timers, crons, calls := 0, map[], map[], map[], [];
      this.accepts := accepts;
    }

    /** setTimeout: a pending one-shot under a fresh handle. */
    method SetTimeout(t: M.Timeout) returns (h: M.Handle)
      modifies this
      ensures h == old(next)
      ensures Model() == old(Model()).(next := h + 1, timeouts := old(timeouts)[h := t])
    {
      h := next;
      timeouts := timeouts[h := t];
      next := next + 1;
    }

    /** The host takes a due timeout off its list before running its callback. */
    method TakeTimeout(h: M.Handle) returns (t: M.Timeout)
      requires h in timeouts
      modifies this
      ensures t == old(timeouts)[h]
      ensures Model() == old(Model()).(timeouts := old(timeouts) - {h})
    {
      t := timeouts[h];
      timeouts := timeouts - {h};
    }

    /** setInterval: a live repeating timer under a fresh handle. */
    method SetInterval(period: int) returns (h: M.Handle)
      modifies this
      ensures h == old(next)
      ensures Model() == old(Model()).(next := h + 1, timers := old(timers)[h := period])
    {
      h := next;
      timers := timers[h := period];
      next := next + 1;
    }

    /** clearInterval: the timer never fires again. */
    method ClearInterval(h: M.Handle)
      modifies this
      ensures Model() == old(Model()).(timers := old(timers) - {h})
    {
      timers := timers - {h};
    }

    /** scheduleJob: a live registration under a fresh handle, or null. */
    method ScheduleJob(expr: string) returns (job: Option<M.Handle>)
      modifies this
      ensures (Model(), job) == M.Register(old(Model()), expr, accepts(expr))
    {
      if accepts(expr) {
        job := Some(next);
        crons := crons[next := expr];
        next := next + 1;
      } else {
        job := None;
      }
    }

    /** Job.cancel: the registration never fires again. */
    method Cancel(h: M.Handle)
      modifies this
      ensures Model() == old(Model()).(crons := old(crons) - {h})
    {
      crons := crons - {h};
    }

    /** taskFunction(...xs): only the fact of the call and its arguments are recorded. */
    method Call(xs: seq<M.Value>)
      modifies this
      ensures Model() == old(Model()).(calls := old(calls) + [xs])
    {
      calls := calls + [xs];
    }
  }

  class TaskScheduler {
    const runtime: Runtime
    const loggingEnabled: bool
    const taskId: Option<string>
    var scheduledJob: Option<M.Handle>
    var intervalJob: Option<M.Handle>
    var args: seq<M.Value>
    var currentInterval: Option<int>
    var currentCronSchedule: Option<string>
    var isPaused: bool

    /** The scheduler and its host as one value of the state machine. */
    function World(): M.World
      reads this, runtime
    {
      M.World(M.Sched(intervalJob, scheduledJob, args, isPaused, currentInterval, currentCronSchedule),
              runtime.Model())
    }

    ghost predicate Valid()
      reads this, runtime
    {
      M.Inv(World())
    }

    /**
     * new TaskScheduler(taskFunction, { logging, taskId }): nothing is scheduled, no args,
     * not paused.  `accepts` is node-schedule's verdict on cron expressions.
     */
    constructor (accepts: string -> bool, logging: bool, taskId: Option<string>)
      ensures Valid() && fresh(runtime)
      ensures World() == M.Initial(M.EmptyHost())
      ensures runtime.accepts == accepts
      ensures loggingEnabled == logging
      ensures this.taskId == Logging.StoredTaskId(taskId)
    {
      runtime := new Runtime(accepts);
      scheduledJob := None;
      intervalJob := None;
      args := [];
      currentInterval := None;
      currentCronSchedule := None;
      isPaused := false;
      loggingEnabled := logging;
      this.taskId := Logging.StoredTaskId(taskId);
    }

    /** intervalSchedule(delaySeconds, intervalSeconds, ...xs); the handle of the timeout is not kept. */
    method IntervalSchedule(delaySeconds: int, intervalSeconds: int, xs: seq<M.Value>)
      requires Valid()
      modifies this, runtime
      ensures Valid()
      ensures World() == M.IntervalSchedule(old(World()), intervalSeconds, xs)
    {
      if intervalJob.None? {
        args := xs;
        currentInterval := Some(intervalSeconds);
        var pending := runtime.SetTimeout(M.Timeout(intervalSeconds, xs));
      }
    }

    /** The host delivers the timeout installed by intervalSchedule. */
    method FireTimeout(h: M.Handle)
      requires Valid() && h in runtime.timeouts
      modifies this, runtime
      ensures Valid()
      ensures World() == M.TimeoutFires(old(World()), h)
    {
      var t := runtime.TakeTimeout(h);
      if !isPaused {
        runtime.Call(args);
      }
      var job := runtime.SetInterval(t.interval);
      intervalJob := Some(job);
    }

    /** The host delivers a tick of a live repeating timer. */
    method FireInterval(h: M.Handle)
      requires Valid() && h in runtime.timers
      modifies runtime
      ensures Valid()
      ensures World() == M.RunTask(old(World()))
    {
      if !isPaused {
        runtime.Call(args);
      }
    }

    /** node-schedule delivers an occurrence of a live cron registration. */
    method FireCron(h: M.Handle)
      requires Valid() && h in runtime.crons
      modifies runtime
      ensures Valid()
      ensures World() == M.RunTask(old(World()))
    {
      if !isPaused {
        runtime.Call(args);
      }
    }

    /** timeAlignedSchedule(cronSchedule, ...xs). */
    method TimeAlignedSchedule(cronSchedule: string, xs: seq<M.Value>)
      requires Valid()
      modifies this, runtime
      ensures Valid()
      ensures World() == M.TimeAlignedSchedule(old(World()), cronSchedule, xs, runtime.accepts(cronSchedule))
    {
      if scheduledJob.None? {
        args := xs;
        currentCronSchedule := Some(cronSchedule);
        scheduledJob := runtime.ScheduleJob(cronSchedule);
      }
    }

    method PauseSchedule()
      requires Valid()
      modifies this
      ensures Valid()
      ensures World() == M.PauseSchedule(old(World()))
    {
      isPaused := true;
    }

    method ResumeSchedule()
      requires Valid()
      modifies this
      ensures Valid()
      ensures World() == M.ResumeSchedule(old(World()))
    {
      if isPaused {
        isPaused := false;
      }
    }

    /** updateArgs(...xs). */
    method UpdateArgs(xs: seq<M.Value>)
      requires Valid()
      modifies this
      ensures Valid()
      ensures World() == M.UpdateArgs(old(World()), xs)
    {
      args := xs;
    }

    method SetNewInterval(newIntervalSeconds: int)
      requires Valid()
      modifies this, runtime
      ensures Valid()
      ensures World() == M.SetNewInterval(old(World()), newIntervalSeconds)
    {
      if intervalJob.Some? {
        runtime.ClearInterval(intervalJob.value);
        var job := runtime.SetInterval(newIntervalSeconds);
        intervalJob := Some(job);
        currentInterval := Some(newIntervalSeconds);
      }
    }

    method SetNewSchedule(newCronSchedule: string)
      requires Valid()
      modifies this, runtime
      ensures Valid()
      ensures World() == M.SetNewSchedule(old(World()), newCronSchedule, runtime.accepts(newCronSchedule))
    {
      if scheduledJob.Some? {
        runtime.Cancel(scheduledJob.value);
        scheduledJob := runtime.ScheduleJob(newCronSchedule);
        currentCronSchedule := Some(newCronSchedule);
      }
    }

    method StopScheduling()
      requires Valid()
      modifies this, runtime
      ensures Valid()
      ensures World() == M.StopScheduling(old(World()))
    {
      if intervalJob.Some? {
        runtime.ClearInterval(intervalJob.value);
        intervalJob := None;
      }
      if scheduledJob.Some? {
        runtime.Cancel(scheduledJob.value);
        scheduledJob := None;
      }
    }
  }
}
