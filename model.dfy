/**
 * The easy-tasker scheduler as a state machine over values.
 *
 * A World is the scheduler's own fields (Sched) together with the part of the host
 * runtime it drives (Host): Node's one-shot and repeating timers and node-schedule's
 * cron registrations, each a map from the handle the facility handed out, plus the
 * trace of task invocations.  Every public method of TaskScheduler and every callback
 * it installs is one function from World to World.  Time is not modelled: the host
 * may deliver any live timeout, timer or cron registration at any moment (Event).
 */
module Model {
  import opened Wrappers

  /** An argument passed verbatim to the task function. */
  type Value

  /** A timer or cron handle; the host hands out a fresh one from a counter. */
  type Handle = nat

  /**
   * A pending one-shot timeout installed by intervalSchedule.  `interval` is the period
   * its callback closes over; `argsAtArming` is recorded only so that properties can say
   * that the callback does not use it.
   */
  datatype Timeout = Timeout(interval: int, argsAtArming: seq<Value>)

  /** The mutable fields of a TaskScheduler instance (`null` is None). */
  datatype Sched = Sched(
    intervalJob: Option<Handle>,
    scheduledJob: Option<Handle>,
    args: seq<Value>,
    isPaused: bool,
    currentInterval: Option<int>,
    currentCronSchedule: Option<string>)

  /** What the timer and cron facilities hold for the scheduler, and what the task was called with. */
  datatype Host = Host(
    next: Handle,
    timeouts: map<Handle, Timeout>,
    timers: map<Handle, int>,
    crons: map<Handle, string>,
    calls: seq<seq<Value>>)

  datatype World = World(sched: Sched, host: Host)

  function JobSet(j: Option<Handle>): set<Handle>
  {
    if j.Some? then {j.value} else {}
  }

  /** Every handle the host knows was handed out before `next`, so `next` is fresh. */
  ghost predicate HandlesFresh(h: Host)
  {
    && (forall k :: k in h.timeouts ==> k < h.next)
    && (forall k :: k in h.timers ==> k < h.next)
    && (forall k :: k in h.crons ==> k < h.next)
  }

  /**
   * What holds of every reachable world: handles are fresh, a stored interval handle is a
   * live timer, and the live cron registrations are exactly the stored one (if any).
   */
  ghost predicate Inv(w: World)
  {
    && HandlesFresh(w.host)
    && (w.sched.intervalJob.Some? ==> w.sched.intervalJob.value in w.host.timers)
    && w.host.crons.Keys == JobSet(w.sched.scheduledJob)
  }

  /** Live repeating timers that no field refers to: no method can clear them any more. */
  ghost function Orphans(w: World): set<Handle>
  {
    w.host.timers.Keys - JobSet(w.sched.intervalJob)
  }

  /** `calls` is the trace of `w` plus one call with the args stored in `w`, exactly when `w` is not paused. */
  ghost predicate InvokedOnce(w: World, calls: seq<seq<Value>>)
  {
    calls == w.host.calls + (if w.sched.isPaused then [] else [w.sched.args])
  }

  /** The host before the scheduler has installed anything. */
  function EmptyHost(): Host
  {
    Host(0, map[], map[], map[], [])
  }

  /** The fields the constructor sets up, over the given host. */
  function Initial(host: Host): (r: World)
    ensures r.host == host
    ensures r.sched.intervalJob.None? && r.sched.scheduledJob.None?
    ensures r.sched.args == [] && !r.sched.isPaused
    ensures r.sched.currentInterval.None? && r.sched.currentCronSchedule.None?
    ensures HandlesFresh(host) && host.crons == map[] ==> Inv(r)
  {
    World(Sched(None, None, [], false, None, None), host)
  }

  /**
   * The body of every closure the scheduler installs: call the task with the args stored
   * at firing time, unless paused.  It never touches a handle.
   */
  function RunTask(w: World): (r: World)
    ensures r.sched == w.sched
    ensures r.host.(calls := w.host.calls) == w.host
    ensures |r.host.calls| == |w.host.calls| + (if w.sched.isPaused then 0 else 1)
    ensures r.host.calls[..|w.host.calls|] == w.host.calls
    ensures !w.sched.isPaused ==> r.host.calls[|w.host.calls|] == w.sched.args
    ensures Inv(w) ==> Inv(r)
  {
    if w.sched.isPaused then w
    else w.(host := w.host.(calls := w.host.calls + [w.sched.args]))
  }

  /**
   * intervalSchedule: unless an interval handle is stored, store the args and interval and
   * install one timeout.  The interval handle itself is only set when that timeout fires.
   */
  function IntervalSchedule(w: World, interval: int, xs: seq<Value>): (r: World)
    ensures w.sched.intervalJob.Some? ==> r == w
    ensures r.sched.intervalJob == w.sched.intervalJob
    ensures r.sched.(args := w.sched.args, currentInterval := w.sched.currentInterval) == w.sched
    ensures r.host.timers == w.host.timers && r.host.crons == w.host.crons
    ensures r.host.calls == w.host.calls
    ensures w.sched.intervalJob.None? ==>
      && r.sched.args == xs
      && r.sched.currentInterval == Some(interval)
      && r.host.next == w.host.next + 1
      && r.host.timeouts == w.host.timeouts[w.host.next := Timeout(interval, xs)]
    ensures Inv(w) ==> Inv(r)
  {
    if w.sched.intervalJob.Some? then w
    else
      World(w.sched.(args := xs, currentInterval := Some(interval)),
            w.host.(next := w.host.next + 1,
                    timeouts := w.host.timeouts[w.host.next := Timeout(interval, xs)]))
  }

  /**
   * The timeout installed by intervalSchedule fires: it is gone from the host, the task runs
   * once unless paused, and a new repeating timer with the captured interval is stored in
   * intervalJob, overwriting whatever handle was there.
   */
  function TimeoutFires(w: World, h: Handle): (r: World)
    requires h in w.host.timeouts
    ensures r.host.timeouts == w.host.timeouts - {h}
    ensures InvokedOnce(w, r.host.calls)
    ensures r.sched.intervalJob == Some(w.host.next)
    ensures r.host.timers == w.host.timers[w.host.next := w.host.timeouts[h].interval]
    ensures r.host.next == w.host.next + 1
    ensures r.sched.(intervalJob := w.sched.intervalJob) == w.sched
    ensures r.host.crons == w.host.crons
    ensures Inv(w) ==> Inv(r)
  {
    var t := w.host.timeouts[h];
    var w1 := RunTask(w.(host := w.host.(timeouts := w.host.timeouts - {h})));
    var j := w1.host.next;
    World(w1.sched.(intervalJob := Some(j)),
          w1.host.(next := j + 1, timers := w1.host.timers[j := t.interval]))
  }

  /** node-schedule's scheduleJob: a fresh live registration, or null when it rejects the expression. */
  function Register(h: Host, expr: string, accepted: bool): (r: (Host, Option<Handle>))
    ensures r.1.Some? <==> accepted
    ensures r.0.(crons := h.crons, next := h.next) == h
    ensures accepted ==> r.1 == Some(h.next) && r.0.next == h.next + 1 && r.0.crons == h.crons[h.next := expr]
    ensures !accepted ==> r.0 == h
  {
    if accepted then (h.(next := h.next + 1, crons := h.crons[h.next := expr]), Some(h.next))
    else (h, None)
  }

  /**
   * timeAlignedSchedule: unless a cron handle is stored, store the args and expression and
   * store whatever scheduleJob returns, a handle or null.
   */
  function TimeAlignedSchedule(w: World, cron: string, xs: seq<Value>, accepted: bool): (r: World)
    ensures w.sched.scheduledJob.Some? ==> r == w
    ensures r.sched.intervalJob == w.sched.intervalJob && r.sched.isPaused == w.sched.isPaused
    ensures r.sched.currentInterval == w.sched.currentInterval
    ensures r.host.timeouts == w.host.timeouts && r.host.timers == w.host.timers
    ensures r.host.calls == w.host.calls
    ensures w.sched.scheduledJob.None? ==>
      && r.sched.args == xs
      && r.sched.currentCronSchedule == Some(cron)
      && (r.sched.scheduledJob.Some? <==> accepted)
      && r.host.crons == (if accepted then w.host.crons[w.host.next := cron] else w.host.crons)
    ensures Inv(w) ==> Inv(r)
  {
    if w.sched.scheduledJob.Some? then w
    else
      var (host, job) := Register(w.host, cron, accepted);
      World(w.sched.(args := xs, currentCronSchedule := Some(cron), scheduledJob := job), host)
  }

  /** pauseSchedule: set the pause flag unconditionally. */
  function PauseSchedule(w: World): (r: World)
    ensures r.sched.isPaused
    ensures r.sched.(isPaused := w.sched.isPaused) == w.sched && r.host == w.host
    ensures Inv(w) ==> Inv(r)
  {
    w.(sched := w.sched.(isPaused := true))
  }

  /** resumeSchedule: clear the pause flag if it is set. */
  function ResumeSchedule(w: World): (r: World)
    ensures !r.sched.isPaused
    ensures r.sched.(isPaused := w.sched.isPaused) == w.sched && r.host == w.host
    ensures !w.sched.isPaused ==> r == w
    ensures Inv(w) ==> Inv(r)
  {
    if w.sched.isPaused then w.(sched := w.sched.(isPaused := false)) else w
  }

  /** updateArgs: replace the stored args; every later firing reads the new ones. */
  function UpdateArgs(w: World, xs: seq<Value>): (r: World)
    ensures r.sched.args == xs
    ensures r.sched.(args := w.sched.args) == w.sched && r.host == w.host
    ensures Inv(w) ==> Inv(r)
  {
    w.(sched := w.sched.(args := xs))
  }

  /**
   * setNewInterval: only when an interval handle is stored, clear that timer, store a fresh
   * one with the new period and remember the period.  A pending timeout is left alone.
   */
  function SetNewInterval(w: World, n: int): (r: World)
    ensures w.sched.intervalJob.None? ==> r == w
    ensures r.sched.intervalJob.Some? <==> w.sched.intervalJob.Some?
    ensures r.sched.(intervalJob := w.sched.intervalJob, currentInterval := w.sched.currentInterval) == w.sched
    ensures r.host.timeouts == w.host.timeouts && r.host.crons == w.host.crons
    ensures r.host.calls == w.host.calls
    ensures w.sched.intervalJob.Some? ==>
      && r.sched.intervalJob == Some(w.host.next)
      && r.sched.currentInterval == Some(n)
      && r.host.next == w.host.next + 1
      && r.host.timers == (w.host.timers - {w.sched.intervalJob.value})[w.host.next := n]
    ensures Inv(w) ==> Inv(r)
  {
    if w.sched.intervalJob.None? then w
    else
      var j := w.host.next;
      World(w.sched.(intervalJob := Some(j), currentInterval := Some(n)),
            w.host.(next := j + 1, timers := (w.host.timers - {w.sched.intervalJob.value})[j := n]))
  }

  /**
   * setNewSchedule: only when a cron handle is stored, cancel it first, then store whatever
   * scheduleJob returns for the new expression (possibly null) and remember the expression.
   */
  function SetNewSchedule(w: World, e: string, accepted: bool): (r: World)
    ensures w.sched.scheduledJob.None? ==> r == w
    ensures r.sched.(scheduledJob := w.sched.scheduledJob, currentCronSchedule := w.sched.currentCronSchedule) == w.sched
    ensures r.host.timeouts == w.host.timeouts && r.host.timers == w.host.timers
    ensures r.host.calls == w.host.calls
    ensures w.sched.scheduledJob.Some? ==>
      && r.sched.currentCronSchedule == Some(e)
      && (r.sched.scheduledJob.Some? <==> accepted)
      && r.host.crons == (var cancelled := w.host.crons - {w.sched.scheduledJob.value};
                          if accepted then cancelled[w.host.next := e] else cancelled)
    ensures Inv(w) ==> Inv(r)
  {
    if w.sched.scheduledJob.None? then w
    else
      var cancelled := w.host.(crons := w.host.crons - {w.sched.scheduledJob.value});
      var (host, job) := Register(cancelled, e, accepted);
      World(w.sched.(scheduledJob := job, currentCronSchedule := Some(e)), host)
  }

  /** stopScheduling: clear the stored timer and cancel the stored cron job, if any, and forget both. */
  function StopScheduling(w: World): (r: World)
    ensures r.sched.intervalJob.None? && r.sched.scheduledJob.None?
    ensures r.sched.(intervalJob := w.sched.intervalJob, scheduledJob := w.sched.scheduledJob) == w.sched
    ensures r.host.timers == w.host.timers - JobSet(w.sched.intervalJob)
    ensures r.host.crons == w.host.crons - JobSet(w.sched.scheduledJob)
    ensures r.host.(timers := w.host.timers, crons := w.host.crons) == w.host
    ensures Inv(w) ==> Inv(r)
  {
    var w1 := if w.sched.intervalJob.None? then w
              else World(w.sched.(intervalJob := None),
                         w.host.(timers := w.host.timers - {w.sched.intervalJob.value}));
    if w1.sched.scheduledJob.None? then w1
    else World(w1.sched.(scheduledJob := None),
               w1.host.(crons := w1.host.crons - {w1.sched.scheduledJob.value}))
  }

  /**
   * One thing that can happen to a scheduler: a call of one of its methods by the owner
   * (the cron verdict of node-schedule carried along), or a firing delivered by the host.
   */
  datatype Event =
    | ArmInterval(interval: int, xs: seq<Value>)
    | ArmCron(cron: string, xs: seq<Value>, accepted: bool)
    | Pause
    | Resume
    | Update(xs: seq<Value>)
    | ChangeInterval(interval: int)
    | ChangeSchedule(cron: string, accepted: bool)
    | Stop
    | TimeoutDue(h: Handle)
    | IntervalTick(h: Handle)
    | CronTick(h: Handle)

  /** The effect of one event; the host delivers nothing for a handle it does not hold. */
  function Step(w: World, e: Event): World
  {
    match e
    case ArmInterval(n, xs) => IntervalSchedule(w, n, xs)
    case ArmCron(c, xs, ok) => TimeAlignedSchedule(w, c, xs, ok)
    case Pause => PauseSchedule(w)
    case Resume => ResumeSchedule(w)
    case Update(xs) => UpdateArgs(w, xs)
    case ChangeInterval(n) => SetNewInterval(w, n)
    case ChangeSchedule(c, ok) => SetNewSchedule(w, c, ok)
    case Stop => StopScheduling(w)
    case TimeoutDue(h) => if h in w.host.timeouts then TimeoutFires(w, h) else w
    case IntervalTick(h) => if h in w.host.timers then RunTask(w) else w
    case CronTick(h) => if h in w.host.crons then RunTask(w) else w
  }

  /** The effect of a sequence of events, in order. */
  function Run(w: World, evs: seq<Event>): World
    decreases |evs|
  {
    if evs == [] then w else Run(Step(w, evs[0]), evs[1..])
  }
}
