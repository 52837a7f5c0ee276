/**
 * What the scheduler guarantees, and what it does not, stated over the state machine of
 * module Model: the invariant every run keeps, the freshness of the args each call uses,
 * the silence of a paused task, the timers that escape every later clear, and the places
 * where the code is looser than a reader of its method names would expect.
 */
module Properties {
  import opened Wrappers
  import opened Model

  // ---------------------------------------------------------------- invariant

  /** Every event keeps the invariant. */
  lemma StepPreservesInv(w: World, e: Event)
    requires Inv(w)
    ensures Inv(Step(w, e))
  {
  }

  /** Every run from a world satisfying the invariant keeps it. */
  lemma {:induction false} RunPreservesInv(w: World, evs: seq<Event>)
    requires Inv(w)
    ensures Inv(Run(w, evs))
    decreases |evs|
  {
    if evs != [] {
      StepPreservesInv(w, evs[0]);
      RunPreservesInv(Step(w, evs[0]), evs[1..]);
    }
  }

  /** Every world reachable from a freshly constructed scheduler satisfies the invariant. */
  lemma ReachableInv(evs: seq<Event>)
    ensures Inv(Run(Initial(EmptyHost()), evs))
  {
    RunPreservesInv(Initial(EmptyHost()), evs);
  }

  /** The live cron registrations are at most one, and one exactly when a cron handle is stored. */
  lemma AtMostOneCron(w: World)
    requires Inv(w)
    ensures |w.host.crons| <= 1
    ensures w.host.crons != map[] <==> w.sched.scheduledJob.Some?
  {
    assert |w.host.crons| == |w.host.crons.Keys|;
    if w.host.crons != map[] {
      var k :| k in w.host.crons;
    }
  }

  // ---------------------------------------------------------------- the trace of calls

  /** A run only ever appends to the trace of task calls. */
  lemma {:induction false} RunExtendsTrace(w: World, evs: seq<Event>)
    ensures |w.host.calls| <= |Run(w, evs).host.calls|
    ensures Run(w, evs).host.calls[..|w.host.calls|] == w.host.calls
    decreases |evs|
  {
    if evs != [] {
      var w1 := Step(w, evs[0]);
      assert |w.host.calls| <= |w1.host.calls| && w1.host.calls[..|w.host.calls|] == w.host.calls;
      RunExtendsTrace(w1, evs[1..]);
    }
  }

  /** The events that store new args. */
  predicate SetsArgs(e: Event)
  {
    e.ArmInterval? || e.ArmCron? || e.Update?
  }

  /**
   * Args freshness: as long as nothing stores new args, every call the task receives, from
   * whichever timer, timeout or cron job, carries the args stored when the run began.
   */
  lemma {:induction false} CallsUseStoredArgs(w: World, evs: seq<Event>)
    requires forall i :: 0 <= i < |evs| ==> !SetsArgs(evs[i])
    ensures Run(w, evs).sched.args == w.sched.args
    ensures |w.host.calls| <= |Run(w, evs).host.calls|
    ensures Run(w, evs).host.calls[..|w.host.calls|] == w.host.calls
    ensures forall k :: |w.host.calls| <= k < |Run(w, evs).host.calls| ==> Run(w, evs).host.calls[k] == w.sched.args
    decreases |evs|
  {
    if evs != [] {
      var w1 := Step(w, evs[0]);
      var r := Run(w, evs);
      assert r == Run(w1, evs[1..]);
      assert w1.sched.args == w.sched.args;
      assert |w.host.calls| <= |w1.host.calls| <= |w.host.calls| + 1;
      assert w1.host.calls[..|w.host.calls|] == w.host.calls;
      assert |w1.host.calls| == |w.host.calls| + 1 ==> w1.host.calls[|w.host.calls|] == w.sched.args;
      CallsUseStoredArgs(w1, evs[1..]);
      assert r.host.calls[..|w1.host.calls|] == w1.host.calls;
      forall k | |w.host.calls| <= k < |r.host.calls|
        ensures r.host.calls[k] == w.sched.args
      {
        if k < |w1.host.calls| {
          assert r.host.calls[k] == w1.host.calls[k];
        }
      }
      calc {
        r.host.calls[..|w.host.calls|];
        r.host.calls[..|w1.host.calls|][..|w.host.calls|];
        w1.host.calls[..|w.host.calls|];
      }
    }
  }

  /** After updateArgs(xs), every later call carries xs until something stores args again. */
  lemma UpdatedArgsReachLaterCalls(w: World, xs: seq<Value>, evs: seq<Event>)
    requires forall i :: 0 <= i < |evs| ==> !SetsArgs(evs[i])
    ensures var r := Run(w, [Update(xs)] + evs);
      forall k :: |w.host.calls| <= k < |r.host.calls| ==> r.host.calls[k] == xs
  {
    assert ([Update(xs)] + evs)[1..] == evs;
    CallsUseStoredArgs(UpdateArgs(w, xs), evs);
  }

  /** A timeout calls the task with the args stored when it fires, not those it was armed with. */
  lemma TimeoutUsesArgsAtFiring(w: World, h: Handle, xs: seq<Value>)
    requires h in w.host.timeouts && !w.sched.isPaused
    ensures TimeoutFires(UpdateArgs(w, xs), h).host.calls == w.host.calls + [xs]
  {
  }

  /**
   * A paused task is never called, whatever the host delivers and whatever the owner does,
   * until resumeSchedule runs; re-arming does not clear the pause flag.
   */
  lemma {:induction false} PausedRunIsSilent(w: World, evs: seq<Event>)
    requires w.sched.isPaused
    requires forall i :: 0 <= i < |evs| ==> !evs[i].Resume?
    ensures Run(w, evs).host.calls == w.host.calls
    ensures Run(w, evs).sched.isPaused
    decreases |evs|
  {
    if evs != [] {
      var w1 := Step(w, evs[0]);
      assert w1.host.calls == w.host.calls && w1.sched.isPaused;
      PausedRunIsSilent(w1, evs[1..]);
    }
  }

  /** A tick while paused is swallowed: it changes nothing, and the timer stays live. */
  lemma PausedTickIsSwallowed(w: World, h: Handle)
    requires w.sched.isPaused && h in w.host.timers
    ensures Step(w, IntervalTick(h)) == w
  {
  }

  /** After resumeSchedule, the next tick of a live timer calls the task with the stored args. */
  lemma ResumedTickCalls(w: World, h: Handle)
    requires h in w.host.timers
    ensures Step(ResumeSchedule(w), IntervalTick(h)).host.calls == w.host.calls + [w.sched.args]
  {
  }

  // ---------------------------------------------------------------- pause, resume, updateArgs

  lemma PauseIdempotent(w: World)
    ensures PauseSchedule(PauseSchedule(w)) == PauseSchedule(w)
  {
  }

  lemma ResumeIdempotent(w: World)
    ensures ResumeSchedule(ResumeSchedule(w)) == ResumeSchedule(w)
  {
  }

  /** resumeSchedule undoes pauseSchedule on a task that was running. */
  lemma ResumeUndoesPause(w: World)
    requires !w.sched.isPaused
    ensures ResumeSchedule(PauseSchedule(w)) == w
  {
  }

  /** The last updateArgs wins. */
  lemma UpdateArgsLastWins(w: World, xs: seq<Value>, ys: seq<Value>)
    ensures UpdateArgs(UpdateArgs(w, xs), ys) == UpdateArgs(w, ys)
  {
  }

  // ---------------------------------------------------------------- arming and replacing handles

  /** Arming an unarmed interval adds exactly one pending timeout and no timer. */
  lemma ArmAddsOneTimeout(w: World, n: int, xs: seq<Value>)
    requires Inv(w) && w.sched.intervalJob.None?
    ensures w.host.next !in w.host.timeouts
    ensures |IntervalSchedule(w, n, xs).host.timeouts| == |w.host.timeouts| + 1
    ensures IntervalSchedule(w, n, xs).host.timers == w.host.timers
  {
  }

  /** setNewInterval on an armed interval swaps one live timer for one fresh one of period n. */
  lemma NewIntervalSwapsOneTimer(w: World, n: int)
    requires Inv(w) && w.sched.intervalJob.Some?
    ensures var r := SetNewInterval(w, n);
      && w.sched.intervalJob.value !in r.host.timers
      && r.sched.intervalJob.value !in w.host.timers
      && r.host.timers[r.sched.intervalJob.value] == n
      && |r.host.timers| == |w.host.timers|
  {
    var j := w.sched.intervalJob.value;
    assert |w.host.timers - {j}| == |w.host.timers| - 1;
  }

  /** setNewSchedule on an armed cron job swaps its one registration for one fresh one. */
  lemma NewScheduleSwapsOneJob(w: World, e: string)
    requires Inv(w) && w.sched.scheduledJob.Some?
    ensures var r := SetNewSchedule(w, e, true);
      && r.host.crons == map[w.host.next := e]
      && r.sched.scheduledJob == Some(w.host.next)
      && w.sched.scheduledJob.value !in r.host.crons
  {
    var j := w.sched.scheduledJob.value;
    assert (w.host.crons - {j}).Keys == {};
    assert w.host.crons - {j} == map[];
  }

  /**
   * setNewSchedule cancels before it registers: when node-schedule rejects the new
   * expression the task is left with no cron registration at all, yet remembers the
   * rejected expression.
   */
  lemma RejectedNewScheduleDisarms(w: World, e: string)
    requires Inv(w) && w.sched.scheduledJob.Some?
    ensures var r := SetNewSchedule(w, e, false);
      && r.host.crons == map[]
      && r.sched.scheduledJob.None?
      && r.sched.currentCronSchedule == Some(e)
  {
    var j := w.sched.scheduledJob.value;
    assert (w.host.crons - {j}).Keys == {};
  }

  // ---------------------------------------------------------------- stopping

  lemma StopIdempotent(w: World)
    ensures StopScheduling(StopScheduling(w)) == StopScheduling(w)
  {
  }

  /**
   * stopScheduling cancels the cron job and the stored timer, but the orphan timers keep
   * running and the pending timeouts stay pending.
   */
  lemma StopLeavesOrphansAndTimeouts(w: World)
    requires Inv(w)
    ensures StopScheduling(w).host.crons == map[]
    ensures StopScheduling(w).host.timers.Keys == Orphans(w)
    ensures StopScheduling(w).host.timeouts == w.host.timeouts
  {
    assert (w.host.crons - JobSet(w.sched.scheduledJob)).Keys == {};
  }

  /** After stopScheduling, no cron job fires until timeAlignedSchedule is called again. */
  lemma {:induction false} NoCronAfterStop(w: World, evs: seq<Event>)
    requires Inv(w) && w.host.crons == map[] && w.sched.scheduledJob.None?
    requires forall i :: 0 <= i < |evs| ==> !evs[i].ArmCron?
    ensures Run(w, evs).host.crons == map[]
    ensures Run(w, evs).sched.scheduledJob.None?
    decreases |evs|
  {
    if evs != [] {
      var w1 := Step(w, evs[0]);
      assert w1.host.crons == map[] && w1.sched.scheduledJob.None?;
      NoCronAfterStop(w1, evs[1..]);
    }
  }

  // ---------------------------------------------------------------- orphan timers

  /** The only event that orphans a timer is a timeout firing while an interval handle is stored. */
  lemma OrphansAfterStep(w: World, e: Event)
    requires Inv(w)
    ensures Orphans(Step(w, e)) ==
      Orphans(w) + (if e.TimeoutDue? && e.h in w.host.timeouts then JobSet(w.sched.intervalJob) else {})
  {
    match e
    case TimeoutDue(h) =>
      if h in w.host.timeouts {
        assert w.host.next !in w.host.timers;
      }
    case ChangeInterval(n) =>
      if w.sched.intervalJob.Some? {
        assert w.host.next !in w.host.timers;
      }
    case _ =>
  }

  /** An orphan timer is never cleared: it stays live, and orphaned, through every later run. */
  lemma {:induction false} OrphansOutliveEveryRun(w: World, evs: seq<Event>)
    requires Inv(w)
    ensures Orphans(w) <= Orphans(Run(w, evs))
    ensures Orphans(w) <= Run(w, evs).host.timers.Keys
    decreases |evs|
  {
    if evs != [] {
      OrphansAfterStep(w, evs[0]);
      StepPreservesInv(w, evs[0]);
      OrphansOutliveEveryRun(Step(w, evs[0]), evs[1..]);
    }
  }

  // ---------------------------------------------------------------- short runs

  lemma Run1(w: World, e1: Event)
    ensures Run(w, [e1]) == Step(w, e1)
  {
    assert [e1][1..] == [];
  }

  lemma Run2(w: World, e1: Event, e2: Event)
    ensures Run(w, [e1, e2]) == Step(Step(w, e1), e2)
  {
    assert [e1, e2][1..] == [e2];
    Run1(Step(w, e1), e2);
  }

  lemma Run3(w: World, e1: Event, e2: Event, e3: Event)
    ensures Run(w, [e1, e2, e3]) == Step(Step(Step(w, e1), e2), e3)
  {
    assert [e1, e2, e3][1..] == [e2, e3];
    Run2(Step(w, e1), e2, e3);
  }

  lemma Run4(w: World, e1: Event, e2: Event, e3: Event, e4: Event)
    ensures Run(w, [e1, e2, e3, e4]) == Step(Step(Step(Step(w, e1), e2), e3), e4)
  {
    assert [e1, e2, e3, e4][1..] == [e2, e3, e4];
    Run3(Step(w, e1), e2, e3, e4);
  }

  // ---------------------------------------------------------------- looser than it looks

  /**
   * Arming is not idempotent during the initial delay: intervalJob is still null, so a
   * second intervalSchedule passes the guard, overwrites the args and interval, and
   * installs a second timeout.
   */
  lemma SecondArmDuringDelay(w: World, a: int, xs: seq<Value>, b: int, ys: seq<Value>)
    requires Inv(w) && w.sched.intervalJob.None?
    ensures var r := Run(w, [ArmInterval(a, xs), ArmInterval(b, ys)]);
      && r.sched.intervalJob.None?
      && |r.host.timeouts| == |w.host.timeouts| + 2
      && r.sched.args == ys
      && r.sched.currentInterval == Some(b)
  {
    ArmAddsOneTimeout(w, a, xs);
    ArmAddsOneTimeout(IntervalSchedule(w, a, xs), b, ys);
    Run2(w, ArmInterval(a, xs), ArmInterval(b, ys));
  }

  /** The two modes do not exclude each other: a cron job and an interval timer can both be stored. */
  lemma BothModesArmed(w: World, c: string, xs: seq<Value>, n: int, ys: seq<Value>)
    requires Inv(w) && w.sched.intervalJob.None? && w.sched.scheduledJob.None?
    ensures var r := Run(w, [ArmCron(c, xs, true), ArmInterval(n, ys), TimeoutDue(w.host.next + 1)]);
      && r.sched.scheduledJob == Some(w.host.next)
      && r.sched.intervalJob == Some(w.host.next + 2)
      && r.host.crons == map[w.host.next := c]
      && w.host.next + 2 in r.host.timers
      && r.host.timers[w.host.next + 2] == n
  {
    Run3(w, ArmCron(c, xs, true), ArmInterval(n, ys), TimeoutDue(w.host.next + 1));
    assert w.host.crons == map[];
  }

  /**
   * A late timeout leaks a timer: armed twice during the delay, both timeouts fire, and the
   * first repeating timer is overwritten without being cleared.  It survives stopScheduling.
   */
  lemma LateTimeoutLeaksTimer(a: int, xs: seq<Value>, b: int, ys: seq<Value>)
    ensures var r := Run(Initial(EmptyHost()),
                         [ArmInterval(a, xs), ArmInterval(b, ys), TimeoutDue(0), TimeoutDue(1)]);
      && Orphans(r) == {2}
      && r.sched.intervalJob == Some(3)
      && StopScheduling(r).host.timers == map[2 := a]
  {
    var w0 := Initial(EmptyHost());
    Run4(w0, ArmInterval(a, xs), ArmInterval(b, ys), TimeoutDue(0), TimeoutDue(1));
    var w4 := TimeoutFires(TimeoutFires(IntervalSchedule(IntervalSchedule(w0, a, xs), b, ys), 0), 1);
    assert w4.host.timers == map[2 := a, 3 := b];
    assert w4.host.timers - {3} == map[2 := a];
  }

  /**
   * stopScheduling never cancels a pending timeout: when it fires afterwards the task runs
   * (unless paused) and a repeating timer is stored again.
   */
  lemma StopLeavesPendingTimeout(w: World, n: int, xs: seq<Value>)
    requires w.sched.intervalJob.None?
    ensures var stopped := StopScheduling(IntervalSchedule(w, n, xs));
      && w.host.next in stopped.host.timeouts
      && var r := TimeoutFires(stopped, w.host.next);
      && r.sched.intervalJob == Some(w.host.next + 1)
      && w.host.next + 1 in r.host.timers
      && r.host.timers[w.host.next + 1] == n
      && r.host.calls == w.host.calls + (if w.sched.isPaused then [] else [xs])
  {
  }

  /**
   * setNewInterval during the initial delay is a no-op, so the timer the timeout then starts
   * still uses the interval given to intervalSchedule.
   */
  lemma NewIntervalDuringDelayIsLost(w: World, n: int, h: Handle)
    requires Inv(w) && w.sched.intervalJob.None? && h in w.host.timeouts
    ensures var r := Run(w, [ChangeInterval(n), TimeoutDue(h)]);
      && r.sched.intervalJob.Some?
      && r.sched.intervalJob.value in r.host.timers
      && r.host.timers[r.sched.intervalJob.value] == w.host.timeouts[h].interval
      && r.sched.currentInterval == w.sched.currentInterval
  {
    Run2(w, ChangeInterval(n), TimeoutDue(h));
  }
}
