/** What a shutdown leaves: nothing. */
module SchedulerShutdown {
  import opened Common
  import opened GlobalQueue
  import opened Scheduler
  import opened SchedulerInvariant
  import opened SchedulerWaits
  import opened SchedulerExecution
  import opened SchedulerTheorems
  import opened SchedulerStops
  import opened SchedulerStatus

  /** The owner's thread is outside the run loop. */
  predicate Resting(phase: Phase)
  {
    phase.Off? || phase.Draining? || phase.Cancelling?
  }

  /** No run is on while the owner is outside the loop, and nothing executes when it cancels. */
  ghost predicate Settled(s: State)
  {
    s.workers != [] ==>
      && (Resting(s.workers[0].phase) ==> !s.running)
      && (s.workers[0].phase.Cancelling? ==> s.active == 0)
  }

  // ---------------------------------------------------------- what one worker does

  /** Worker p has moved; the others stand where they stood. */
  predicate OnlyMoves(s: State, s': State, p: nat)
  {
    |s'.workers| == |s.workers| && forall q :: 0 <= q < |s.workers| && q != p ==>
      s'.workers[q].phase == s.workers[q].phase
  }

  lemma ScanMoves(s: State, p: nat, a: Action)
    requires p < |s.workers| && Scans(a)
    ensures OnlyMoves(s, DoScan(s, p, a), p) && DoScan(s, p, a).active == s.active
  {
  }

  lemma TakeMoves(s: State, p: nat, room: nat)
    requires p < |s.workers|
    ensures OnlyMoves(s, DoTakeGlobal(s, p, room), p) && DoTakeGlobal(s, p, room).active == s.active
  {
  }

  lemma StealMoves(s: State, p: nat, victim: nat)
    requires p < |s.workers|
    ensures OnlyMoves(s, DoStealOne(s, p, victim), p) && DoStealOne(s, p, victim).active == s.active
  {
  }

  lemma ShareMoves(s: State, p: nat, fits: set<TaskId>)
    requires p < |s.workers|
    ensures OnlyMoves(s, DoStealDone(s, p, fits), p) && DoStealDone(s, p, fits).active == s.active
  {
  }

  lemma BeginMoves(s: State, p: nat)
    requires p < |s.workers|
    ensures OnlyMoves(s, DoBeginExecute(s, p), p) && (!s.running ==> DoBeginExecute(s, p).active == s.active)
  {
  }

  lemma ResumeMoves(s: State, p: nat, ok: bool)
    requires p < |s.workers|
    ensures OnlyMoves(s, DoResume(s, p, ok), p) && DoResume(s, p, ok).active == s.active
  {
  }

  lemma CheckMoves(s: State, p: nat)
    requires p < |s.workers|
    ensures OnlyMoves(s, DoCheckCancelled(s, p), p) && DoCheckCancelled(s, p).active == s.active
    ensures OnlyMoves(s, DoSuspend(s, p), p) && DoSuspend(s, p).active == s.active
  {
  }

  lemma IdleMoves(s: State, p: nat)
    requires p < |s.workers|
    ensures OnlyMoves(s, DoIdleEnter(s, p), p) && DoIdleEnter(s, p).active == s.active
  {
  }

  lemma LeaveMoves(s: State, p: nat)
    requires p < |s.workers|
    ensures OnlyMoves(s, DoIdleLeave(s, p), p) && DoIdleLeave(s, p).active == s.active
  {
  }

  lemma TimerMoves(s: State, p: nat, t: TaskId)
    requires p < |s.workers|
    ensures var s' := DoTimerFire(s, p, t);
            OnlyMoves(s, s', p) && s'.active == s.active && s'.workers[p].phase == s.workers[p].phase
  {
    if t in s.workers[p].timers && t in s.tasks {
      WakeFrame(TimerTaken(s, p, t), t);
    }
  }

  lemma ActMoves(s: State, p: nat, t: TaskId, a: Action)
    requires p < |s.workers| && t in s.tasks
    ensures OnlyMoves(s, DoAct(s, p, t, a), p) && DoAct(s, p, t, a).active == s.active
  {
  }

  lemma SettleMoves(s: State, p: nat, t: TaskId, outcome: Outcome, fits: bool)
    requires p < |s.workers| && t in s.tasks
    ensures OnlyMoves(s, Settle(s, p, t, outcome, fits), p)
  {
    if outcome.FiberDone? {
      WakeJoinersFrame(WithTask(s, t, s.tasks[t].(state := Done, fiber := None)), t);
    }
  }

  lemma RootMoves(s: State, p: nat, fits: bool)
    requires p < |s.workers|
    ensures OnlyMoves(s, DoRoot(s, p, fits), p)
    ensures !Executes(s.workers[p].phase) ==> DoRoot(s, p, fits).active == s.active
  {
    var phase := s.workers[p].phase;
    if phase.Returned? && phase.task in s.tasks {
      RootIs(s, p, fits);
      var t := phase.task;
      SettleMoves(AtRoot(s, p, t, s.tasks[t].(executing := false)), p, t, phase.outcome, fits);
    }
  }

  lemma TakesMove(s: State, p: nat, a: Action)
    requires p < |s.workers| && Takes(a)
    ensures OnlyMoves(s, DoTake(s, p, a), p) && DoTake(s, p, a).active == s.active
  {
    match a {
      case TakeGlobal(_, room) => TakeMoves(s, p, room);
      case StealOne(_, victim) => StealMoves(s, p, victim);
      case StealDone(_, fits) => ShareMoves(s, p, fits);
    }
  }

  lemma DispatchMoves(s: State, p: nat, a: Action)
    requires p < |s.workers| && Dispatches(a)
    ensures OnlyMoves(s, DoDispatch(s, p, a), p) && (!s.running ==> DoDispatch(s, p, a).active == s.active)
  {
    match a {
      case BeginExecute(_) => BeginMoves(s, p);
      case CheckCancelled(_) => CheckMoves(s, p);
      case Resume(_, ok) => ResumeMoves(s, p, ok);
      case Suspend(_) => CheckMoves(s, p);
    }
  }

  lemma RestMoves(s: State, p: nat, a: Action)
    requires p < |s.workers| && Rests(a)
    ensures OnlyMoves(s, DoRest(s, p, a), p)
    ensures !Executes(s.workers[p].phase) ==> DoRest(s, p, a).active == s.active
  {
    match a {
      case Root(_, fits) => RootMoves(s, p, fits);
      case TimerFire(_, t) => TimerMoves(s, p, t);
      case IdleEnter(_) => IdleMoves(s, p);
      case IdleLeave(_) => LeaveMoves(s, p);
    }
  }

  lemma AtMoves(s: State, p: nat, a: Action)
    requires p < |s.workers|
    ensures OnlyMoves(s, DoAt(s, p, a), p)
    ensures !s.running && !Executes(s.workers[p].phase) ==> DoAt(s, p, a).active == s.active
  {
    if Scans(a) {
      ScanMoves(s, p, a);
    } else if Takes(a) {
      TakesMove(s, p, a);
    } else if Dispatches(a) {
      DispatchMoves(s, p, a);
    } else if Rests(a) {
      RestMoves(s, p, a);
    } else if Acts(a) && Acting(s, p).Some? {
      ActMoves(s, p, Acting(s, p).value, a);
    }
  }

  // -------------------------------------------------------------- the owner's thread

  /** Outside the loop the owner's worker does nothing but let timers fire. */
  lemma RestingStays(s: State, a: Action)
    requires s.workers != [] && Resting(s.workers[0].phase)
    ensures DoAt(s, 0, a) == s || a.TimerFire?
  {
  }

  /** Worker p is in the loop if it was. */
  predicate InLoop(s: State, s': State, p: nat)
    requires p < |s.workers|
  {
    p < |s'.workers| && (Resting(s'.workers[p].phase) ==> Resting(s.workers[p].phase))
  }

  lemma TakeInLoop(s: State, p: nat, room: nat)
    requires p < |s.workers|
    ensures InLoop(s, DoTakeGlobal(s, p, room), p)
  {
  }

  lemma StealInLoop(s: State, p: nat, victim: nat, fits: set<TaskId>)
    requires p < |s.workers|
    ensures InLoop(s, DoStealOne(s, p, victim), p) && InLoop(s, DoStealDone(s, p, fits), p)
  {
  }

  lemma BeginInLoop(s: State, p: nat, ok: bool)
    requires p < |s.workers|
    ensures InLoop(s, DoBeginExecute(s, p), p) && InLoop(s, DoResume(s, p, ok), p)
  {
  }

  lemma CheckInLoop(s: State, p: nat)
    requires p < |s.workers|
    ensures InLoop(s, DoCheckCancelled(s, p), p) && InLoop(s, DoSuspend(s, p), p)
  {
  }

  lemma IdleInLoop(s: State, p: nat)
    requires p < |s.workers|
    ensures InLoop(s, DoIdleEnter(s, p), p) && InLoop(s, DoIdleLeave(s, p), p)
  {
  }

  lemma RestInLoop(s: State, p: nat, a: Action)
    requires p < |s.workers| && Rests(a)
    ensures InLoop(s, DoRest(s, p, a), p)
  {
    match a {
      case Root(_, fits) => RootFrame(s, p, fits);
      case TimerFire(_, t) => TimerMoves(s, p, t);
      case IdleEnter(_) => IdleInLoop(s, p);
      case IdleLeave(_) => IdleInLoop(s, p);
    }
  }

  lemma TakesInLoop(s: State, p: nat, a: Action)
    requires p < |s.workers| && Takes(a)
    ensures InLoop(s, DoTake(s, p, a), p)
  {
    match a {
      case TakeGlobal(_, room) => TakeInLoop(s, p, room);
      case StealOne(_, victim) => StealInLoop(s, p, victim, {});
      case StealDone(_, fits) => StealInLoop(s, p, 0, fits);
    }
  }

  lemma DispatchInLoop(s: State, p: nat, a: Action)
    requires p < |s.workers| && Dispatches(a)
    ensures InLoop(s, DoDispatch(s, p, a), p)
  {
    match a {
      case BeginExecute(_) => BeginInLoop(s, p, true);
      case Resume(_, ok) => BeginInLoop(s, p, ok);
      case CheckCancelled(_) => CheckInLoop(s, p);
      case Suspend(_) => CheckInLoop(s, p);
    }
  }

  lemma ActInLoop(s: State, p: nat, t: TaskId, a: Action)
    requires p < |s.workers| && t in s.tasks
    ensures InLoop(s, DoAct(s, p, t, a), p)
  {
  }

  lemma ScanLeaves(s: State, p: nat, a: Action)
    requires p < |s.workers| && Scans(a)
    ensures var s' := DoScan(s, p, a);
            || InLoop(s, s', p)
            || (!s.running && p < |s'.workers| && s'.workers[p].phase == if p == 0 then Draining else Off)
  {
  }

  /** It leaves the loop only when the run is off. */
  lemma LeavesWhenOff(s: State, p: nat, a: Action)
    requires p < |s.workers|
    ensures var s' := DoAt(s, p, a);
            || InLoop(s, s', p)
            || (!s.running && p < |s'.workers| && s'.workers[p].phase == if p == 0 then Draining else Off)
  {
    if Scans(a) {
      ScanLeaves(s, p, a);
    } else if Takes(a) {
      TakesInLoop(s, p, a);
    } else if Dispatches(a) {
      DispatchInLoop(s, p, a);
    } else if Rests(a) {
      RestInLoop(s, p, a);
    } else if Acts(a) && Acting(s, p).Some? {
      ActInLoop(s, p, Acting(s, p).value, a);
    }
  }

  lemma NobodyExecutes(s: State, p: nat)
    requires Counted(s) && s.active == 0 && p < |s.workers|
    ensures !Executes(s.workers[p].phase)
  {
    assert p !in Executing(s.workers);
  }

  lemma AtSettled(s: State, p: nat, a: Action)
    requires p < |s.workers| && Settled(s) && Counted(s)
    ensures Settled(DoAt(s, p, a))
  {
    AtMoves(s, p, a);
    if s.active == 0 {
      NobodyExecutes(s, p);
    }
    if !s.running {
      AtKept(s, p, a);
    }
    if p == 0 {
      if Resting(s.workers[0].phase) {
        RestingStays(s, a);
        if a.TimerFire? {
          TimerMoves(s, 0, a.t);
        }
      } else {
        LeavesWhenOff(s, 0, a);
      }
    }
  }

  lemma EventSettled(s: State, a: Action)
    requires s.workers != [] && !OfWorker(a) && Settled(s)
    ensures Settled(DoRuntime(s, a))
  {
    match a {
      case SyncWake(q) =>
        var ws := Waiters(s, q);
        if ws != [] && ws[0] in s.tasks {
          WakeFrame(s.(syncs := s.syncs[q := ws[1..]]), ws[0]);
        }
      case IoComplete(t) =>
        if t in s.tasks && s.ioWaiting != 0 {
          WakeFrame(IoTaken(s, t), t);
        }
      case CancelAll => CancelListRuns(s, s.all);
      case RunStart =>
      case FinishRun =>
      case RequestShutdown =>
      case Spawn(_, _) =>
    }
  }

  lemma {:induction false} RunSettled(s: State, actions: seq<Action>, last: State, run: RunMap, wait: WaitMap)
    requires Inv(s, run, wait) && Settled(s) && Reaches(s, actions, last)
    ensures Settled(last)
    decreases |actions|
  {
    if actions != [] {
      var a := actions[0];
      if !OfWorker(a) {
        EventSettled(s, a);
      } else if a.p < |s.workers| {
        AtSettled(s, a.p, a);
      }
      var run', wait' := StepKeeps(s, a, run, wait);
      RunSettled(Do(s, a), actions[1..], last, run', wait');
    }
  }

  // ---------------------------------------------------------------------- theorems

  /** In every reachable state: while the owner is outside the run loop no run is on, and
      when it comes to cancel what is left, no worker executes a task. */
  lemma NothingRunsOutside(workers: nat, s: State, p: nat)
    requires Reachable(workers, s) && p < |s.workers| && Resting(s.workers[0].phase)
    ensures !s.running
    ensures s.workers[0].phase.Cancelling? ==> !Executes(s.workers[p].phase)
  {
    var actions :| Reaches(Initial(workers), actions, s);
    InitialInv(workers);
    RunSettled(Initial(workers), actions, s, map[], map[]);
    var run, wait := ReachableInv(workers, s);
    if s.workers[0].phase.Cancelling? {
      NobodyExecutes(s, p);
    }
  }

  lemma NotExecuting(s: State, run: RunMap, wait: WaitMap, t: TaskId)
    requires Inv(s, run, wait) && t in s.tasks
    requires forall p :: 0 <= p < |s.workers| ==> !Executes(s.workers[p].phase)
    ensures !s.tasks[t].executing
  {
    assert TaskOk(s, run, wait, t);
  }

  /** After the shutdown's last step no task is left: every one has ended, done or
      cancelled, and the count of live tasks is zero. */
  lemma ShutdownLeavesNothing(workers: nat, s: State)
    requires Reachable(workers, s) && s.workers != [] && s.workers[0].phase.Cancelling?
    ensures var s' := Do(s, CancelAll);
            && (forall t :: t in s'.tasks ==> Terminal(s'.tasks[t].state)) && s'.live == 0
            && s'.tasks.Keys == s.tasks.Keys && s'.spawned == s'.completed + s'.cancelled
  {
    var run, wait := ReachableInv(workers, s);
    var s' := Do(s, CancelAll);
    CancelListRuns(s, s.all);
    forall p | 0 <= p < |s.workers|
      ensures !Executes(s.workers[p].phase)
    {
      NothingRunsOutside(workers, s, p);
    }
    forall t | t in s.tasks
      ensures Terminal(s'.tasks[t].state)
    {
      NotExecuting(s, run, wait, t);
      ShutdownCancels(workers, s, t);
    }
    assert Live(s'.tasks) == {};
    AllEnded(s, run, wait);
  }

  lemma EndedSplit(tasks: map<TaskId, Task>)
    requires Live(tasks) == {}
    ensures |DoneTasks(tasks)| + |CancelledTasks(tasks)| == |tasks.Keys|
  {
    forall t | t in tasks
      ensures t in DoneTasks(tasks) + CancelledTasks(tasks)
    {
      assert t !in Live(tasks);
    }
    assert DoneTasks(tasks) + CancelledTasks(tasks) == tasks.Keys;
    assert DoneTasks(tasks) !! CancelledTasks(tasks);
  }

  lemma AllEnded(s: State, run: RunMap, wait: WaitMap)
    requires Inv(s, run, wait) && Live(Do(s, CancelAll).tasks) == {}
    ensures var s' := Do(s, CancelAll);
            s'.live == 0 && s'.spawned == s'.completed + s'.cancelled
  {
    var run', wait' := StepKeeps(s, CancelAll, run, wait);
    EndedSplit(Do(s, CancelAll).tasks);
  }
}
