/** How a run ends: with which status it stops, when it has to stop, and what a
    shutdown leaves. */
module SchedulerStatus {
  import opened Common
  import opened GlobalQueue
  import opened Scheduler
  import opened SchedulerInvariant
  import opened SchedulerWaits
  import opened SchedulerExecution
  import opened SchedulerTheorems
  import opened SchedulerStops

  // -------------------------------------------------------- what one action does

  predicate SameTasks(s: State, s': State)
  {
    s'.all == s.all && s'.tasks.Keys == s.tasks.Keys && s'.shutdown == s.shutdown
  }

  /** The run is as it was. */
  predicate Unmoved(s: State, s': State)
  {
    SameTasks(s, s') && s'.running == s.running && s'.deadlock == s.deadlock && s'.live == s.live
  }

  /** The run is on as it was and has a task left, or is over as it was, or it has
      just ended with its last task. */
  predicate Ends(s: State, s': State)
  {
    && SameTasks(s, s')
    && if s.running && s'.live == 0 then !s'.running && !s'.deadlock
       else s'.running == s.running && s'.deadlock == s.deadlock
  }

  lemma WakeUnmoved(s: State, t: TaskId)
    requires t in s.tasks
    ensures Unmoved(s, Wake(s, t))
  {
  }

  lemma {:induction false} WakeJoinersUnmoved(s: State, u: TaskId)
    requires u in s.tasks
    ensures Unmoved(s, WakeJoiners(s, u))
    decreases |s.tasks[u].waiters|
  {
    if s.tasks[u].waiters != [] {
      var s1 := JoinerTaken(s, u);
      if s.tasks[u].waiters[0] in s1.tasks {
        WakeUnmoved(s1, s.tasks[u].waiters[0]);
      }
      JoinerLeft(s, u);
      WakeJoinersUnmoved(WakeJoiner(s, u), u);
    }
  }

  lemma LocalUnmoved(s: State, p: nat, a: Action)
    requires p < |s.workers| && Scans(a)
    ensures Unmoved(s, DoScan(s, p, a))
  {
  }

  lemma TakeUnmoved(s: State, p: nat, room: nat)
    requires p < |s.workers|
    ensures Unmoved(s, DoTakeGlobal(s, p, room))
  {
  }

  lemma StealUnmoved(s: State, p: nat, victim: nat, fits: set<TaskId>)
    requires p < |s.workers|
    ensures Unmoved(s, DoStealOne(s, p, victim)) && Unmoved(s, DoStealDone(s, p, fits))
  {
  }

  lemma ResumeUnmoved(s: State, p: nat, ok: bool)
    requires p < |s.workers|
    ensures Unmoved(s, DoResume(s, p, ok)) && Unmoved(s, DoSuspend(s, p)) && Unmoved(s, DoIdleLeave(s, p))
  {
  }

  lemma ActUnmoved(s: State, p: nat, t: TaskId, a: Action)
    requires p < |s.workers| && t in s.tasks
    ensures Unmoved(s, DoAct(s, p, t, a))
  {
  }

  lemma TimerUnmoved(s: State, p: nat, t: TaskId)
    requires p < |s.workers|
    ensures Unmoved(s, DoTimerFire(s, p, t))
  {
    if t in s.workers[p].timers && t in s.tasks {
      WakeUnmoved(TimerTaken(s, p, t), t);
    }
  }

  lemma SyncUnmoved(s: State, q: nat)
    ensures Unmoved(s, DoSyncWake(s, q))
  {
    var ws := Waiters(s, q);
    if ws != [] && ws[0] in s.tasks {
      WakeUnmoved(s.(syncs := s.syncs[q := ws[1..]]), ws[0]);
    }
  }

  lemma IoUnmoved(s: State, t: TaskId)
    ensures Unmoved(s, DoIoComplete(s, t))
  {
    if t in s.tasks && s.ioWaiting != 0 {
      WakeUnmoved(IoTaken(s, t), t);
    }
  }

  lemma PlainUnmoved(s: State, p: nat, a: Action)
    requires p < |s.workers| && !a.Root? && !a.BeginExecute? && !a.CheckCancelled? && !a.IdleEnter?
    ensures Unmoved(s, DoAt(s, p, a))
  {
    if Scans(a) {
      LocalUnmoved(s, p, a);
    } else if a.TakeGlobal? {
      TakeUnmoved(s, p, a.room);
    } else if a.StealOne? {
      StealUnmoved(s, p, a.victim, {});
    } else if a.StealDone? {
      StealUnmoved(s, p, 0, a.accepted);
    } else if a.Resume? || a.Suspend? || a.IdleLeave? {
      ResumeUnmoved(s, p, if a.Resume? then a.ok else true);
    } else if a.TimerFire? {
      TimerUnmoved(s, p, a.t);
    } else if Acts(a) && Acting(s, p).Some? {
      ActUnmoved(s, p, Acting(s, p).value, a);
    }
  }

  lemma SettleRuns(s: State, p: nat, t: TaskId, outcome: Outcome, fits: bool)
    requires p < |s.workers| && t in s.tasks
    ensures var s' := Settle(s, p, t, outcome, fits);
            SameTasks(s, s') && s'.running == s.running && s'.deadlock == s.deadlock
  {
    if outcome.FiberDone? {
      WakeJoinersUnmoved(WithTask(s, t, s.tasks[t].(state := Done, fiber := None)), t);
    }
  }

  lemma RootEnds(s: State, p: nat, fits: bool)
    requires p < |s.workers| && s.workers[p].phase.Returned? && s.workers[p].phase.task in s.tasks
    ensures Ends(s, DoRoot(s, p, fits))
  {
    var phase := s.workers[p].phase;
    var t := phase.task;
    var s1 := WithPhase(WithTask(s, t, s.tasks[t].(executing := false)).(active := s.active - 1), p, LoopTop);
    SettleRuns(s1, p, t, phase.outcome, fits);
  }

  lemma CheckEnds(s: State, p: nat)
    requires p < |s.workers| && s.workers[p].phase.CancelCheck?
    ensures Ends(s, DoCheckCancelled(s, p))
  {
  }

  lemma BeginRuns(s: State, p: nat)
    requires p < |s.workers|
    ensures var s' := DoBeginExecute(s, p);
            && SameTasks(s, s') && s'.running == s.running && s'.deadlock == s.deadlock
            && (!s.shutdown ==> s'.live == s.live)
  {
  }

  lemma IdleRuns(s: State, p: nat)
    requires p < |s.workers|
    ensures var s' := DoIdleEnter(s, p);
            && SameTasks(s, s') && s'.live == s.live
            && if s.running && !s'.running then s'.deadlock && s.live != 0
               else s'.running == s.running && s'.deadlock == s.deadlock
  {
  }

  // ----------------------------------------------------------------- the status

  /** Turning the run off says why: as deadlocked if and only if tasks are left. */
  lemma AtStatus(s: State, p: nat, a: Action)
    requires p < |s.workers| && s.running && !s.shutdown && !DoAt(s, p, a).running
    requires WorkerOk(s.workers[p], |s.workers| == 1, s.shutdown)
    ensures DoAt(s, p, a).deadlock <==> DoAt(s, p, a).live != 0
  {
    if a.Root? {
      if s.workers[p].phase.Returned? && s.workers[p].phase.task in s.tasks {
        RootEnds(s, p, a.fits);
      }
    } else if a.BeginExecute? {
      BeginRuns(s, p);
    } else if a.IdleEnter? {
      IdleRuns(s, p);
    } else if !a.CheckCancelled? {
      PlainUnmoved(s, p, a);
    }
  }

  lemma EventUnmoved(s: State, a: Action)
    requires WorkersOk(s) && !s.shutdown
    requires a.SyncWake? || a.IoComplete? || a.CancelAll? || a.FinishRun?
    ensures Unmoved(s, DoRuntime(s, a))
  {
    assert WorkerOk(s.workers[0], |s.workers| == 1, s.shutdown);
    match a {
      case SyncWake(q) => SyncUnmoved(s, q);
      case IoComplete(t) => IoUnmoved(s, t);
      case CancelAll =>
      case FinishRun =>
    }
  }

  /** Before a shutdown a run that stops says why: as deadlocked if and only if tasks
      are left. */
  lemma StatusSaysWhy(workers: nat, s: State, a: Action)
    requires Reachable(workers, s) && s.running && !s.shutdown && !a.RequestShutdown? && !Do(s, a).running
    ensures Do(s, a).deadlock <==> Do(s, a).live != 0
  {
    var run, wait := ReachableInv(workers, s);
    if OfWorker(a) {
      assert a.p < |s.workers|;
      assert WorkerOk(s.workers[a.p], |s.workers| == 1, s.shutdown);
      AtStatus(s, a.p, a);
    } else if a.SyncWake? || a.IoComplete? || a.CancelAll? || a.FinishRun? {
      EventUnmoved(s, a);
    }
  }

  // ------------------------------------------------------- a run that is on has work

  ghost predicate HasWork(s: State)
  {
    s.running && !s.shutdown ==> s.live != 0
  }

  lemma AtWork(s: State, p: nat, a: Action)
    requires p < |s.workers| && HasWork(s)
    ensures HasWork(DoAt(s, p, a)) && (s.shutdown ==> DoAt(s, p, a).shutdown)
  {
    if a.Root? {
      if s.workers[p].phase.Returned? && s.workers[p].phase.task in s.tasks {
        RootEnds(s, p, a.fits);
      }
    } else if a.CheckCancelled? {
      if s.workers[p].phase.CancelCheck? {
        CheckEnds(s, p);
      }
    } else if a.BeginExecute? {
      BeginRuns(s, p);
    } else if a.IdleEnter? {
      IdleRuns(s, p);
    } else {
      PlainUnmoved(s, p, a);
    }
  }

  lemma {:induction false} CancelListRuns(s: State, list: seq<TaskId>)
    ensures var s' := CancelList(s, list);
            SameTasks(s, s') && s'.running == s.running && s'.deadlock == s.deadlock
    decreases |list|
  {
    if list != [] {
      CancelListRuns(if list[0] in s.tasks then CancelOne(s, list[0]) else s, list[1..]);
    }
  }

  lemma EventWork(s: State, a: Action)
    requires WorkersOk(s) && !OfWorker(a) && HasWork(s)
    ensures HasWork(DoRuntime(s, a)) && (s.shutdown ==> DoRuntime(s, a).shutdown)
  {
    match a {
      case SyncWake(q) => SyncUnmoved(s, q);
      case IoComplete(t) => IoUnmoved(s, t);
      case CancelAll =>
        assert WorkerOk(s.workers[0], |s.workers| == 1, s.shutdown);
        CancelListRuns(s, s.all);
      case FinishRun =>
      case RunStart =>
      case RequestShutdown =>
      case Spawn(_, _) =>
    }
  }

  lemma StepWork(s: State, a: Action)
    requires WorkersOk(s) && HasWork(s)
    ensures HasWork(Do(s, a))
  {
    if !OfWorker(a) {
      EventWork(s, a);
    } else if a.p < |s.workers| {
      AtWork(s, a.p, a);
    }
  }

  lemma {:induction false} RunWork(s: State, actions: seq<Action>, last: State, run: RunMap, wait: WaitMap)
    requires Inv(s, run, wait) && HasWork(s) && Reaches(s, actions, last)
    ensures HasWork(last)
    decreases |actions|
  {
    if actions != [] {
      StepWork(s, actions[0]);
      var run', wait' := StepKeeps(s, actions[0], run, wait);
      RunWork(Do(s, actions[0]), actions[1..], last, run', wait');
    }
  }

  /** In every reachable state before a shutdown a run that is on has a live task: with
      its last task it stops. */
  lemma RunningHasWork(workers: nat, s: State)
    requires Reachable(workers, s) && s.running && !s.shutdown
    ensures s.live != 0 && exists t :: t in s.tasks && !Terminal(s.tasks[t].state)
  {
    var actions :| Reaches(Initial(workers), actions, s);
    InitialInv(workers);
    RunWork(Initial(workers), actions, s, map[], map[]);
    var run, wait := ReachableInv(workers, s);
    assert Live(s.tasks) != {};
    var t :| t in Live(s.tasks);
  }

  /** The root that ends the last task ends the run, also under a shutdown. */
  lemma LastTaskEndsRun(s: State, p: nat, fits: bool)
    requires p < |s.workers| && s.workers[p].phase.Returned? && s.workers[p].phase.task in s.tasks
    requires Do(s, Root(p, fits)).live == 0
    ensures !Do(s, Root(p, fits)).running
    ensures s.running ==> !Do(s, Root(p, fits)).deadlock
  {
    RootEnds(s, p, fits);
  }

  // ------------------------------------------------------------- the status stays

  lemma AtKept(s: State, p: nat, a: Action)
    requires p < |s.workers| && !s.running
    ensures !DoAt(s, p, a).running && DoAt(s, p, a).deadlock == s.deadlock
  {
    if a.Root? {
      if s.workers[p].phase.Returned? && s.workers[p].phase.task in s.tasks {
        RootEnds(s, p, a.fits);
      }
    } else if a.CheckCancelled? {
    } else if a.BeginExecute? {
      BeginRuns(s, p);
    } else if a.IdleEnter? {
      IdleRuns(s, p);
    } else {
      PlainUnmoved(s, p, a);
    }
  }

  lemma EventKept(s: State, a: Action)
    requires s.workers != [] && !OfWorker(a) && !s.running && !a.RunStart?
    ensures !DoRuntime(s, a).running && DoRuntime(s, a).deadlock == s.deadlock
  {
    match a {
      case SyncWake(q) => SyncUnmoved(s, q);
      case IoComplete(t) => IoUnmoved(s, t);
      case CancelAll => CancelListRuns(s, s.all);
      case FinishRun =>
      case RequestShutdown =>
      case Spawn(_, _) =>
    }
  }

  lemma {:induction false} StatusKept(s: State, actions: seq<Action>, last: State)
    requires !s.running && Reaches(s, actions, last) && forall i :: 0 <= i < |actions| ==> !actions[i].RunStart?
    ensures !last.running && last.deadlock == s.deadlock
    decreases |actions|
  {
    if actions != [] {
      var a := actions[0];
      if s.workers != [] {
        if !OfWorker(a) {
          EventKept(s, a);
        } else if a.p < |s.workers| {
          AtKept(s, a.p, a);
        }
      }
      StatusKept(Do(s, a), actions[1..], last);
    }
  }

  /** What the call that ran the scheduler returns: the status stays until the next run,
      so it still says whether tasks were left when the run stopped. */
  lemma RunReturnsWhy(workers: nat, s: State, a: Action, after: seq<Action>, last: State)
    requires Reachable(workers, s) && s.running && !s.shutdown && !a.RequestShutdown? && !Do(s, a).running
    requires Reaches(Do(s, a), after, last) && forall i :: 0 <= i < |after| ==> !after[i].RunStart?
    ensures last.deadlock <==> Do(s, a).live != 0
  {
    StatusSaysWhy(workers, s, a);
    StatusKept(Do(s, a), after, last);
  }

  // ----------------------------------------------------------- exactly when stuck

  /** The task waits for another task. */
  ghost predicate WaitsOnOthers(s: State, t: TaskId)
  {
    exists b: WaitPlace :: (b.OnJoin? || b.OnSync?) && WaitCount(s, t, b) == 1
  }

  ghost predicate AllWait(s: State)
  {
    forall t :: t in s.tasks && !Terminal(s.tasks[t].state) ==> WaitsOnOthers(s, t)
  }

  lemma WaitingIsNowhere(s: State, run: RunMap, wait: WaitMap, t: TaskId)
    requires Inv(s, run, wait) && !s.shutdown && AllWait(s) && t in s.tasks
    requires forall q :: 0 <= q < |s.workers| ==> !Executes(s.workers[q].phase)
    ensures run[t] == Nowhere && !wait[t].OnTimer? && !wait[t].OnIo?
  {
    assert TaskOk(s, run, wait, t);
    if !Terminal(s.tasks[t].state) {
      var b: WaitPlace :| (b.OnJoin? || b.OnSync?) && WaitCount(s, t, b) == 1;
      assert WaitCount(s, t, b) == Once(!b.NotWaiting? && t in wait && wait[t] == b);
    }
  }

  lemma {:induction false} NoTimers(ws: seq<Worker>)
    requires forall p :: 0 <= p < |ws| ==> ws[p].timers == {}
    ensures TimerTotal(ws) == 0
  {
    if ws != [] {
      NoTimers(ws[..|ws| - 1]);
    }
  }

  lemma NobodyElse(s: State, run: RunMap, wait: WaitMap)
    requires Inv(s, run, wait) && forall t :: t in s.tasks ==> !wait[t].OnTimer? && !wait[t].OnIo?
    ensures s.timerCount == 0 && s.ioWaiting == 0
  {
    forall p | 0 <= p < |s.workers|
      ensures s.workers[p].timers == {}
    {
      forall t
        ensures t !in s.workers[p].timers
      {
        assert WaitCount(s, t, OnTimer(p)) == Once(t in wait && wait[t] == OnTimer(p));
      }
    }
    NoTimers(s.workers);
    forall t | t in s.tasks
      ensures !s.tasks[t].waitingForIo
    {
      assert TaskOk(s, run, wait, t);
    }
    assert IoTasks(s.tasks) == {};
  }

  lemma AllWaitIsStuck(s: State, run: RunMap, wait: WaitMap)
    requires Inv(s, run, wait) && !s.shutdown && s.live != 0 && s.idleWorkers == |s.workers| && AllWait(s)
    ensures Stuck(s)
  {
    AllIdle(s);
    forall t | t in s.tasks
      ensures run[t] == Nowhere && !wait[t].OnTimer? && !wait[t].OnIo?
    {
      WaitingIsNowhere(s, run, wait, t);
    }
    NobodyElse(s, run, wait);
    forall p | 0 <= p < |s.workers|
      ensures s.global == [] && s.workers[p].local == []
    {
      EmptyIfNone(s.global, s.workers, p, run);
    }
  }

  /** In every reachable state before a shutdown: if the other workers are counted idle
      and every live task waits on a join list or a wait queue, the worker that goes
      idle now stops the run as deadlocked. */
  lemma LastIdleStops(workers: nat, s: State, p: nat)
    requires Reachable(workers, s) && s.running && !s.shutdown && p < |s.workers| && s.workers[p].phase.TrySteal?
    requires s.idleWorkers + 1 == |s.workers| && AllWait(s)
    ensures !DoIdleEnter(s, p).running && DoIdleEnter(s, p).deadlock
  {
    var run, wait := ReachableInv(workers, s);
    RunningHasWork(workers, s);
    assert WorkerOk(s.workers[p], |s.workers| == 1, s.shutdown);
    IdleEnterIs(s, p);
    IdleEnterKeeps(s, p, run, wait);
    var s' := DoIdleEnter(s, p);
    SameWaits(s, s');
    AllWaitIsStuck(s', run, wait);
    StuckAlike(s, p);
  }

  lemma SameWaits(s: State, s': State)
    requires s'.tasks == s.tasks && s'.syncs == s.syncs
    ensures AllWait(s) <==> AllWait(s')
  {
    assert forall t, b: WaitPlace :: b.OnJoin? || b.OnSync? ==> WaitCount(s', t, b) == WaitCount(s, t, b);
  }

  lemma StuckAlike(s: State, p: nat)
    requires p < |s.workers| && s.workers[p].phase.TrySteal? && !s.workers[p].idle && s.running
    requires Stuck(DoIdleEnter(s, p))
    ensures Stuck(Idle(s, p))
  {
    var s1, s' := Idle(s, p), DoIdleEnter(s, p);
    forall q | 0 <= q < |s1.workers|
      ensures s1.workers[q].local == []
    {
      assert s'.workers[q].local == [];
    }
  }

  /** In a run whose spawns are all safe the verdict is exact: a worker that goes idle
      declares a deadlock if and only if it is the last one counted and every live task
      waits on a join list or a wait queue. */
  lemma VerdictIff(workers: nat, actions: seq<Action>, s: State, p: nat)
    requires workers > 0 && Reaches(Initial(workers), actions, s) && SafeRun(Initial(workers), actions)
    requires s.running && p < |s.workers| && s.workers[p].phase.TrySteal?
    ensures !DoIdleEnter(s, p).running <==> s.idleWorkers + 1 == |s.workers| && AllWait(s)
  {
    var run, wait := SafeRunInv(workers, actions, s);
    assert WorkerOk(s.workers[p], |s.workers| == 1, s.shutdown);
    IdleEnterIs(s, p);
    var s' := DoIdleEnter(s, p);
    if !s'.running {
      forall t | t in s'.tasks && !Terminal(s'.tasks[t].state)
        ensures WaitsOnOthers(s', t)
      {
        VerdictSound(s, p, run, wait, t);
      }
      SameWaits(s, s');
    } else if s.idleWorkers + 1 == |s.workers| && AllWait(s) {
      LastIdleStops(workers, s, p);
    }
  }

  // ------------------------------------------------------------------- shutdown

  lemma {:induction false} CancelListDoes(s: State, list: seq<TaskId>, t: TaskId)
    requires t in s.tasks
    ensures var s' := CancelList(s, list);
            && t in s'.tasks
            && s'.tasks[t].state == (if Terminal(s.tasks[t].state) || s.tasks[t].executing || t !in list
                                     then s.tasks[t].state else Cancelled)
            && s'.tasks[t].executing == s.tasks[t].executing && s'.tasks[t].waiters == s.tasks[t].waiters
    decreases |list|
  {
    if list != [] {
      CancelListDoes(if list[0] in s.tasks then CancelOne(s, list[0]) else s, list[1..], t);
    }
  }

  ghost predicate Listed(s: State)
  {
    forall t :: t in s.tasks ==> t in s.all
  }

  lemma AtListed(s: State, p: nat, a: Action)
    requires p < |s.workers|
    ensures SameTasks(s, DoAt(s, p, a))
  {
    if a.Root? {
      if s.workers[p].phase.Returned? && s.workers[p].phase.task in s.tasks {
        RootEnds(s, p, a.fits);
      }
    } else if a.CheckCancelled? {
      if s.workers[p].phase.CancelCheck? {
        CheckEnds(s, p);
      }
    } else if a.BeginExecute? {
      BeginRuns(s, p);
    } else if a.IdleEnter? {
      IdleRuns(s, p);
    } else {
      PlainUnmoved(s, p, a);
    }
  }

  lemma EventListed(s: State, a: Action)
    requires s.workers != [] && !OfWorker(a) && Listed(s)
    ensures Listed(DoRuntime(s, a))
  {
    match a {
      case SyncWake(q) => SyncUnmoved(s, q);
      case IoComplete(t) => IoUnmoved(s, t);
      case CancelAll => CancelListRuns(s, s.all);
      case RunStart =>
      case FinishRun =>
      case RequestShutdown =>
      case Spawn(_, _) =>
    }
  }

  lemma {:induction false} RunListed(s: State, actions: seq<Action>, last: State)
    requires Listed(s) && Reaches(s, actions, last)
    ensures Listed(last)
    decreases |actions|
  {
    if actions != [] {
      var a := actions[0];
      if s.workers != [] {
        if !OfWorker(a) {
          EventListed(s, a);
        } else if a.p < |s.workers| {
          AtListed(s, a.p, a);
        }
      }
      RunListed(Do(s, a), actions[1..], last);
    }
  }

  /** The shutdown's last step cancels every task that has not ended and that no worker
      runs, and no other. */
  lemma ShutdownCancels(workers: nat, s: State, t: TaskId)
    requires Reachable(workers, s) && s.workers != [] && s.workers[0].phase.Cancelling? && t in s.tasks
    ensures var s' := Do(s, CancelAll);
            && t in s'.tasks && s'.tasks[t].executing == s.tasks[t].executing
            && s'.tasks[t].state ==
               if Terminal(s.tasks[t].state) || s.tasks[t].executing then s.tasks[t].state else Cancelled
  {
    var actions :| Reaches(Initial(workers), actions, s);
    RunListed(Initial(workers), actions, s);
    CancelListDoes(s, s.all, t);
  }
}
