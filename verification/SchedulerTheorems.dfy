/** What holds of the scheduler in every run. */
module SchedulerTheorems {
  import opened Common
  import opened Paths
  import opened GlobalQueue
  import opened Scheduler
  import opened SchedulerInvariant
  import opened SchedulerSteps
  import opened SchedulerSteals
  import opened SchedulerWaits
  import opened SchedulerExecution

  // -------------------------------------------------------------- every action

  lemma YieldAt(s: State, p: nat, t: TaskId, a: Action, run: RunMap, wait: WaitMap)
    requires Inv(s, run, wait) && Acting(s, p) == Some(t) && p < |s.workers| && t in s.tasks && a.Yield?
    ensures Inv(DoAct(s, p, t, a), run, wait)
  {
    YieldKeeps(s, p, t, run, wait);
  }

  lemma JoinAt(s: State, p: nat, t: TaskId, a: Action, run: RunMap, wait: WaitMap) returns (wait': WaitMap)
    requires Inv(s, run, wait) && Acting(s, p) == Some(t) && p < |s.workers| && t in s.tasks && a.Join?
    ensures Inv(DoAct(s, p, t, a), run, wait')
  {
    assert DoAct(s, p, t, a) == DoJoin(s, t, a.target);
    wait' := JoinKeeps(s, p, t, a.target, run, wait);
  }

  lemma ReturnAt(s: State, p: nat, t: TaskId, a: Action, run: RunMap, wait: WaitMap)
    requires Inv(s, run, wait) && Acting(s, p) == Some(t) && p < |s.workers| && t in s.tasks && a.Return?
    ensures Inv(DoAct(s, p, t, a), run, wait)
  {
    ReturnKeeps(s, p, t, run, wait);
  }

  lemma SyncParkAt(s: State, p: nat, t: TaskId, a: Action, run: RunMap, wait: WaitMap)
    requires Inv(s, run, wait) && Acting(s, p) == Some(t) && p < |s.workers| && t in s.tasks && a.SyncPark?
    ensures Inv(DoAct(s, p, t, a), run, wait[t := OnSync(a.q)])
  {
    assert DoAct(s, p, t, a) == DoSyncPark(s, t, a.q);
    SyncParkKeeps(s, p, t, a.q, run, wait);
  }

  lemma SleepAt(s: State, p: nat, t: TaskId, a: Action, run: RunMap, wait: WaitMap)
    requires Inv(s, run, wait) && Acting(s, p) == Some(t) && p < |s.workers| && t in s.tasks && a.Sleep?
    ensures Inv(DoAct(s, p, t, a), run, wait[t := OnTimer(p)])
  {
    assert DoAct(s, p, t, a) == DoSleep(s, p, t);
    SleepKeeps(s, p, t, run, wait);
  }

  lemma IoParkAt(s: State, p: nat, t: TaskId, a: Action, run: RunMap, wait: WaitMap) returns (wait': WaitMap)
    requires Inv(s, run, wait) && Acting(s, p) == Some(t) && p < |s.workers| && t in s.tasks && a.IoPark?
    ensures Inv(DoAct(s, p, t, a), run, wait')
  {
    assert DoAct(s, p, t, a) == DoIoPark(s, p, t);
    wait' := IoParkKeeps(s, p, t, run, wait);
  }

  lemma BodyKeeps(s: State, p: nat, t: TaskId, a: Action, run: RunMap, wait: WaitMap) returns (wait': WaitMap)
    requires Inv(s, run, wait) && Acting(s, p) == Some(t) && p < |s.workers| && t in s.tasks && Acts(a)
    ensures Inv(DoAct(s, p, t, a), run, wait')
  {
    wait' := wait;
    if a.Yield? {
      YieldAt(s, p, t, a, run, wait);
    } else if a.Join? {
      wait' := JoinAt(s, p, t, a, run, wait);
    } else if a.SyncPark? {
      SyncParkAt(s, p, t, a, run, wait);
      wait' := wait[t := OnSync(a.q)];
    } else if a.Sleep? {
      SleepAt(s, p, t, a, run, wait);
      wait' := wait[t := OnTimer(p)];
    } else if a.IoPark? {
      wait' := IoParkAt(s, p, t, a, run, wait);
    } else {
      ReturnAt(s, p, t, a, run, wait);
    }
  }

  lemma LoopKeeps(s: State, p: nat, a: Action, run: RunMap, wait: WaitMap)
    requires Inv(s, run, wait) && p < |s.workers| && (a.Enter? || a.LoopCheck?)
    ensures Inv(DoScan(s, p, a), run, wait)
  {
    if DoScan(s, p, a) != s {
      PhaseMove(s, p, DoScan(s, p, a).workers[p].phase, run, wait);
    }
  }

  lemma ScanKeepsAt(s: State, p: nat, a: Action, run: RunMap, wait: WaitMap) returns (run': RunMap)
    requires Inv(s, run, wait) && p < |s.workers| && Scans(a)
    ensures Inv(DoScan(s, p, a), run', wait)
  {
    run' := run;
    if a.PopLocal? {
      assert DoScan(s, p, a) == DoPopLocal(s, p);
      run' := PopLocalKeeps(s, p, run, wait);
    } else if a.ClearQueued? {
      assert DoScan(s, p, a) == DoClearQueued(s, p);
      ClearQueuedKeeps(s, p, run, wait);
    } else {
      LoopKeeps(s, p, a, run, wait);
    }
  }

  lemma TakeKeepsAt(s: State, p: nat, a: Action, run: RunMap, wait: WaitMap) returns (run': RunMap)
    requires Inv(s, run, wait) && p < |s.workers| && Takes(a)
    ensures Inv(DoTake(s, p, a), run', wait)
  {
    match a {
      case TakeGlobal(_, room) =>
        assert DoTake(s, p, a) == DoTakeGlobal(s, p, room);
        run' := TakeGlobalKeeps(s, p, room, run, wait);
      case StealOne(_, victim) =>
        assert DoTake(s, p, a) == DoStealOne(s, p, victim);
        run' := StealOneKeeps(s, p, victim, run, wait);
      case StealDone(_, accepted) =>
        assert DoTake(s, p, a) == DoStealDone(s, p, accepted);
        run' := StealDoneKeeps(s, p, accepted, run, wait);
    }
  }

  lemma DispatchKeepsAt(s: State, p: nat, a: Action, run: RunMap, wait: WaitMap) returns (run': RunMap)
    requires Inv(s, run, wait) && p < |s.workers| && Dispatches(a)
    ensures Inv(DoDispatch(s, p, a), run', wait)
  {
    run' := run;
    match a {
      case BeginExecute(_) => run' := BeginExecuteKeeps(s, p, run, wait);
      case CheckCancelled(_) => CheckCancelledKeeps(s, p, run, wait);
      case Resume(_, ok) => ResumeKeeps(s, p, ok, run, wait);
      case Suspend(_) => SuspendKeeps(s, p, run, wait);
    }
  }

  lemma IdleKeepsAt(s: State, p: nat, a: Action, run: RunMap, wait: WaitMap)
    requires Inv(s, run, wait) && p < |s.workers| && (a.IdleEnter? || a.IdleLeave?)
    ensures Inv(DoRest(s, p, a), run, wait)
  {
    if a.IdleEnter? {
      IdleEnterKeeps(s, p, run, wait);
    } else {
      IdleLeaveKeeps(s, p, run, wait);
    }
  }

  lemma RootAt(s: State, p: nat, a: Action, run: RunMap, wait: WaitMap) returns (run': RunMap, wait': WaitMap)
    requires Inv(s, run, wait) && p < |s.workers| && a.Root?
    ensures Inv(DoRest(s, p, a), run', wait')
  {
    assert DoRest(s, p, a) == DoRoot(s, p, a.fits);
    run', wait' := RootKeeps(s, p, a.fits, run, wait);
  }

  lemma TimerAt(s: State, p: nat, a: Action, run: RunMap, wait: WaitMap) returns (run': RunMap, wait': WaitMap)
    requires Inv(s, run, wait) && p < |s.workers| && a.TimerFire?
    ensures Inv(DoRest(s, p, a), run', wait')
  {
    assert DoRest(s, p, a) == DoTimerFire(s, p, a.t);
    run', wait' := TimerFireKeeps(s, p, a.t, run, wait);
  }

  lemma AtKeeps(s: State, p: nat, a: Action, run: RunMap, wait: WaitMap) returns (run': RunMap, wait': WaitMap)
    requires Inv(s, run, wait) && p < |s.workers| && OfWorker(a)
    ensures Inv(DoAt(s, p, a), run', wait')
  {
    run', wait' := run, wait;
    if Scans(a) {
      run' := ScanKeepsAt(s, p, a, run, wait);
    } else if Takes(a) {
      run' := TakeKeepsAt(s, p, a, run, wait);
    } else if Dispatches(a) {
      run' := DispatchKeepsAt(s, p, a, run, wait);
    } else if a.IdleEnter? || a.IdleLeave? {
      IdleKeepsAt(s, p, a, run, wait);
    } else if a.Root? {
      run', wait' := RootAt(s, p, a, run, wait);
    } else if a.TimerFire? {
      run', wait' := TimerAt(s, p, a, run, wait);
    } else if Acting(s, p).Some? {
      wait' := BodyKeeps(s, p, Acting(s, p).value, a, run, wait);
    }
  }

  lemma EndOfRunKeeps(s: State, run: RunMap, wait: WaitMap) returns (wait': WaitMap)
    requires Inv(s, run, wait)
    ensures Inv(DoFinishRun(s), run, wait)
    ensures Inv(DoCancelAll(s), run, wait')
  {
    wait' := wait;
    var phase := s.workers[0].phase;
    if phase.Draining? && s.active == 0 {
      PhaseMove(s, 0, if s.shutdown then Cancelling else Off, run, wait);
    }
    if phase.Cancelling? {
      wait' := CancelListKeeps(s, s.all, run, wait);
      PhaseMove(CancelList(s, s.all), 0, Off, run, wait');
    }
  }

  lemma RuntimeKeeps(s: State, a: Action, run: RunMap, wait: WaitMap) returns (run': RunMap, wait': WaitMap)
    requires Inv(s, run, wait) && !OfWorker(a)
    ensures Inv(DoRuntime(s, a), run', wait')
  {
    run', wait' := run, wait;
    match a {
      case RunStart => RunStartKeeps(s, run, wait);
      case FinishRun => var w := EndOfRunKeeps(s, run, wait);
      case CancelAll => wait' := EndOfRunKeeps(s, run, wait);
      case RequestShutdown => RequestShutdownKeeps(s, run, wait);
      case Spawn(t, who) => run', wait' := SpawnKeeps(s, t, who, run, wait);
      case SyncWake(q) => run', wait' := SyncWakeKeeps(s, q, run, wait);
      case IoComplete(t) => run', wait' := IoCompleteKeeps(s, t, run, wait);
    }
  }

  /** Every action of every thread keeps the invariant. */
  lemma StepKeeps(s: State, a: Action, run: RunMap, wait: WaitMap) returns (run': RunMap, wait': WaitMap)
    requires Inv(s, run, wait)
    ensures Inv(Do(s, a), run', wait')
  {
    run', wait' := run, wait;
    if !OfWorker(a) {
      run', wait' := RuntimeKeeps(s, a, run, wait);
    } else if a.p < |s.workers| {
      run', wait' := AtKeeps(s, a.p, a, run, wait);
    }
  }

  // --------------------------------------------------------------------- runs

  ghost predicate Reaches(s: State, actions: seq<Action>, last: State)
  {
    Path(Do, s, actions, last)
  }

  lemma InitialInv(workers: nat)
    requires workers > 0
    ensures Inv(Initial(workers), map[], map[])
  {
    var s := Initial(workers);
    forall t, place
      ensures RunCount(s.global, s.workers, t, place) == 0
    {
      match place {
        case InLocal(p) =>
        case _ =>
      }
    }
    forall t, place
      ensures WaitCount(s, t, place) == 0
    {
    }
    NoTimers(s.workers);
    assert Executing(s.workers) == {};
    assert IdleSet(s.workers) == {};
    assert Live(s.tasks) == DoneTasks(s.tasks) == CancelledTasks(s.tasks) == IoTasks(s.tasks) == {};
  }

  lemma {:induction false} NoTimers(ws: seq<Worker>)
    requires forall p :: 0 <= p < |ws| ==> ws[p].timers == {}
    ensures TimerTotal(ws) == 0
  {
    if ws != [] {
      NoTimers(ws[..|ws| - 1]);
    }
  }

  lemma {:induction false} RunKeeps(s: State, actions: seq<Action>, last: State, run: RunMap, wait: WaitMap)
    returns (run': RunMap, wait': WaitMap)
    requires Inv(s, run, wait) && Reaches(s, actions, last)
    ensures Inv(last, run', wait')
    decreases |actions|
  {
    run', wait' := run, wait;
    if actions != [] {
      run', wait' := StepKeeps(s, actions[0], run, wait);
      run', wait' := RunKeeps(Do(s, actions[0]), actions[1..], last, run', wait');
    }
  }

  /** s can be reached from a fresh runtime with the given number of workers. */
  ghost predicate Reachable(workers: nat, s: State)
  {
    workers > 0 && exists actions :: Reaches(Initial(workers), actions, s)
  }

  lemma ReachableInv(workers: nat, s: State) returns (run: RunMap, wait: WaitMap)
    requires Reachable(workers, s)
    ensures Inv(s, run, wait)
  {
    var actions :| Reaches(Initial(workers), actions, s);
    InitialInv(workers);
    run, wait := RunKeeps(Initial(workers), actions, s, map[], map[]);
  }

  // ------------------------------------------------------- one place, one worker

  /** t sits in a runnable queue, in a thief's batch, or was just popped. */
  ghost predicate SitsQueued(s: State, t: TaskId)
  {
    || t in s.global
    || exists p :: 0 <= p < |s.workers| &&
         (t in s.workers[p].local ||
          ((s.workers[p].phase.Stealing? || s.workers[p].phase.Popped?) && t in Holding(s.workers[p].phase)))
  }

  ghost predicate ExecutedBy(s: State, t: TaskId, p: nat)
  {
    p < |s.workers| && Executes(s.workers[p].phase) && t in Holding(s.workers[p].phase)
  }

  /** In every reachable state a task occurs at most once over all runnable
      queues and workers' hands. */
  lemma AtMostOnePlace(workers: nat, s: State, t: TaskId, a: RunPlace, b: RunPlace)
    requires Reachable(workers, s)
    ensures RunCount(s.global, s.workers, t, a) <= 1
    ensures RunCount(s.global, s.workers, t, a) == RunCount(s.global, s.workers, t, b) == 1 ==> a == b
  {
    var run, wait := ReachableInv(workers, s);
    assert RunCount(s.global, s.workers, t, a) == Once(!a.Nowhere? && t in run && run[t] == a);
    assert RunCount(s.global, s.workers, t, b) == Once(!b.Nowhere? && t in run && run[t] == b);
  }

  /** The queued flag is set exactly while the task sits in a queue, and the
      executing flag exactly while one worker, and only one, runs it. */
  lemma FlagsAreExact(workers: nat, s: State, t: TaskId)
    requires Reachable(workers, s) && t in s.tasks
    ensures s.tasks[t].queued <==> SitsQueued(s, t)
    ensures s.tasks[t].executing <==> exists p :: ExecutedBy(s, t, p)
    ensures forall p, q :: ExecutedBy(s, t, p) && ExecutedBy(s, t, q) ==> p == q
  {
    var run, wait := ReachableInv(workers, s);
    assert TaskOk(s, run, wait, t);
    HeldBy(s.global, s.workers, 0, t, run);
    forall p | 0 <= p < |s.workers|
      ensures run[t] == Held(p) <==> t in Holding(s.workers[p].phase)
      ensures run[t] == InLocal(p) <==> t in s.workers[p].local
    {
      HeldBy(s.global, s.workers, p, t, run);
    }
    if run[t].Held? {
      assert ExecutedBy(s, t, run[t].p) <==> Executes(s.workers[run[t].p].phase);
    }
  }

  /** A terminal task is run by no worker and, until a shutdown cancels tasks
      where they are, is in no queue, no hand and no wait structure. */
  lemma TerminalIsNowhere(workers: nat, s: State, t: TaskId, a: RunPlace, b: WaitPlace)
    requires Reachable(workers, s) && t in s.tasks && Terminal(s.tasks[t].state)
    ensures !s.tasks[t].executing && forall p :: !ExecutedBy(s, t, p)
    ensures s.tasks[t].state.Done? || !s.shutdown ==>
              RunCount(s.global, s.workers, t, a) == 0 && WaitCount(s, t, b) == 0
  {
    FlagsAreExact(workers, s, t);
    var run, wait := ReachableInv(workers, s);
    assert TaskOk(s, run, wait, t);
    assert RunCount(s.global, s.workers, t, a) == Once(!a.Nowhere? && run[t] == a);
    assert WaitCount(s, t, b) == Once(!b.NotWaiting? && wait[t] == b);
  }

  // ------------------------------------------------------------ no lost wake-up

  ghost predicate RunnableSomewhere(s: State, t: TaskId)
  {
    exists a :: RunCount(s.global, s.workers, t, a) == 1
  }

  ghost predicate RegisteredSomewhere(s: State, t: TaskId)
  {
    exists b :: WaitCount(s, t, b) == 1
  }

  /** A wake that arrived while the task still had its thread takes effect at the
      root: the task is runnable and queued. */
  lemma PendingWakeRequeues(workers: nat, s: State, p: nat, fits: bool)
    requires Reachable(workers, s) && p < |s.workers|
    requires s.workers[p].phase.Returned? && s.workers[p].phase.outcome.FiberSuspended?
    requires s.workers[p].phase.task in s.tasks && s.tasks[s.workers[p].phase.task].wakePending
    ensures var t := s.workers[p].phase.task;
            var s' := DoRoot(s, p, fits);
            t in s'.tasks && s'.tasks[t].state.Runnable? && t in s'.global && !s'.tasks[t].wakePending
  {
    var run, wait := ReachableInv(workers, s);
    ReturnedIs(s, p, run, wait);
    RootIs(s, p, fits);
    RootRequeueIs(s, p, fits);
  }

  // ------------------------------------------------------------------- affinity

  /** A started task is in no deque and no thief's hands, and only the processor
      that created its fiber has it to run. */
  lemma FiberAffinity(workers: nat, s: State, t: TaskId)
    requires Reachable(workers, s) && t in s.tasks && s.tasks[t].fiber.Some?
    ensures forall p :: 0 <= p < |s.workers| ==> t !in s.workers[p].local
    ensures forall p :: 0 <= p < |s.workers| && t in Holding(s.workers[p].phase) ==>
              p == s.tasks[t].fiber.value && !s.workers[p].phase.Stealing? && !s.workers[p].phase.Popped?
  {
    var run, wait := ReachableInv(workers, s);
    assert TaskOk(s, run, wait, t);
    forall p | 0 <= p < |s.workers|
      ensures t !in s.workers[p].local
      ensures t in Holding(s.workers[p].phase) ==>
                p == s.tasks[t].fiber.value && !s.workers[p].phase.Stealing? && !s.workers[p].phase.Popped?
    {
      HeldBy(s.global, s.workers, p, t, run);
    }
  }

  // ------------------------------------------------------------------- counters

  lemma EveryTaskCounted(tasks: map<TaskId, Task>)
    ensures |tasks.Keys| == |Live(tasks)| + |DoneTasks(tasks)| + |CancelledTasks(tasks)|
  {
    var live, done, cancelled := Live(tasks), DoneTasks(tasks), CancelledTasks(tasks);
    assert tasks.Keys == live + done + cancelled;
    assert live !! done && (live + done) !! cancelled;
  }

  /** The counters agree with the sets they summarise, and every spawned task is
      live, completed or cancelled. */
  lemma CountersAgree(workers: nat, s: State)
    requires Reachable(workers, s)
    ensures s.live == |Live(s.tasks)| && s.completed == |DoneTasks(s.tasks)|
    ensures s.cancelled == |CancelledTasks(s.tasks)| && s.ioWaiting == |IoTasks(s.tasks)|
    ensures s.timerCount == TimerTotal(s.workers) && s.active == |Executing(s.workers)|
    ensures s.idleWorkers <= |IdleSet(s.workers)|
    ensures s.spawned == s.live + s.completed + s.cancelled
  {
    var run, wait := ReachableInv(workers, s);
    EveryTaskCounted(s.tasks);
  }
}
