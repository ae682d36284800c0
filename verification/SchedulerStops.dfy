/** Stopping: when the scheduler's deadlock verdict can be believed, and how a
    task can be lost between two runs.

    A worker that saw the running flag set goes on with its iteration after the
    run has stopped.  If a task is spawned then, that worker takes it from the
    global queue, finds the run off, and lets it go.  Such a spawn is the only
    way to lose a task, and it always can. */
module SchedulerStops {
  import opened Common
  import opened GlobalQueue
  import opened Scheduler
  import opened SchedulerInvariant
  import opened SchedulerSteps
  import opened SchedulerWaits
  import opened SchedulerExecution
  import opened SchedulerTheorems
  import opened SchedulerJoins

  /** The worker has yet to finish the scan it began while the run was on. */
  predicate Scanning(phase: Phase)
  {
    phase.TryLocal? || phase.TryGlobal?
  }

  /** A task spawned now cannot fall to a worker left over from a stopped run. */
  predicate SafeToSpawn(s: State)
  {
    s.running || forall p :: 0 <= p < |s.workers| ==> !Scanning(s.workers[p].phase)
  }

  predicate SafeAction(s: State, a: Action)
  {
    !a.RequestShutdown? && (a.Spawn? && MaySpawn(s, a.who) ==> SafeToSpawn(s))
  }

  predicate WorkerQuiet(w: Worker, noneLive: bool)
  {
    w.local == [] && Holding(w.phase) == [] && (noneLive || !Scanning(w.phase))
  }

  ghost predicate Quiet(s: State)
  {
    forall p {:trigger s.workers[p]} :: 0 <= p < |s.workers| ==> WorkerQuiet(s.workers[p], s.live == 0)
  }

  /** No task is lost, and a stopped run leaves no worker with anything. */
  ghost predicate Sound(s: State)
  {
    !s.shutdown && s.lost == {} && (s.running || Quiet(s))
  }

  // ---------------------------------------------------------------- stopping

  lemma NoneLiveEmpty(s: State, run: RunMap, wait: WaitMap, p: nat)
    requires Inv(s, run, wait) && !s.shutdown && s.live == 0 && p < |s.workers|
    ensures s.global == [] && s.workers[p].local == [] && Holding(s.workers[p].phase) == []
  {
    forall t | t in s.tasks
      ensures run[t] == Nowhere
    {
      assert TaskOk(s, run, wait, t);
      assert t !in Live(s.tasks);
    }
    EmptyIfNone(s.global, s.workers, p, run);
  }

  lemma EmptyIfNone(global: seq<TaskId>, ws: seq<Worker>, p: nat, run: RunMap)
    requires RunPlaced(global, ws, run) && p < |ws|
    requires forall t :: t in run ==> run[t] == Nowhere
    ensures global == [] && ws[p].local == [] && Holding(ws[p].phase) == []
  {
    if global != [] {
      HeldBy(global, ws, p, global[0], run);
    }
    if ws[p].local != [] {
      HeldBy(global, ws, p, ws[p].local[0], run);
    }
    if Holding(ws[p].phase) != [] {
      HeldBy(global, ws, p, Holding(ws[p].phase)[0], run);
    }
  }

  lemma NoneLiveQuiet(s: State, run: RunMap, wait: WaitMap)
    requires Inv(s, run, wait) && !s.shutdown && s.live == 0
    ensures Quiet(s)
  {
    forall p | 0 <= p < |s.workers|
      ensures WorkerQuiet(s.workers[p], true)
    {
      NoneLiveEmpty(s, run, wait, p);
    }
  }

  lemma {:induction false} UpTo(n: nat, a: set<nat>)
    requires forall p :: p in a ==> p < n
    requires |a| >= n
    ensures forall p :: 0 <= p < n ==> p in a
  {
    if n > 0 {
      if n - 1 !in a {
        Bounded(n - 1, a);
        assert false;
      }
      UpTo(n - 1, a - {n - 1});
      forall p | 0 <= p < n
        ensures p in a
      {
        assert p < n - 1 ==> p in a - {n - 1};
      }
    }
  }

  lemma {:induction false} Bounded(n: nat, a: set<nat>)
    requires forall p :: p in a ==> p < n
    ensures |a| <= n
  {
    if n > 0 {
      Bounded(n - 1, a - {n - 1});
    } else {
      assert a == {};
    }
  }

  lemma AllIdle(s: State)
    requires WorkersOk(s) && s.idleWorkers == |s.workers|
    ensures forall p :: 0 <= p < |s.workers| ==> s.workers[p].phase.Idling?
  {
    UpTo(|s.workers|, IdleSet(s.workers));
    forall p | 0 <= p < |s.workers|
      ensures s.workers[p].phase.Idling?
    {
      assert p in IdleSet(s.workers);
      assert WorkerOk(s.workers[p], |s.workers| == 1, s.shutdown);
    }
  }

  /** The verdict step: running goes off with every worker idle and every deque
      empty. */
  lemma VerdictIs(s: State, p: nat, run: RunMap, wait: WaitMap)
    requires Inv(s, run, wait) && p < |s.workers| && s.running && !DoIdleEnter(s, p).running
    ensures var s' := DoIdleEnter(s, p);
            && s'.deadlock && s'.global == [] && s'.timerCount == 0 && s'.ioWaiting == 0
            && s'.tasks == s.tasks && s'.lost == s.lost && s'.shutdown == s.shutdown
            && (forall q :: 0 <= q < |s'.workers| ==> s'.workers[q].phase.Idling? && s'.workers[q].local == [])
  {
    var s' := DoIdleEnter(s, p);
    assert s.workers[p].phase.TrySteal?;
    assert WorkerOk(s.workers[p], |s.workers| == 1, s.shutdown);
    IdleEnterIs(s, p);
    IdleEnterKeeps(s, p, run, wait);
    AllIdle(s');
    var s1 := Idle(s, p);
    forall q | 0 <= q < |s'.workers|
      ensures s'.workers[q].local == []
    {
      assert s1.workers[q].local == [];
    }
  }

  /** When the run is stopped as deadlocked, every live task waits on a join list
      or a synchronization queue: none is runnable, running, sleeping, waiting
      for I/O or in anyone's hands. */
  lemma VerdictSound(s: State, p: nat, run: RunMap, wait: WaitMap, t: TaskId)
    requires Inv(s, run, wait) && Sound(s) && p < |s.workers| && s.running && !DoIdleEnter(s, p).running
    requires t in s.tasks && !Terminal(s.tasks[t].state)
    ensures s.tasks[t].state.Waiting? && !s.tasks[t].executing && !s.tasks[t].waitingForIo
    ensures exists b: WaitPlace :: (b.OnJoin? || b.OnSync?) && WaitCount(DoIdleEnter(s, p), t, b) == 1
    ensures !RunnableSomewhere(DoIdleEnter(s, p), t)
  {
    var s' := DoIdleEnter(s, p);
    VerdictIs(s, p, run, wait);
    IdleEnterKeeps(s, p, run, wait);
    assert TaskOk(s', run, wait, t);
    assert run[t] == Nowhere by {
      if run[t] == InGlobal {
        HeldBy(s'.global, s'.workers, p, t, run);
      } else if run[t].InLocal? || run[t].Held? {
        HeldBy(s'.global, s'.workers, run[t].p, t, run);
      }
    }
    forall a
      ensures RunCount(s'.global, s'.workers, t, a) == 0
    {
      assert RunCount(s'.global, s'.workers, t, a) == Once(!a.Nowhere? && run[t] == a);
    }
    assert WaitCount(s', t, wait[t]) == Once(!wait[t].NotWaiting?);
    if wait[t].OnTimer? {
      TimerSome(s'.workers, wait[t].p);
    }
    assert !s.tasks[t].waitingForIo by {
      assert t in s.tasks && s.tasks[t].waitingForIo ==> t in IoTasks(s.tasks);
    }
  }

  lemma {:induction false} TimerSome(ws: seq<Worker>, p: nat)
    requires p < |ws| && ws[p].timers != {}
    ensures TimerTotal(ws) > 0
  {
    if p < |ws| - 1 {
      TimerSome(ws[..|ws| - 1], p);
    }
  }

  // -------------------------------------------------------------------- frames

  /** Only the tasks and the tail of the global queue differ. */
  ghost predicate OnlyWakes(s: State, s': State)
  {
    s' == s.(tasks := s'.tasks, global := s'.global) && s.global <= s'.global
  }

  lemma WakeFrame(s: State, t: TaskId)
    requires t in s.tasks
    ensures OnlyWakes(s, Wake(s, t))
  {
  }

  lemma {:induction false} WakeJoinersFrame(s: State, u: TaskId)
    requires u in s.tasks
    ensures OnlyWakes(s, WakeJoiners(s, u))
    decreases |s.tasks[u].waiters|
  {
    if s.tasks[u].waiters != [] {
      var s1 := JoinerTaken(s, u);
      var t := s.tasks[u].waiters[0];
      if t in s1.tasks {
        WakeFrame(s1, t);
      }
      JoinerLeft(s, u);
      WakeJoinersFrame(WakeJoiner(s, u), u);
    }
  }

  /** What settling a task cannot touch. */
  lemma SettleFrame(s: State, p: nat, t: TaskId, outcome: Outcome, fits: bool)
    requires p < |s.workers| && t in s.tasks
    ensures var s' := Settle(s, p, t, outcome, fits);
            && s'.running == s.running && s'.lost == s.lost && s'.shutdown == s.shutdown
            && s.global <= s'.global
            && |s'.workers| == |s.workers| && s'.workers[p].phase == s.workers[p].phase
  {
    if outcome.FiberDone? {
      WakeJoinersFrame(WithTask(s, t, s.tasks[t].(state := Done, fiber := None)), t);
    } else if outcome.FiberSuspended? {
      EnqueueFrame(WithTask(s, t, s.tasks[t].(wakePending := false, state := Runnable)), p, t, fits);
      EnqueueFrame(s, p, t, fits);
    }
  }

  lemma EnqueueFrame(s: State, p: nat, t: TaskId, fits: bool)
    requires p < |s.workers| && t in s.tasks
    ensures var s' := EnqueueLocal(s, p, t, fits);
            && s'.running == s.running && s'.lost == s.lost && s'.shutdown == s.shutdown
            && s.global <= s'.global
            && |s'.workers| == |s.workers| && s'.workers[p].phase == s.workers[p].phase
  {
  }

  lemma RootFrame(s: State, p: nat, fits: bool)
    requires p < |s.workers|
    ensures var s' := DoRoot(s, p, fits);
            && s'.lost == s.lost && s'.shutdown == s.shutdown
            && (s'.running == s.running || s'.live == 0)
            && s.global <= s'.global && |s'.workers| == |s.workers|
            && (s' == s || s'.workers[p].phase.LoopTop?)
  {
    var phase := s.workers[p].phase;
    if phase.Returned? && phase.task in s.tasks {
      var t := phase.task;
      var s1 := WithPhase(WithTask(s, t, s.tasks[t].(executing := false)).(active := s.active - 1), p, LoopTop);
      SettleFrame(s1, p, t, phase.outcome, fits);
    }
  }

  lemma ActFrame(s: State, p: nat, t: TaskId, a: Action)
    requires p < |s.workers| && t in s.tasks
    ensures var s' := DoAct(s, p, t, a);
            && s'.lost == s.lost && s'.shutdown == s.shutdown && s'.running == s.running
            && s'.global == s.global && s'.live == s.live && |s'.workers| == |s.workers|
  {
  }

  /** The actions after which the run is as it was before. */
  predicate Plain(a: Action)
  {
    !a.Root? && !a.TimerFire? && !a.CheckCancelled? && !a.BeginExecute? && !a.IdleEnter?
  }

  predicate SameRun(s: State, s': State)
  {
    && s'.lost == s.lost && s'.shutdown == s.shutdown && s'.running == s.running && s'.live == s.live
    && |s'.workers| == |s.workers|
  }

  predicate Grows(s: State, s': State)
  {
    SameRun(s, s') && s.global <= s'.global
  }

  lemma TakeFrame(s: State, p: nat, room: nat)
    requires p < |s.workers|
    ensures SameRun(s, DoTakeGlobal(s, p, room))
  {
  }

  lemma StealFrame(s: State, p: nat, victim: nat, fits: set<TaskId>)
    requires p < |s.workers|
    ensures Grows(s, DoStealOne(s, p, victim))
    ensures Grows(s, DoStealDone(s, p, fits))
  {
  }

  lemma LocalFrame(s: State, p: nat)
    requires p < |s.workers|
    ensures Grows(s, DoPopLocal(s, p))
    ensures Grows(s, DoClearQueued(s, p))
  {
  }

  lemma ResumeFrame(s: State, p: nat, ok: bool)
    requires p < |s.workers|
    ensures Grows(s, DoResume(s, p, ok))
  {
  }

  lemma LeaveFrame(s: State, p: nat)
    requires p < |s.workers|
    ensures Grows(s, DoSuspend(s, p))
    ensures Grows(s, DoIdleLeave(s, p))
  {
  }

  lemma ScanFrame(s: State, p: nat, a: Action)
    requires p < |s.workers| && Scans(a)
    ensures Grows(s, DoScan(s, p, a))
  {
    LocalFrame(s, p);
  }

  lemma TakesFrame(s: State, p: nat, a: Action)
    requires p < |s.workers| && Takes(a)
    ensures SameRun(s, DoTake(s, p, a))
    ensures !a.TakeGlobal? ==> s.global <= DoTake(s, p, a).global
  {
    match a {
      case TakeGlobal(_, room) => TakeFrame(s, p, room);
      case StealOne(_, victim) => StealFrame(s, p, victim, {});
      case StealDone(_, fits) => StealFrame(s, p, 0, fits);
    }
  }

  lemma ResumesFrame(s: State, p: nat, a: Action)
    requires p < |s.workers| && (a.Resume? || a.Suspend?)
    ensures Grows(s, DoDispatch(s, p, a))
  {
    LeaveFrame(s, p);
    ResumeFrame(s, p, if a.Resume? then a.ok else true);
  }

  lemma PlainFrame(s: State, p: nat, a: Action)
    requires p < |s.workers| && Plain(a)
    ensures SameRun(s, DoAt(s, p, a))
    ensures !a.TakeGlobal? ==> s.global <= DoAt(s, p, a).global
  {
    if Scans(a) {
      ScanFrame(s, p, a);
    } else if Takes(a) {
      TakesFrame(s, p, a);
    } else if a.Resume? || a.Suspend? {
      ResumesFrame(s, p, a);
    } else if a.IdleLeave? {
      LeaveFrame(s, p);
    } else if Acts(a) && Acting(s, p).Some? {
      ActFrame(s, p, Acting(s, p).value, a);
    }
  }

  lemma TimerFrame(s: State, p: nat, t: TaskId)
    requires p < |s.workers|
    ensures var s' := DoTimerFire(s, p, t);
            && s'.lost == s.lost && s'.shutdown == s.shutdown && s'.running == s.running && s'.live == s.live
            && s.global <= s'.global && |s'.workers| == |s.workers|
            && forall q :: 0 <= q < |s.workers| ==>
                 s'.workers[q].phase == s.workers[q].phase && s'.workers[q].local == s.workers[q].local
  {
    if t in s.workers[p].timers && t in s.tasks {
      WakeFrame(TimerTaken(s, p, t), t);
    }
  }

  predicate Goes(s: State, s': State, p: nat, a: Action)
    requires p < |s.workers|
  {
    && s'.lost == s.lost && !s'.shutdown
    && (s'.running || s'.live == 0 || (a.IdleEnter? && s' == DoIdleEnter(s, p)))
  }

  lemma RestFrame(s: State, p: nat, a: Action)
    requires s.running && !s.shutdown && p < |s.workers| && (a.Root? || a.TimerFire? || a.IdleEnter?)
    ensures Goes(s, DoRest(s, p, a), p, a)
  {
    match a {
      case Root(_, fits) => RootFrame(s, p, fits);
      case TimerFire(_, t) => TimerFrame(s, p, t);
      case IdleEnter(_) =>
    }
  }

  lemma BeginFrame(s: State, p: nat, a: Action)
    requires s.running && !s.shutdown && p < |s.workers| && (a.CheckCancelled? || a.BeginExecute?)
    requires WorkerOk(s.workers[p], |s.workers| == 1, s.shutdown)
    ensures Goes(s, DoDispatch(s, p, a), p, a)
  {
  }

  lemma AtFrame(s: State, p: nat, a: Action)
    requires WorkersOk(s) && s.running && !s.shutdown && p < |s.workers|
    ensures Goes(s, DoAt(s, p, a), p, a)
  {
    if a.Root? || a.TimerFire? || a.IdleEnter? {
      RestFrame(s, p, a);
    } else if a.CheckCancelled? || a.BeginExecute? {
      assert WorkerOk(s.workers[p], |s.workers| == 1, s.shutdown);
      BeginFrame(s, p, a);
    } else {
      PlainFrame(s, p, a);
    }
  }

  lemma EventFrame(s: State, a: Action)
    requires WorkersOk(s) && !s.shutdown
    requires a.SyncWake? || a.IoComplete? || a.CancelAll? || a.FinishRun?
    ensures var s' := DoRuntime(s, a);
            && s'.lost == s.lost && !s'.shutdown && s'.running == s.running && s'.live == s.live
            && s.global <= s'.global
            && (a.FinishRun? || s'.workers == s.workers)
  {
    assert WorkerOk(s.workers[0], |s.workers| == 1, s.shutdown);
    match a {
      case SyncWake(q) =>
        var ws := Waiters(s, q);
        if ws != [] && ws[0] in s.tasks {
          WakeFrame(s.(syncs := s.syncs[q := ws[1..]]), ws[0]);
        }
      case IoComplete(t) =>
        if t in s.tasks && s.ioWaiting != 0 {
          WakeFrame(IoTaken(s, t), t);
        }
      case _ =>
    }
  }

  /** While the run is on, an action turns it off only when no task is left, or
      as deadlocked. */
  lemma OnFrame(s: State, a: Action)
    requires WorkersOk(s) && s.running && !s.shutdown && !a.RequestShutdown?
    ensures var s' := Do(s, a);
            && s'.lost == s.lost && !s'.shutdown
            && (s'.running || s'.live == 0 || (a.IdleEnter? && a.p < |s.workers| && s' == DoIdleEnter(s, a.p)))
  {
    if OfWorker(a) {
      if a.p < |s.workers| {
        AtFrame(s, a.p, a);
      }
    } else if a.SyncWake? || a.IoComplete? || a.CancelAll? || a.FinishRun? {
      EventFrame(s, a);
    }
  }

  lemma VerdictQuiet(s: State, p: nat, run: RunMap, wait: WaitMap)
    requires Inv(s, run, wait) && p < |s.workers| && s.running && !DoIdleEnter(s, p).running
    ensures Quiet(DoIdleEnter(s, p))
  {
    VerdictIs(s, p, run, wait);
  }

  lemma SoundWhileOn(s: State, a: Action, run: RunMap, wait: WaitMap, run': RunMap, wait': WaitMap)
    requires Inv(s, run, wait) && Sound(s) && s.running && !a.RequestShutdown? && Inv(Do(s, a), run', wait')
    ensures Sound(Do(s, a))
  {
    OnFrame(s, a);
    if Do(s, a).running {
    } else if Do(s, a).live == 0 {
      NoneLiveQuiet(Do(s, a), run', wait');
    } else {
      VerdictQuiet(s, a.p, run, wait);
    }
  }

  // --------------------------------------------------------- while the run is off

  lemma QuietMove(s: State, s': State, p: nat, phase: Phase)
    requires Sound(s) && !s.running && p < |s.workers|
    requires |s'.workers| == |s.workers|
    requires s'.workers == s.workers[p := s.workers[p].(phase := phase, idle := s'.workers[p].idle)]
    requires s'.lost == s.lost && s'.shutdown == s.shutdown && s'.running == s.running && s'.live == s.live
    requires Holding(phase) == [] && (Scanning(phase) ==> s.live == 0)
    ensures Sound(s')
  {
    assert WorkerQuiet(s.workers[p], s.live == 0);
  }

  lemma QuietTake(s: State, p: nat, room: nat, run: RunMap, wait: WaitMap)
    requires Inv(s, run, wait) && Sound(s) && !s.running && p < |s.workers|
    ensures Sound(DoTakeGlobal(s, p, room))
  {
    if s.workers[p].phase.TryGlobal? {
      assert WorkerQuiet(s.workers[p], s.live == 0);
      NoneLiveEmpty(s, run, wait, p);
      TakeNothingKeepsOrder(s.global, Eligible(s, p), Unstarted(s), |s.workers| > 1, room);
      var s' := DoTakeGlobal(s, p, room);
      assert s.workers[p].local + [] == s.workers[p].local;
      QuietMove(s, s', p, TrySteal);
    }
  }

  lemma QuietScan(s: State, p: nat, a: Action)
    requires Sound(s) && !s.running && p < |s.workers| && Scans(a)
    ensures Sound(DoScan(s, p, a))
  {
    var w := s.workers[p];
    assert WorkerQuiet(w, s.live == 0);
    var s' := DoScan(s, p, a);
    if a.LoopCheck? && w.phase.LoopTop? {
      QuietMove(s, s', p, s'.workers[p].phase);
    } else if a.PopLocal? && w.phase.TryLocal? {
      QuietMove(s, s', p, TryGlobal);
    }
  }

  lemma QuietTakes(s: State, p: nat, a: Action, run: RunMap, wait: WaitMap)
    requires Inv(s, run, wait) && Sound(s) && !s.running && p < |s.workers| && Takes(a)
    ensures Sound(DoTake(s, p, a))
  {
    assert WorkerQuiet(s.workers[p], s.live == 0);
    match a {
      case TakeGlobal(_, room) => QuietTake(s, p, room, run, wait);
      case StealOne(_, victim) =>
        if victim < |s.workers| {
          assert WorkerQuiet(s.workers[victim], s.live == 0);
        }
      case StealDone(_, _) =>
    }
  }

  lemma QuietDispatch(s: State, p: nat, a: Action)
    requires Sound(s) && !s.running && p < |s.workers| && Dispatches(a)
    requires WorkerOk(s.workers[p], |s.workers| == 1, s.shutdown)
    ensures DoDispatch(s, p, a) == s
  {
    assert WorkerQuiet(s.workers[p], s.live == 0);
  }

  lemma QuietRest(s: State, p: nat, a: Action)
    requires Sound(s) && !s.running && p < |s.workers| && Rests(a)
    requires WorkerOk(s.workers[p], |s.workers| == 1, s.shutdown)
    ensures Sound(DoRest(s, p, a))
  {
    var w := s.workers[p];
    assert WorkerQuiet(w, s.live == 0);
    var s' := DoRest(s, p, a);
    match a {
      case Root(_, _) =>
      case TimerFire(_, t) => QuietTimer(s, p, t);
      case IdleEnter(_) =>
        if w.phase.TrySteal? {
          QuietMove(s, s', p, LoopTop);
        }
      case IdleLeave(_) =>
        if w.phase.Idling? {
          QuietMove(s, s', p, LoopTop);
        }
    }
  }

  lemma QuietAt(s: State, p: nat, a: Action, run: RunMap, wait: WaitMap)
    requires Inv(s, run, wait) && Sound(s) && !s.running && p < |s.workers|
    ensures Sound(DoAt(s, p, a))
  {
    assert WorkerOk(s.workers[p], |s.workers| == 1, s.shutdown);
    if Scans(a) {
      QuietScan(s, p, a);
    } else if Takes(a) {
      QuietTakes(s, p, a, run, wait);
    } else if Dispatches(a) {
      QuietDispatch(s, p, a);
    } else if Rests(a) {
      QuietRest(s, p, a);
    } else {
      assert WorkerQuiet(s.workers[p], s.live == 0);
    }
  }

  lemma QuietTimer(s: State, p: nat, t: TaskId)
    requires Sound(s) && !s.running && p < |s.workers|
    ensures Sound(DoTimerFire(s, p, t))
  {
    TimerFrame(s, p, t);
    var s' := DoTimerFire(s, p, t);
    forall q | 0 <= q < |s'.workers|
      ensures WorkerQuiet(s'.workers[q], s'.live == 0)
    {
      assert WorkerQuiet(s.workers[q], s.live == 0);
    }
  }

  lemma QuietSpawn(s: State, t: TaskId, who: Caller)
    requires Sound(s) && !s.running && (MaySpawn(s, who) ==> SafeToSpawn(s))
    ensures Sound(DoSpawn(s, t, who))
  {
    var s' := DoSpawn(s, t, who);
    forall q | 0 <= q < |s'.workers|
      ensures WorkerQuiet(s'.workers[q], s'.live == 0)
    {
      assert WorkerQuiet(s.workers[q], s.live == 0);
    }
  }

  lemma QuietEvent(s: State, a: Action)
    requires WorkersOk(s) && Sound(s) && !s.running && !OfWorker(a) && SafeAction(s, a)
    ensures Sound(DoRuntime(s, a))
  {
    match a {
      case RunStart =>
      case Spawn(t, who) => QuietSpawn(s, t, who);
      case FinishRun =>
        EventFrame(s, a);
        if DoRuntime(s, a) != s {
          QuietMove(s, DoRuntime(s, a), 0, Off);
        }
      case CancelAll => EventFrame(s, a);
      case SyncWake(_) => EventFrame(s, a);
      case IoComplete(_) => EventFrame(s, a);
      case RequestShutdown =>
    }
  }

  lemma SoundWhileOff(s: State, a: Action, run: RunMap, wait: WaitMap)
    requires Inv(s, run, wait) && Sound(s) && !s.running && SafeAction(s, a)
    ensures Sound(Do(s, a))
  {
    if !OfWorker(a) {
      QuietEvent(s, a);
    } else if a.p < |s.workers| {
      QuietAt(s, a.p, a, run, wait);
    }
  }

  // ------------------------------------------------------------------ whole runs

  /** Every action of the run is safe: there is no shutdown, and no task is
      spawned while a worker left over from a stopped run is still scanning. */
  ghost predicate SafeRun(s: State, actions: seq<Action>)
    decreases |actions|
  {
    actions == [] ||
    (SafeAction(s, actions[0]) && SafeRun(Do(s, actions[0]), actions[1..]))
  }

  lemma SoundStep(s: State, a: Action, run: RunMap, wait: WaitMap) returns (run': RunMap, wait': WaitMap)
    requires Inv(s, run, wait) && Sound(s) && SafeAction(s, a)
    ensures Inv(Do(s, a), run', wait') && Sound(Do(s, a))
  {
    run', wait' := StepKeeps(s, a, run, wait);
    if s.running {
      SoundWhileOn(s, a, run, wait, run', wait');
    } else {
      SoundWhileOff(s, a, run, wait);
    }
  }

  lemma {:induction false} SafeRunSound(
      s: State, actions: seq<Action>, last: State, run: RunMap, wait: WaitMap)
    returns (run': RunMap, wait': WaitMap)
    requires Inv(s, run, wait) && Sound(s) && Reaches(s, actions, last) && SafeRun(s, actions)
    ensures Inv(last, run', wait') && Sound(last)
    decreases |actions|
  {
    run', wait' := run, wait;
    if actions != [] {
      run', wait' := SoundStep(s, actions[0], run, wait);
      run', wait' := SafeRunSound(Do(s, actions[0]), actions[1..], last, run', wait');
    }
  }

  lemma InitialSound(workers: nat)
    requires workers > 0
    ensures Sound(Initial(workers))
  {
  }

  lemma SafeRunInv(workers: nat, actions: seq<Action>, s: State) returns (run: RunMap, wait: WaitMap)
    requires workers > 0 && Reaches(Initial(workers), actions, s) && SafeRun(Initial(workers), actions)
    ensures Inv(s, run, wait) && Sound(s)
  {
    InitialInv(workers);
    InitialSound(workers);
    run, wait := SafeRunSound(Initial(workers), actions, s, map[], map[]);
  }

  /** A run whose spawns are all safe loses no task: every live task that no
      worker runs can be found, runnable or registered. */
  lemma SafeRunsLoseNothing(workers: nat, actions: seq<Action>, s: State, t: TaskId)
    requires workers > 0 && Reaches(Initial(workers), actions, s) && SafeRun(Initial(workers), actions)
    requires t in s.tasks && !Terminal(s.tasks[t].state) && !s.tasks[t].executing
    ensures s.lost == {}
    ensures RunnableSomewhere(s, t) <==> !RegisteredSomewhere(s, t)
    ensures forall u :: u in s.tasks && t in s.tasks[u].waiters ==> !s.tasks[u].state.Done?
  {
    var run, wait := SafeRunInv(workers, actions, s);
    NoLostWakeup(workers, s, t);
  }

  /** In such a run the deadlock verdict is sound. */
  lemma VerdictSoundInSafeRuns(workers: nat, actions: seq<Action>, s: State, p: nat, t: TaskId)
    requires workers > 0 && Reaches(Initial(workers), actions, s) && SafeRun(Initial(workers), actions)
    requires p < |s.workers| && s.running && !DoIdleEnter(s, p).running
    requires t in s.tasks && !Terminal(s.tasks[t].state)
    ensures s.tasks[t].state.Waiting? && !s.tasks[t].executing && !s.tasks[t].waitingForIo
    ensures exists b: WaitPlace :: (b.OnJoin? || b.OnSync?) && WaitCount(DoIdleEnter(s, p), t, b) == 1
    ensures !RunnableSomewhere(DoIdleEnter(s, p), t)
  {
    var run, wait := SafeRunInv(workers, actions, s);
    VerdictSound(s, p, run, wait, t);
  }
}
