/** How tasks end, over whole runs: an ended task stays as it is, a task that is
    done has woken everyone joined on it, and a task that was cancelled has not. */
module SchedulerJoins {
  import opened Common
  import opened GlobalQueue
  import opened Scheduler
  import opened SchedulerInvariant
  import opened SchedulerWaits
  import opened SchedulerExecution
  import opened SchedulerTheorems

  // ----------------------------------------------------------------- finality

  /** A task before and after: once ended it stays as it is, it does not become done,
      and nobody leaves its join list. */
  predicate Same(task: Task, task': Task)
  {
    && (Terminal(task.state) ==> task'.state == task.state && task'.waiters == task.waiters)
    && (task'.state.Done? ==> task.state.Done?)
    && task.waiters <= task'.waiters
  }

  /** Or it was running, is done now, and nobody is joined on it any more. */
  predicate Ends(task: Task, task': Task)
  {
    task.state.Running? && task'.state.Done? && task'.waiters == []
  }

  predicate Stays(tasks: map<TaskId, Task>, tasks': map<TaskId, Task>, t: TaskId)
  {
    if t in tasks then t in tasks' && Same(tasks[t], tasks'[t])
    else t in tasks' ==> !Terminal(tasks'[t].state) && tasks'[t].waiters == []
  }

  predicate Follows(tasks: map<TaskId, Task>, tasks': map<TaskId, Task>, t: TaskId)
  {
    Stays(tasks, tasks', t) || (t in tasks && t in tasks' && Ends(tasks[t], tasks'[t]))
  }

  lemma StaysTwice(m: map<TaskId, Task>, m': map<TaskId, Task>, m'': map<TaskId, Task>, t: TaskId)
    requires Stays(m, m', t) && Stays(m', m'', t) && (t in m' ==> t in m)
    ensures Stays(m, m'', t)
  {
  }

  lemma WakeStays(s: State, u: TaskId, t: TaskId)
    requires u in s.tasks
    ensures Stays(s.tasks, Wake(s, u).tasks, t)
  {
    WakeTasks(s, u);
  }

  lemma JoinerTasks(s: State, u: TaskId)
    requires u in s.tasks && s.tasks[u].waiters != []
    ensures var m, v := JoinerTaken(s, u).tasks, s.tasks[u].waiters[0];
            WakeJoiner(s, u).tasks == if v in m then m[v := AfterWake(m[v])] else m
  {
    if s.tasks[u].waiters[0] in JoinerTaken(s, u).tasks {
      WakeTasks(JoinerTaken(s, u), s.tasks[u].waiters[0]);
    }
  }

  lemma {:induction false} WakeJoinersStay(s: State, u: TaskId, t: TaskId)
    requires u in s.tasks && t != u
    ensures Stays(s.tasks, WakeJoiners(s, u).tasks, t)
    decreases |s.tasks[u].waiters|
  {
    if s.tasks[u].waiters != [] {
      JoinerTasks(s, u);
      JoinerLeft(s, u);
      WakeJoinersStay(WakeJoiner(s, u), u, t);
      StaysTwice(s.tasks, WakeJoiner(s, u).tasks, WakeJoiners(WakeJoiner(s, u), u).tasks, t);
    }
  }

  /** Waking the joiners of a task that is done empties its list. */
  lemma {:induction false} WakeJoinersEmpty(s: State, u: TaskId)
    requires u in s.tasks && s.tasks[u].state.Done?
    ensures var s' := WakeJoiners(s, u);
            u in s'.tasks && s'.tasks[u].state.Done? && s'.tasks[u].waiters == []
    decreases |s.tasks[u].waiters|
  {
    if s.tasks[u].waiters != [] {
      JoinerTasks(s, u);
      JoinerLeft(s, u);
      WakeJoinersEmpty(WakeJoiner(s, u), u);
    }
  }

  lemma {:induction false} CancelListStays(s: State, list: seq<TaskId>, t: TaskId)
    ensures Stays(s.tasks, CancelList(s, list).tasks, t)
    decreases |list|
  {
    if list != [] {
      var s1 := if list[0] in s.tasks then CancelOne(s, list[0]) else s;
      CancelListStays(s1, list[1..], t);
      StaysTwice(s.tasks, s1.tasks, CancelList(s1, list[1..]).tasks, t);
    }
  }

  /** A task's record at the root, unless it is done. */
  function AfterRoot(task: Task, outcome: Outcome): Task
  {
    if outcome.ResumeFailed? then task.(state := Cancelled, fiber := None)
    else if task.wakePending && (task.state.Waiting? || task.state.Sleeping?) then
      task.(wakePending := false, state := Runnable, queued := true)
    else if task.state.Runnable? then task.(queued := true)
    else if task.state.Running? then task.(state := Cancelled, fiber := None)
    else task
  }

  lemma EnqueueLocalTasks(s: State, p: nat, t: TaskId, fits: bool)
    requires p < |s.workers| && t in s.tasks && s.tasks[t].state.Runnable?
    ensures EnqueueLocal(s, p, t, fits).tasks == s.tasks[t := s.tasks[t].(queued := true)]
  {
  }

  lemma SettleTasks(s: State, p: nat, u: TaskId, outcome: Outcome, fits: bool)
    requires p < |s.workers| && u in s.tasks && !outcome.FiberDone?
    ensures Settle(s, p, u, outcome, fits).tasks == s.tasks[u := AfterRoot(s.tasks[u], outcome)]
  {
    var task := s.tasks[u];
    if outcome.FiberSuspended? {
      if task.wakePending && (task.state.Waiting? || task.state.Sleeping?) {
        EnqueueLocalTasks(WithTask(s, u, task.(wakePending := false, state := Runnable)), p, u, fits);
      } else if task.state.Runnable? {
        EnqueueLocalTasks(s, p, u, fits);
      }
    }
  }

  /** The root leaves every other task's end and join list alone. */
  lemma SettleStays(s: State, p: nat, u: TaskId, outcome: Outcome, fits: bool, t: TaskId)
    requires p < |s.workers| && u in s.tasks && u != t
    ensures Stays(s.tasks, Settle(s, p, u, outcome, fits).tasks, t)
  {
    if outcome.FiberDone? {
      var s1 := WithTask(s, u, s.tasks[u].(state := Done, fiber := None));
      WakeJoinersStay(s1, u, t);
      assert Settle(s, p, u, outcome, fits).tasks == WakeJoiners(s1, u).tasks;
    } else {
      SettleTasks(s, p, u, outcome, fits);
    }
  }

  lemma SettleFollows(s: State, p: nat, t: TaskId, outcome: Outcome, fits: bool)
    requires p < |s.workers| && t in s.tasks && !Terminal(s.tasks[t].state)
    requires outcome.FiberDone? ==> s.tasks[t].state.Running?
    ensures Follows(s.tasks, Settle(s, p, t, outcome, fits).tasks, t)
  {
    if outcome.FiberDone? {
      var s1 := WithTask(s, t, s.tasks[t].(state := Done, fiber := None));
      WakeJoinersEmpty(s1, t);
      assert Settle(s, p, t, outcome, fits).tasks == WakeJoiners(s1, t).tasks;
    } else {
      SettleTasks(s, p, t, outcome, fits);
    }
  }

  lemma RootTasks(s: State, p: nat, fits: bool)
    requires p < |s.workers| && s.workers[p].phase.Returned? && s.workers[p].phase.task in s.tasks
    ensures var t := s.workers[p].phase.task;
            var s1 := AtRoot(s, p, t, s.tasks[t].(executing := false));
            DoRoot(s, p, fits).tasks == Settle(s1, p, t, s.workers[p].phase.outcome, fits).tasks
  {
    RootIs(s, p, fits);
  }

  lemma RootFollows(s: State, p: nat, fits: bool, t: TaskId, run: RunMap, wait: WaitMap)
    requires Inv(s, run, wait) && p < |s.workers|
    ensures Follows(s.tasks, DoRoot(s, p, fits).tasks, t)
  {
    var phase := s.workers[p].phase;
    if phase.Returned? {
      var u := phase.task;
      ReturnedIs(s, p, run, wait);
      RootTasks(s, p, fits);
      var s1 := AtRoot(s, p, u, s.tasks[u].(executing := false));
      if u != t {
        SettleStays(s1, p, u, phase.outcome, fits, t);
      } else {
        SettleFollows(s1, p, t, phase.outcome, fits);
      }
    } else {
      assert DoRoot(s, p, fits) == s;
    }
  }

  lemma ActStays(s: State, p: nat, u: TaskId, a: Action, t: TaskId)
    requires p < |s.workers| && u in s.tasks && s.tasks[u].state.Running?
    ensures Stays(s.tasks, DoAct(s, p, u, a).tasks, t)
  {
  }

  lemma TakeGlobalStays(s: State, p: nat, room: nat, t: TaskId)
    requires p < |s.workers|
    ensures Stays(s.tasks, DoTakeGlobal(s, p, room).tasks, t)
  {
    if s.workers[p].phase.TryGlobal? {
      var r := Take(s.global, Eligible(s, p), Unstarted(s), |s.workers| > 1, room);
      if r.task.Some? && r.task.value in s.tasks {
        assert DoTakeGlobal(s, p, room).tasks
            == s.tasks[r.task.value := s.tasks[r.task.value].(queued := false)];
      } else {
        assert DoTakeGlobal(s, p, room).tasks == s.tasks;
      }
    }
  }

  lemma TakeStays(s: State, p: nat, a: Action, t: TaskId)
    requires p < |s.workers| && Takes(a)
    ensures Stays(s.tasks, DoTake(s, p, a).tasks, t)
  {
    if a.TakeGlobal? {
      TakeGlobalStays(s, p, a.room, t);
    } else {
      assert DoTake(s, p, a).tasks == s.tasks;
    }
  }

  lemma ScanStays(s: State, p: nat, a: Action, t: TaskId)
    requires p < |s.workers| && Scans(a)
    ensures Stays(s.tasks, DoScan(s, p, a).tasks, t)
  {
    assert !a.ClearQueued? ==> DoScan(s, p, a).tasks == s.tasks;
  }

  lemma BeginStays(s: State, p: nat, t: TaskId)
    requires p < |s.workers|
    ensures Stays(s.tasks, DoBeginExecute(s, p).tasks, t)
  {
    var phase, m := s.workers[p].phase, DoBeginExecute(s, p).tasks;
    if phase.Hand? && phase.task in s.tasks {
      assert phase.task in m && m == s.tasks[phase.task := m[phase.task]];
      assert Same(s.tasks[phase.task], m[phase.task]);
    } else {
      assert m == s.tasks;
    }
  }

  lemma DispatchStays(s: State, p: nat, a: Action, t: TaskId)
    requires p < |s.workers| && Dispatches(a)
    ensures Stays(s.tasks, DoDispatch(s, p, a).tasks, t)
  {
    if a.BeginExecute? {
      BeginStays(s, p, t);
    } else {
      assert !a.Resume? ==> DoDispatch(s, p, a).tasks == s.tasks;
    }
  }

  lemma TimerStays(s: State, p: nat, u: TaskId, t: TaskId)
    requires p < |s.workers|
    ensures Stays(s.tasks, DoTimerFire(s, p, u).tasks, t)
  {
    if u in s.workers[p].timers && u in s.tasks {
      WakeStays(TimerTaken(s, p, u), u, t);
      assert DoTimerFire(s, p, u) == Wake(TimerTaken(s, p, u), u);
    }
  }

  lemma IdleTasks(s: State, p: nat)
    requires p < |s.workers|
    ensures DoIdleEnter(s, p).tasks == s.tasks && DoIdleLeave(s, p).tasks == s.tasks
  {
  }

  lemma RestStays(s: State, p: nat, a: Action, t: TaskId)
    requires p < |s.workers| && Rests(a) && !a.Root?
    ensures Stays(s.tasks, DoRest(s, p, a).tasks, t)
  {
    if a.TimerFire? {
      TimerStays(s, p, a.t, t);
    } else {
      IdleTasks(s, p);
    }
  }

  lemma RestFollows(s: State, p: nat, a: Action, t: TaskId, run: RunMap, wait: WaitMap)
    requires Inv(s, run, wait) && p < |s.workers| && Rests(a)
    ensures Follows(s.tasks, DoRest(s, p, a).tasks, t)
  {
    if a.Root? {
      RootFollows(s, p, a.fits, t, run, wait);
    } else {
      RestStays(s, p, a, t);
    }
  }

  lemma AtFollows(s: State, p: nat, a: Action, t: TaskId, run: RunMap, wait: WaitMap)
    requires Inv(s, run, wait) && p < |s.workers|
    ensures Follows(s.tasks, DoAt(s, p, a).tasks, t)
  {
    if Scans(a) {
      ScanStays(s, p, a, t);
    } else if Takes(a) {
      TakeStays(s, p, a, t);
    } else if Dispatches(a) {
      DispatchStays(s, p, a, t);
    } else if Rests(a) {
      RestFollows(s, p, a, t, run, wait);
    } else if Acts(a) && Acting(s, p).Some? {
      ActStays(s, p, Acting(s, p).value, a, t);
    }
  }

  lemma SyncStays(s: State, q: nat, t: TaskId)
    ensures Stays(s.tasks, DoSyncWake(s, q).tasks, t)
  {
    var ws := Waiters(s, q);
    if ws != [] && ws[0] in s.tasks {
      WakeStays(s.(syncs := s.syncs[q := ws[1..]]), ws[0], t);
    }
  }

  lemma IoStays(s: State, u: TaskId, t: TaskId)
    ensures Stays(s.tasks, DoIoComplete(s, u).tasks, t)
  {
    if u in s.tasks && s.tasks[u].state.Waiting? && s.tasks[u].waitingForIo && s.ioWaiting != 0 {
      WakeStays(IoTaken(s, u), u, t);
      assert DoIoComplete(s, u) == Wake(IoTaken(s, u), u);
    } else {
      assert DoIoComplete(s, u) == s;
    }
  }

  lemma SpawnStays(s: State, u: TaskId, who: Caller, t: TaskId)
    ensures Stays(s.tasks, DoSpawn(s, u, who).tasks, t)
  {
  }

  lemma RuntimeStays(s: State, a: Action, t: TaskId)
    requires s.workers != [] && !OfWorker(a)
    ensures Stays(s.tasks, DoRuntime(s, a).tasks, t)
  {
    match a {
      case RunStart => assert DoRuntime(s, a).tasks == s.tasks;
      case RequestShutdown => assert DoRuntime(s, a).tasks == s.tasks;
      case Spawn(u, who) => SpawnStays(s, u, who, t);
      case FinishRun => assert DoRuntime(s, a).tasks == s.tasks;
      case CancelAll => CancelListStays(s, s.all, t);
      case SyncWake(q) => SyncStays(s, q, t);
      case IoComplete(u) => IoStays(s, u, t);
    }
  }

  lemma DoIs(s: State, a: Action)
    requires s.workers != []
    ensures Do(s, a) == if !OfWorker(a) then DoRuntime(s, a) else if a.p < |s.workers| then DoAt(s, a.p, a) else s
  {
  }

  lemma ElseStays(s: State, a: Action, t: TaskId)
    requires s.workers != [] && (!OfWorker(a) || a.p >= |s.workers|)
    ensures Stays(s.tasks, Do(s, a).tasks, t)
  {
    DoIs(s, a);
    if !OfWorker(a) {
      RuntimeStays(s, a, t);
    }
  }

  /** What one action can do to a task. */
  lemma StepFollows(s: State, a: Action, t: TaskId, run: RunMap, wait: WaitMap)
    requires Inv(s, run, wait)
    ensures Follows(s.tasks, Do(s, a).tasks, t)
  {
    if OfWorker(a) && a.p < |s.workers| {
      DoIs(s, a);
      AtFollows(s, a.p, a, t, run, wait);
    } else {
      ElseStays(s, a, t);
    }
  }

  /** Once done or cancelled, a task stays so in every continuation of the run, and
      nobody joins it or leaves its join list any more. */
  lemma {:induction false} TerminalIsFinal(
      s: State, actions: seq<Action>, last: State, t: TaskId, run: RunMap, wait: WaitMap)
    requires Inv(s, run, wait) && Reaches(s, actions, last)
    requires t in s.tasks && Terminal(s.tasks[t].state)
    ensures t in last.tasks && last.tasks[t].state == s.tasks[t].state
    ensures last.tasks[t].waiters == s.tasks[t].waiters
    decreases |actions|
  {
    if actions != [] {
      StepFollows(s, actions[0], t, run, wait);
      var run', wait' := StepKeeps(s, actions[0], run, wait);
      TerminalIsFinal(Do(s, actions[0]), actions[1..], last, t, run', wait');
    }
  }

  // -------------------------------------------------------------------- joins

  /** Nobody is joined on a task that is done. */
  predicate NoneLeft(s: State, u: TaskId)
  {
    u in s.tasks && s.tasks[u].state.Done? ==> s.tasks[u].waiters == []
  }

  lemma {:induction false} RunEmpties(
      s: State, actions: seq<Action>, last: State, u: TaskId, run: RunMap, wait: WaitMap)
    requires Inv(s, run, wait) && Reaches(s, actions, last) && NoneLeft(s, u)
    ensures NoneLeft(last, u)
    decreases |actions|
  {
    if actions != [] {
      StepFollows(s, actions[0], u, run, wait);
      var run', wait' := StepKeeps(s, actions[0], run, wait);
      RunEmpties(Do(s, actions[0]), actions[1..], last, u, run', wait');
    }
  }

  /** In every reachable state a task that is done has nobody left joined on it. */
  lemma DoneHasNoJoiners(workers: nat, s: State, u: TaskId)
    requires Reachable(workers, s)
    ensures NoneLeft(s, u)
  {
    var actions :| Reaches(Initial(workers), actions, s);
    InitialInv(workers);
    RunEmpties(Initial(workers), actions, s, u, map[], map[]);
  }

  /** While a task is not done its joiners stay on its list. */
  lemma {:induction false} JoinersStay(
      s: State, actions: seq<Action>, last: State, u: TaskId, run: RunMap, wait: WaitMap)
    requires Inv(s, run, wait) && Reaches(s, actions, last) && u in s.tasks
    ensures u in last.tasks
    ensures !last.tasks[u].state.Done? ==> s.tasks[u].waiters <= last.tasks[u].waiters
    decreases |actions|
  {
    if actions != [] {
      var s' := Do(s, actions[0]);
      StepFollows(s, actions[0], u, run, wait);
      var run', wait' := StepKeeps(s, actions[0], run, wait);
      JoinersStay(s', actions[1..], last, u, run', wait');
      if s'.tasks[u].state.Done? {
        TerminalIsFinal(s', actions[1..], last, u, run', wait');
      }
    }
  }

  /** Every live task that no worker runs is either at one runnable place or in
      one wait structure, never both and never neither; the one exception is a
      runnable task that a stopped run let go of.  A parked task that still has
      its thread is either registered or has its wake pending.  No task is left
      on the join list of one that is done. */
  lemma NoLostWakeup(workers: nat, s: State, t: TaskId)
    requires Reachable(workers, s) && t in s.tasks && !Terminal(s.tasks[t].state)
    ensures !s.tasks[t].executing && t !in s.lost ==>
              (RunnableSomewhere(s, t) <==> s.tasks[t].state.Runnable?) &&
              (RegisteredSomewhere(s, t) <==> s.tasks[t].state.Waiting? || s.tasks[t].state.Sleeping?)
    ensures s.tasks[t].state.Waiting? || s.tasks[t].state.Sleeping? ==>
              (s.tasks[t].wakePending <==> !RegisteredSomewhere(s, t)) &&
              (s.tasks[t].wakePending ==> s.tasks[t].executing)
    ensures !s.tasks[t].executing ==> !s.tasks[t].state.Running?
    ensures forall b, c :: WaitCount(s, t, b) == 1 && WaitCount(s, t, c) == 1 ==> b == c
    ensures forall u :: u in s.tasks && t in s.tasks[u].waiters ==> !s.tasks[u].state.Done?
  {
    var run, wait := ReachableInv(workers, s);
    assert TaskOk(s, run, wait, t);
    assert RunCount(s.global, s.workers, t, run[t]) == Once(!run[t].Nowhere?);
    assert WaitCount(s, t, wait[t]) == Once(!wait[t].NotWaiting?);
    forall u | u in s.tasks && t in s.tasks[u].waiters
      ensures !s.tasks[u].state.Done?
    {
      DoneHasNoJoiners(workers, s, u);
    }
  }


  // ---------------------------------------------------------------- stranding

  /** t is joined on u. */
  predicate JoinedOn(s: State, t: TaskId, u: TaskId)
  {
    u in s.tasks && t in s.tasks[u].waiters
  }

  /** Everyone in h is joined on a task that was cancelled, or on another in h. */
  ghost predicate Stranded(s: State, h: set<TaskId>)
  {
    forall t :: t in h ==> exists u :: JoinedOn(s, t, u) && (s.tasks[u].state.Cancelled? || u in h)
  }

  lemma JoinerWaits(s: State, t: TaskId, u: TaskId, run: RunMap, wait: WaitMap)
    requires Inv(s, run, wait) && JoinedOn(s, t, u)
    ensures t in s.tasks && (s.tasks[t].state.Waiting? || (s.shutdown && s.tasks[t].state.Cancelled?))
  {
    assert WaitCount(s, t, OnJoin(u)) == multiset(s.tasks[u].waiters)[t];
    assert TaskOk(s, run, wait, t);
  }

  lemma StrandedStep(s: State, a: Action, h: set<TaskId>, run: RunMap, wait: WaitMap)
    requires Inv(s, run, wait) && Stranded(s, h)
    ensures Stranded(Do(s, a), h)
  {
    forall t | t in h
      ensures exists u :: JoinedOn(Do(s, a), t, u) && (Do(s, a).tasks[u].state.Cancelled? || u in h)
    {
      var u :| JoinedOn(s, t, u) && (s.tasks[u].state.Cancelled? || u in h);
      if u in h {
        var v :| JoinedOn(s, u, v);
        JoinerWaits(s, u, v, run, wait);
      }
      StillJoined(s, a, t, u, run, wait);
    }
  }

  lemma StillJoined(s: State, a: Action, t: TaskId, u: TaskId, run: RunMap, wait: WaitMap)
    requires Inv(s, run, wait) && JoinedOn(s, t, u) && (s.tasks[u].state.Cancelled? || s.tasks[u].state.Waiting?)
    ensures JoinedOn(Do(s, a), t, u)
    ensures s.tasks[u].state.Cancelled? ==> Do(s, a).tasks[u].state.Cancelled?
  {
    StepFollows(s, a, u, run, wait);
  }

  /** Nothing but a shutdown ever moves a stranded task: in every continuation it is
      still waiting, or cancelled by the shutdown. */
  lemma {:induction false} StrandedForever(
      s: State, actions: seq<Action>, last: State, h: set<TaskId>, t: TaskId, run: RunMap, wait: WaitMap)
    requires Inv(s, run, wait) && Stranded(s, h) && t in h && Reaches(s, actions, last)
    ensures Stranded(last, h) && t in last.tasks
    ensures last.tasks[t].state.Waiting? || (last.shutdown && last.tasks[t].state.Cancelled?)
    decreases |actions|
  {
    if actions == [] {
      var u :| JoinedOn(s, t, u);
      JoinerWaits(s, t, u, run, wait);
    } else {
      StrandedStep(s, actions[0], h, run, wait);
      var run', wait' := StepKeeps(s, actions[0], run, wait);
      StrandedForever(Do(s, actions[0]), actions[1..], last, h, t, run', wait');
    }
  }

  /** However the run goes on, t stays on the join list of u, waiting until a
      shutdown cancels it. */
  ghost predicate StuckOn(s: State, t: TaskId, u: TaskId)
  {
    forall more, later :: Reaches(s, more, later) ==>
      JoinedOn(later, t, u) && t in later.tasks && (later.tasks[t].state.Waiting? || later.shutdown)
  }

  lemma StuckOnEnded(s: State, t: TaskId, u: TaskId, run: RunMap, wait: WaitMap)
    requires Inv(s, run, wait) && JoinedOn(s, t, u) && s.tasks[u].state.Cancelled?
    ensures StuckOn(s, t, u)
  {
    forall more, later | Reaches(s, more, later)
      ensures JoinedOn(later, t, u) && t in later.tasks && (later.tasks[t].state.Waiting? || later.shutdown)
    {
      TerminalIsFinal(s, more, later, u, run, wait);
      assert Stranded(s, {t});
      StrandedForever(s, more, later, {t}, t, run, wait);
    }
  }

  /** What becomes of a joiner once the task it joined has ended: it is left waiting
      there for ever if and only if that task was cancelled. */
  lemma JoinerOutcome(workers: nat, s: State, actions: seq<Action>, last: State, t: TaskId, u: TaskId)
    requires Reachable(workers, s) && JoinedOn(s, t, u)
    requires Reaches(s, actions, last) && u in last.tasks && Terminal(last.tasks[u].state)
    ensures StuckOn(last, t, u) <==> last.tasks[u].state.Cancelled?
    ensures JoinedOn(last, t, u) <==> last.tasks[u].state.Cancelled?
  {
    var run, wait := ReachableInv(workers, s);
    JoinersStay(s, actions, last, u, run, wait);
    DoneHasNoJoiners(workers, s, u);
    RunEmpties(s, actions, last, u, run, wait);
    var run', wait' := RunKeeps(s, actions, last, run, wait);
    if last.tasks[u].state.Cancelled? {
      StuckOnEnded(last, t, u, run', wait');
    } else {
      assert Reaches(last, [], last);
    }
  }

  /** The branches of the root that cancel a task: its fiber was not resumed, or it
      came back without having parked. */
  predicate Abandons(s: State, p: nat)
  {
    && p < |s.workers| && s.workers[p].phase.Returned? && s.workers[p].phase.task in s.tasks
    && (s.workers[p].phase.outcome.ResumeFailed?
        || (s.workers[p].phase.outcome.FiberSuspended? && s.tasks[s.workers[p].phase.task].state.Running?))
  }

  /** Which branch the root takes decides it: a joiner of the task that comes back is
      left behind for ever if and only if the root abandons the task. */
  lemma RootStrandsIff(workers: nat, s: State, p: nat, fits: bool, t: TaskId)
    requires Reachable(workers, s) && p < |s.workers| && s.workers[p].phase.Returned?
    requires s.workers[p].phase.outcome.FiberDone? || Abandons(s, p)
    requires JoinedOn(s, t, s.workers[p].phase.task)
    ensures StuckOn(DoRoot(s, p, fits), t, s.workers[p].phase.task) <==> Abandons(s, p)
  {
    var u := s.workers[p].phase.task;
    var run, wait := ReachableInv(workers, s);
    ReturnedIs(s, p, run, wait);
    RootTasks(s, p, fits);
    var s1 := AtRoot(s, p, u, s.tasks[u].(executing := false));
    if Abandons(s, p) {
      SettleTasks(s1, p, u, s.workers[p].phase.outcome, fits);
      var run', wait' := RootKeeps(s, p, fits, run, wait);
      StuckOnEnded(DoRoot(s, p, fits), t, u, run', wait');
    } else {
      DoneIsFree(s, p, fits);
      assert Reaches(DoRoot(s, p, fits), [], DoRoot(s, p, fits));
    }
  }

  lemma DoneIsFree(s: State, p: nat, fits: bool)
    requires p < |s.workers| && s.workers[p].phase.Returned? && s.workers[p].phase.outcome.FiberDone?
    requires s.workers[p].phase.task in s.tasks
    ensures forall t :: !JoinedOn(DoRoot(s, p, fits), t, s.workers[p].phase.task)
  {
    var u := s.workers[p].phase.task;
    RootIs(s, p, fits);
    var s0 := AtRoot(s, p, u, s.tasks[u].(executing := false, state := Done, fiber := None));
    WakeJoinersEmpty(s0, u);
    assert DoRoot(s, p, fits).tasks == WakeJoiners(s0, u).tasks;
  }

  // ------------------------------------------------------------ who cancels

  lemma WakeCancelsNone(s: State, u: TaskId)
    requires u in s.tasks
    ensures Wake(s, u).cancelled == s.cancelled
  {
  }

  lemma {:induction false} JoinersCancelNone(s: State, u: TaskId)
    requires u in s.tasks
    ensures WakeJoiners(s, u).cancelled == s.cancelled
    decreases |s.tasks[u].waiters|
  {
    if s.tasks[u].waiters != [] {
      var v := s.tasks[u].waiters[0];
      if v in JoinerTaken(s, u).tasks {
        WakeCancelsNone(JoinerTaken(s, u), v);
      }
      JoinerLeft(s, u);
      JoinersCancelNone(WakeJoiner(s, u), u);
    }
  }

  lemma RootCancelsNone(s: State, p: nat, fits: bool)
    requires p < |s.workers| && !Abandons(s, p)
    ensures DoRoot(s, p, fits).cancelled == s.cancelled
  {
    var phase := s.workers[p].phase;
    if phase.Returned? && phase.task in s.tasks {
      RootIs(s, p, fits);
      var t := phase.task;
      if phase.outcome.FiberDone? {
        JoinersCancelNone(AtRoot(s, p, t, s.tasks[t].(executing := false, state := Done, fiber := None)), t);
      } else {
        SettleCancelsNone(AtRoot(s, p, t, s.tasks[t].(executing := false)), p, t, fits);
      }
    }
  }

  lemma SettleCancelsNone(s: State, p: nat, t: TaskId, fits: bool)
    requires p < |s.workers| && t in s.tasks && !s.tasks[t].state.Running?
    ensures Settle(s, p, t, FiberSuspended, fits).cancelled == s.cancelled
  {
  }

  lemma RestCancelsNone(s: State, p: nat, a: Action)
    requires p < |s.workers| && Rests(a) && !(a.Root? && Abandons(s, p))
    ensures DoRest(s, p, a).cancelled == s.cancelled
  {
    match a {
      case Root(_, fits) => RootCancelsNone(s, p, fits);
      case TimerFire(_, t) =>
        if t in s.workers[p].timers && t in s.tasks {
          WakeCancelsNone(TimerTaken(s, p, t), t);
        }
      case IdleEnter(_) =>
      case IdleLeave(_) =>
    }
  }

  lemma DispatchCancelsNone(s: State, p: nat, a: Action)
    requires p < |s.workers| && Dispatches(a) && !s.shutdown
    ensures DoDispatch(s, p, a).cancelled == s.cancelled
  {
  }

  lemma TakeCancelsNone(s: State, p: nat, a: Action)
    requires p < |s.workers| && (Takes(a) || Scans(a))
    ensures Takes(a) ==> DoTake(s, p, a).cancelled == s.cancelled
    ensures Scans(a) ==> DoScan(s, p, a).cancelled == s.cancelled
  {
  }

  lemma AtCancelsNone(s: State, p: nat, a: Action)
    requires p < |s.workers| && !s.shutdown && !(a.Root? && Abandons(s, p))
    ensures DoAt(s, p, a).cancelled == s.cancelled
  {
    if Scans(a) || Takes(a) {
      TakeCancelsNone(s, p, a);
    } else if Dispatches(a) {
      DispatchCancelsNone(s, p, a);
    } else if Rests(a) {
      RestCancelsNone(s, p, a);
    }
  }

  lemma EventCancelsNone(s: State, a: Action)
    requires WorkersOk(s) && !s.shutdown && !OfWorker(a)
    ensures DoRuntime(s, a).cancelled == s.cancelled
  {
    match a {
      case SyncWake(q) =>
        var ws := Waiters(s, q);
        if ws != [] && ws[0] in s.tasks {
          WakeCancelsNone(s.(syncs := s.syncs[q := ws[1..]]), ws[0]);
        }
      case IoComplete(t) =>
        if DoIoComplete(s, t) != s {
          WakeCancelsNone(IoTaken(s, t), t);
        }
      case CancelAll => assert WorkerOk(s.workers[0], |s.workers| == 1, s.shutdown);
      case RunStart =>
      case FinishRun =>
      case RequestShutdown =>
      case Spawn(_, _) =>
    }
  }

  lemma SameCancelled(s: State, s': State, t: TaskId, run: RunMap, wait: WaitMap, run': RunMap, wait': WaitMap)
    requires Inv(s, run, wait) && Inv(s', run', wait') && s'.cancelled == s.cancelled
    requires forall u :: u in CancelledTasks(s.tasks) ==> u in CancelledTasks(s'.tasks)
    requires t in s.tasks && t in s'.tasks && s'.tasks[t].state.Cancelled?
    ensures s.tasks[t].state.Cancelled?
  {
    if !s.tasks[t].state.Cancelled? {
      var was, now := CancelledTasks(s.tasks), CancelledTasks(s'.tasks);
      assert t in now && t !in was;
      Subset(was + {t}, now);
    }
  }

  lemma {:induction false} Subset(a: set<TaskId>, b: set<TaskId>)
    requires a <= b
    ensures |a| <= |b|
  {
    if a != {} {
      var x :| x in a;
      Subset(a - {x}, b - {x});
    }
  }

  /** Before a shutdown only the root cancels a task, and only in the two branches
      that abandon it. */
  lemma OnlyTheRootCancels(workers: nat, s: State, a: Action, t: TaskId)
    requires Reachable(workers, s) && !s.shutdown && t in s.tasks && !s.tasks[t].state.Cancelled?
    requires t in Do(s, a).tasks && Do(s, a).tasks[t].state.Cancelled?
    ensures a.Root? && Abandons(s, a.p) && s.workers[a.p].phase.task == t
  {
    var run, wait := ReachableInv(workers, s);
    var run', wait' := StepKeeps(s, a, run, wait);
    DoIs(s, a);
    if !(a.Root? && Abandons(s, a.p)) {
      if !OfWorker(a) {
        EventCancelsNone(s, a);
      } else if a.p < |s.workers| {
        AtCancelsNone(s, a.p, a);
      }
      forall u | u in CancelledTasks(s.tasks)
        ensures u in CancelledTasks(Do(s, a).tasks)
      {
        StepFollows(s, a, u, run, wait);
      }
      SameCancelled(s, Do(s, a), t, run, wait, run', wait');
    } else if s.workers[a.p].phase.task != t {
      AbandonsOne(s, a.p, a.fits);
    }
  }

  lemma AbandonsOne(s: State, p: nat, fits: bool)
    requires Abandons(s, p)
    ensures var u := s.workers[p].phase.task;
            DoRoot(s, p, fits).tasks == s.tasks[u := s.tasks[u].(executing := false, state := Cancelled, fiber := None)]
  {
    RootIs(s, p, fits);
  }

  // ------------------------------------------------------------ waking joiners

  /** The task has been woken: it is queued to run, or will be when its thread is
      back at the root. */
  predicate Woken(s: State, t: TaskId)
  {
    t in s.tasks && ((s.tasks[t].state.Runnable? && s.tasks[t].queued) || s.tasks[t].wakePending)
  }

  predicate Parked(s: State, t: TaskId)
  {
    t in s.tasks && s.tasks[t].state.Waiting? && (s.tasks[t].executing || !s.tasks[t].queued)
  }

  lemma {:induction false} WakeJoinersWake(s: State, u: TaskId, t: TaskId)
    requires u in s.tasks && u != t && (Woken(s, t) || (t in s.tasks[u].waiters && Parked(s, t)))
    ensures Woken(WakeJoiners(s, u), t)
    decreases |s.tasks[u].waiters|
  {
    if s.tasks[u].waiters != [] {
      JoinerTasks(s, u);
      JoinerLeft(s, u);
      assert s.tasks[u].waiters == [s.tasks[u].waiters[0]] + s.tasks[u].waiters[1..];
      WakeJoinersWake(WakeJoiner(s, u), u, t);
    }
  }

  lemma JoinerIsParked(s: State, t: TaskId, u: TaskId, run: RunMap, wait: WaitMap)
    requires Inv(s, run, wait) && !s.shutdown && JoinedOn(s, t, u) && s.tasks[u].state.Running?
    ensures Parked(s, t) && t != u
  {
    assert WaitCount(s, t, OnJoin(u)) == multiset(s.tasks[u].waiters)[t];
    assert TaskOk(s, run, wait, t);
    assert TaskOk(s, run, wait, u);
  }

  /** When a task's fiber has returned, the root wakes everyone joined on the task,
      unless a shutdown has cancelled them. */
  lemma ReturnWakesJoiners(workers: nat, s: State, p: nat, fits: bool, t: TaskId)
    requires Reachable(workers, s) && p < |s.workers| && !s.shutdown
    requires s.workers[p].phase.Returned? && s.workers[p].phase.outcome.FiberDone?
    requires JoinedOn(s, t, s.workers[p].phase.task)
    ensures var u, s' := s.workers[p].phase.task, DoRoot(s, p, fits);
            && u in s'.tasks && s'.tasks[u].state.Done? && s'.tasks[u].waiters == []
            && Woken(s', t)
  {
    var u := s.workers[p].phase.task;
    var run, wait := ReachableInv(workers, s);
    ReturnedIs(s, p, run, wait);
    JoinerIsParked(s, t, u, run, wait);
    RootWakes(s, p, fits, t);
  }

  lemma RootWakes(s: State, p: nat, fits: bool, t: TaskId)
    requires p < |s.workers| && s.workers[p].phase.Returned? && s.workers[p].phase.outcome.FiberDone?
    requires s.workers[p].phase.task in s.tasks && t != s.workers[p].phase.task
    requires t in s.tasks[s.workers[p].phase.task].waiters && Parked(s, t)
    ensures var u, s' := s.workers[p].phase.task, DoRoot(s, p, fits);
            && u in s'.tasks && s'.tasks[u].state.Done? && s'.tasks[u].waiters == []
            && Woken(s', t)
  {
    var u := s.workers[p].phase.task;
    RootIs(s, p, fits);
    var s0 := AtRoot(s, p, u, s.tasks[u].(executing := false, state := Done, fiber := None));
    WakeJoinersEmpty(s0, u);
    WakeJoinersWake(s0, u, t);
    assert DoRoot(s, p, fits).tasks == WakeJoiners(s0, u).tasks;
  }
}
