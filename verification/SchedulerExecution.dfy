/** Running, parking and finishing tasks, and the worker loop around them, keep
    the scheduler's invariant. */
module SchedulerExecution {
  import opened Common
  import opened GlobalQueue
  import opened Scheduler
  import opened SchedulerInvariant
  import opened SchedulerSteps
  import opened SchedulerWaits

  // -------------------------------------------------------------- flags, spawn

  lemma FlagsKeep(s: State, running: bool, deadlock: bool, run: RunMap, wait: WaitMap)
    requires Inv(s, run, wait)
    ensures Inv(s.(running := running, deadlock := deadlock), run, wait)
  {
    var s' := s.(running := running, deadlock := deadlock);
    WaitFrame(s, s', wait);
    FlagsTasks(s, s', run, wait);
  }

  lemma FlagsTasks(s: State, s': State, run: RunMap, wait: WaitMap)
    requires run.Keys == s.tasks.Keys && wait.Keys == s.tasks.Keys && TasksOk(s, run, wait)
    requires s'.tasks == s.tasks && s'.workers == s.workers && s'.lost == s.lost
    requires s.shutdown ==> s'.shutdown
    ensures TasksOk(s', run, wait)
  {
    forall t | t in s'.tasks
      ensures TaskOk(s', run, wait, t)
    {
      assert TaskOk(s, run, wait, t);
    }
  }

  lemma RequestShutdownKeeps(s: State, run: RunMap, wait: WaitMap)
    requires Inv(s, run, wait)
    ensures Inv(s.(shutdown := true, running := false), run, wait)
  {
    var s' := s.(shutdown := true, running := false);
    WaitFrame(s, s', wait);
    FlagsTasks(s, s', run, wait);
  }

  lemma StopIfNoneLiveKeeps(s: State, run: RunMap, wait: WaitMap)
    requires Inv(s, run, wait)
    ensures Inv(StopIfNoneLive(s), run, wait)
  {
    if s.live == 0 && s.running {
      FlagsKeep(s, false, false, run, wait);
    }
  }

  lemma SpawnWaits(s: State, s': State, t: TaskId, wait: WaitMap)
    requires WaitPlaced(s, wait) && wait.Keys == s.tasks.Keys && t !in s.tasks
    requires s'.syncs == s.syncs && s'.workers == s.workers
    requires exists task :: s'.tasks == s.tasks[t := task] && task.waiters == [] && !task.waitingForIo
    ensures WaitPlaced(s', wait[t := NotWaiting])
  {
    forall u, place
      ensures WaitCount(s', u, place) == WaitCount(s, u, place)
    {
      match place {
        case OnJoin(v) => assert WaitCount(s, u, OnJoin(v)) == 0 || v in s.tasks;
        case OnIo => assert WaitCount(s, u, OnIo) == 0 || u in s.tasks;
        case _ =>
      }
    }
    forall place
      ensures WaitCount(s', t, place) == Once(!place.NotWaiting? && place == NotWaiting)
    {
      assert WaitCount(s, t, place) == 0;
    }
    WaitMoved(s, s', wait, t, NotWaiting);
  }

  lemma SpawnTasks(s: State, s': State, t: TaskId, task: Task, run: RunMap, wait: WaitMap)
    requires run.Keys == s.tasks.Keys && wait.Keys == s.tasks.Keys && TasksOk(s, run, wait) && t !in s.tasks
    requires s'.tasks == s.tasks[t := task] && s'.workers == s.workers
    requires s'.shutdown == s.shutdown && s'.lost == s.lost
    requires task == Task(Runnable, true, None, None, false, false, false, [])
    ensures TasksOk(s', run[t := InGlobal], wait[t := NotWaiting])
  {
    forall u | u in s'.tasks
      ensures TaskOk(s', run[t := InGlobal], wait[t := NotWaiting], u)
    {
      if u != t {
        assert TaskOk(s, run, wait, u);
      }
    }
  }

  lemma SpawnCounted(s: State, s': State, t: TaskId, task: Task)
    requires Counted(s) && t !in s.tasks
    requires s'.tasks == s.tasks[t := task] && s'.workers == s.workers
    requires task.state.Runnable? && !task.waitingForIo
    requires s'.live == s.live + 1 && s'.spawned == s.spawned + 1
    requires s'.completed == s.completed && s'.cancelled == s.cancelled && s'.ioWaiting == s.ioWaiting
    requires s'.active == s.active && s'.timerCount == s.timerCount
    ensures Counted(s')
  {
    LiveAfter(s.tasks, t, task);
    DoneAfter(s.tasks, t, task);
    CancelledAfter(s.tasks, t, task);
    IoAfter(s.tasks, t, task);
    assert s'.tasks.Keys == s.tasks.Keys + {t};
  }

  const SPAWNED := Task(Runnable, true, None, None, false, false, false, [])

  lemma SpawnIs(s: State, t: TaskId, who: Caller)
    requires !s.shutdown && t !in s.tasks && MaySpawn(s, who)
    ensures DoSpawn(s, t, who) ==
            s.(tasks := s.tasks[t := SPAWNED], all := [t] + s.all, global := s.global + [t],
               live := s.live + 1, spawned := s.spawned + 1)
  {
  }

  lemma SpawnedKeeps(s: State, s': State, t: TaskId, run: RunMap, wait: WaitMap)
    requires Inv(s, run, wait) && t !in s.tasks
    requires s' == s.(tasks := s.tasks[t := SPAWNED], all := s'.all, global := s.global + [t],
                      live := s.live + 1, spawned := s.spawned + 1)
    ensures Inv(s', run[t := InGlobal], wait[t := NotWaiting])
  {
    SpawnWaits(s, s', t, wait);
    SpawnTasks(s, s', t, SPAWNED, run, wait);
    SpawnCounted(s, s', t, SPAWNED);
    GlobalGrows(s.global, s.workers, t, run);
  }

  lemma SpawnKeeps(s: State, t: TaskId, who: Caller, run: RunMap, wait: WaitMap) returns (run': RunMap, wait': WaitMap)
    requires Inv(s, run, wait)
    ensures Inv(DoSpawn(s, t, who), run', wait')
  {
    run', wait' := run, wait;
    if !s.shutdown && t !in s.tasks && MaySpawn(s, who) {
      SpawnIs(s, t, who);
      SpawnedKeeps(s, DoSpawn(s, t, who), t, run, wait);
      run', wait' := run[t := InGlobal], wait[t := NotWaiting];
    } else {
      assert DoSpawn(s, t, who) == s;
    }
  }

  // ------------------------------------------------------------- letting a task go

  lemma LetGoRun(global: seq<TaskId>, ws: seq<Worker>, p: nat, t: TaskId, w: Worker, run: RunMap)
    requires RunPlaced(global, ws, run) && p < |ws|
    requires Holding(ws[p].phase) == [t] && Holding(w.phase) == [] && w.local == ws[p].local
    ensures RunPlaced(global, ws[p := w], run[t := Nowhere])
  {
    var ws' := ws[p := w];
    OnlyHeld(global, ws, p, t, run);
    forall u, place
      ensures RunCount(global, ws', u, place)
           == Once(!place.Nowhere? && u in run[t := Nowhere] && run[t := Nowhere][u] == place)
    {
      assert RunCount(global, ws, u, place) == Once(!place.Nowhere? && u in run && run[u] == place);
    }
  }

  lemma LetGoPlaced(s: State, s': State, p: nat, t: TaskId, w: Worker, place: RunPlace, run: RunMap)
    requires RunPlaced(s.global, s.workers, run) && p < |s.workers|
    requires Holding(s.workers[p].phase) == [t] && Holding(w.phase) == [] && w.local == s.workers[p].local
    requires place.Nowhere? || place.InGlobal?
    requires s'.global == if place.InGlobal? then s.global + [t] else s.global
    requires s'.workers == s.workers[p := w]
    ensures RunPlaced(s'.global, s'.workers, run[t := place])
  {
    LetGoRun(s.global, s.workers, p, t, w, run);
    if place.InGlobal? {
      GlobalGrows(s.global, s'.workers, t, run[t := Nowhere]);
      assert run[t := Nowhere][t := InGlobal] == run[t := InGlobal];
    }
  }

  lemma LetGoTasks(s: State, s': State, p: nat, t: TaskId, task: Task, w: Worker, place: RunPlace,
                   run: RunMap, wait: WaitMap)
    requires run.Keys == s.tasks.Keys && wait.Keys == s.tasks.Keys && TasksOk(s, run, wait)
    requires RunPlaced(s.global, s.workers, run)
    requires p < |s.workers| && t in s.tasks && Holding(s.workers[p].phase) == [t]
    requires s'.workers == s.workers[p := w] && s'.tasks == s.tasks[t := task]
    requires s'.shutdown == s.shutdown && s.lost <= s'.lost
    requires RunOk(s'.workers, task, place) && StateOk(s.shutdown, t in s'.lost, task, place, wait[t])
    ensures TasksOk(s', run[t := place], wait)
  {
    OnlyHeld(s.global, s.workers, p, t, run);
    OneTaskOk(s, s', run, wait, t, p, place, wait[t]);
    assert wait[t := wait[t]] == wait;
  }

  /** A worker lets go of the task it holds: it is nowhere now, or back in the
      global queue. */
  lemma LetGo(s: State, s': State, p: nat, t: TaskId, task: Task, phase: Phase, place: RunPlace,
              run: RunMap, wait: WaitMap)
    requires Inv(s, run, wait) && p < |s.workers| && t in s.tasks
    requires s'.workers == s.workers[p := s.workers[p].(phase := phase)] && s'.tasks == s.tasks[t := task]
    requires Holding(s.workers[p].phase) == [t] && !s.workers[p].phase.Idling?
    requires phase.LoopTop? || (phase.CancelCheck? && s.shutdown)
    requires s'.syncs == s.syncs && s'.shutdown == s.shutdown && s'.idleWorkers == s.idleWorkers
    requires s.lost <= s'.lost
    requires place.Nowhere? || place.InGlobal?
    requires s'.global == if place.InGlobal? then s.global + [t] else s.global
    requires task.waiters == s.tasks[t].waiters && task.waitingForIo == s.tasks[t].waitingForIo
    requires RunOk(s'.workers, task, place) && StateOk(s.shutdown, t in s'.lost, task, place, wait[t])
    requires Counted(s')
    ensures Inv(s', run[t := place], wait)
  {
    var w := s.workers[p].(phase := phase);
    LetGoTasks(s, s', p, t, task, w, place, run, wait);
    LetGoPlaced(s, s', p, t, w, place, run);
    WaitFrameOne(s, s', t, task, p, w, wait);
    WorkersOkAfter(s, s', p, w);
  }

  lemma DropKeeps(s: State, p: nat, t: TaskId, run: RunMap, wait: WaitMap)
    requires Inv(s, run, wait) && p < |s.workers| && s.workers[p].phase == Hand(t) && t in s.tasks
    requires s.tasks[t].state.Runnable? ==> !s.running
    ensures Inv(DoBeginExecute(s, p), run[t := Nowhere], wait)
  {
    var s' := DoBeginExecute(s, p);
    OnlyHeld(s.global, s.workers, p, t, run);
    assert TaskOk(s, run, wait, t);
    assert s.tasks[t := s.tasks[t]] == s.tasks;
    CountedAfterWorker(s, s', p, s'.workers[p]);
    LetGo(s, s', p, t, s.tasks[t], LoopTop, Nowhere, run, wait);
  }

  lemma CancelInHandKeeps(s: State, p: nat, t: TaskId, run: RunMap, wait: WaitMap)
    requires Inv(s, run, wait) && p < |s.workers| && s.workers[p].phase == Hand(t) && t in s.tasks
    requires s.tasks[t].state.Runnable? && s.running && s.shutdown
    ensures Inv(DoBeginExecute(s, p), run[t := Nowhere], wait)
  {
    var s' := DoBeginExecute(s, p);
    OnlyHeld(s.global, s.workers, p, t, run);
    assert TaskOk(s, run, wait, t);
    LiveHas(s, t);
    CountedAfter(s, s', t, s'.tasks[t], p, s'.workers[p]);
    LetGo(s, s', p, t, s'.tasks[t], CancelCheck, Nowhere, run, wait);
  }

  lemma LiveHas(s: State, t: TaskId)
    requires Counted(s) && t in s.tasks && !Terminal(s.tasks[t].state)
    ensures s.live > 0
  {
    assert t in Live(s.tasks);
  }

  lemma StartKeeps(s: State, p: nat, t: TaskId, run: RunMap, wait: WaitMap)
    requires Inv(s, run, wait) && p < |s.workers| && s.workers[p].phase == Hand(t) && t in s.tasks
    requires s.tasks[t].state.Runnable? && s.running && !s.shutdown
    ensures Inv(DoBeginExecute(s, p), run, wait)
  {
    OnlyHeld(s.global, s.workers, p, t, run);
    assert TaskOk(s, run, wait, t);
    HeldQuietly(s, DoBeginExecute(s, p), p, t,
                s.tasks[t].(state := Running, executing := true, lastP := Some(p)), Started(t), run, wait);
  }

  lemma BeginExecuteKeeps(s: State, p: nat, run: RunMap, wait: WaitMap) returns (run': RunMap)
    requires Inv(s, run, wait) && p < |s.workers|
    ensures Inv(DoBeginExecute(s, p), run', wait)
  {
    run' := run;
    var phase := s.workers[p].phase;
    if phase.Hand? && phase.task in s.tasks {
      var t := phase.task;
      if !s.tasks[t].state.Runnable? || !s.running {
        DropKeeps(s, p, t, run, wait);
        run' := run[t := Nowhere];
      } else if s.shutdown {
        CancelInHandKeeps(s, p, t, run, wait);
        run' := run[t := Nowhere];
      } else {
        StartKeeps(s, p, t, run, wait);
      }
    }
  }

  lemma CheckCancelledKeeps(s: State, p: nat, run: RunMap, wait: WaitMap)
    requires Inv(s, run, wait) && p < |s.workers|
    ensures Inv(DoCheckCancelled(s, p), run, wait)
  {
    if s.workers[p].phase.CancelCheck? {
      StopIfNoneLiveKeeps(s, run, wait);
      PhaseMove(StopIfNoneLive(s), p, LoopTop, run, wait);
    }
  }

  // ----------------------------------------------------------------- on the fiber

  /** The task and the phase a resumption leaves behind. */
  ghost function Resumed(task: Task, p: nat, ok: bool): Task
  {
    if ok && task.fiber.None? then task.(fiber := Some(p)) else task
  }

  ghost function ResumedPhase(t: TaskId, ok: bool): Phase
  {
    if ok then Inside(t) else Returned(t, ResumeFailed)
  }

  lemma ResumeIs(s: State, p: nat, ok: bool)
    requires p < |s.workers| && s.workers[p].phase.Started? && s.workers[p].phase.task in s.tasks
    ensures var t := s.workers[p].phase.task;
            DoResume(s, p, ok) ==
            s.(workers := s.workers[p := s.workers[p].(phase := ResumedPhase(t, ok))],
               tasks := s.tasks[t := Resumed(s.tasks[t], p, ok)])
  {
    var t := s.workers[p].phase.task;
    assert s.tasks[t := s.tasks[t]] == s.tasks;
  }

  lemma StartedIs(s: State, p: nat, run: RunMap, wait: WaitMap)
    requires Inv(s, run, wait) && p < |s.workers| && s.workers[p].phase.Started?
    ensures var t := s.workers[p].phase.task;
            && t in s.tasks && t in wait && PhaseOk(s.workers[p].phase, p, s.tasks[t])
            && FiberOk(s.tasks[t], |s.workers|)
            && StateOk(s.shutdown, t in s.lost, s.tasks[t], Held(p), wait[t])
  {
    var t := s.workers[p].phase.task;
    OnlyHeld(s.global, s.workers, p, t, run);
    assert TaskOk(s, run, wait, t);
  }

  lemma ResumeKeeps(s: State, p: nat, ok: bool, run: RunMap, wait: WaitMap)
    requires Inv(s, run, wait) && p < |s.workers|
    ensures Inv(DoResume(s, p, ok), run, wait)
  {
    if s.workers[p].phase.Started? {
      var t := s.workers[p].phase.task;
      StartedIs(s, p, run, wait);
      ResumeIs(s, p, ok);
      HeldQuietly(s, DoResume(s, p, ok), p, t, Resumed(s.tasks[t], p, ok), ResumedPhase(t, ok), run, wait);
    }
  }

  lemma SuspendKeeps(s: State, p: nat, run: RunMap, wait: WaitMap)
    requires Inv(s, run, wait) && p < |s.workers|
    ensures Inv(DoSuspend(s, p), run, wait)
  {
    var phase := s.workers[p].phase;
    if phase.Inside? {
      var t := phase.task;
      OnlyHeld(s.global, s.workers, p, t, run);
      assert TaskOk(s, run, wait, t);
      assert s.tasks[t := s.tasks[t]] == s.tasks;
      HeldQuietly(s, DoSuspend(s, p), p, t, s.tasks[t], Returned(t, FiberSuspended), run, wait);
    }
  }

  /** What is known of a task whose body is about to act. */
  lemma ActingIs(s: State, p: nat, t: TaskId, run: RunMap, wait: WaitMap)
    requires Inv(s, run, wait) && Acting(s, p) == Some(t)
    ensures p < |s.workers| && s.workers[p].phase == Inside(t) && t in s.tasks && t in wait && t in run
    ensures run[t] == Held(p) && wait[t] == NotWaiting
    ensures s.tasks[t].state.Running? && s.tasks[t].executing && !s.tasks[t].wakePending
    ensures !s.tasks[t].waitingForIo && !s.tasks[t].queued
    ensures s.tasks[t].fiber == Some(p) && s.tasks[t].lastP == Some(p)
    ensures s.tasks[t := s.tasks[t]] == s.tasks
  {
    OnlyHeld(s.global, s.workers, p, t, run);
    assert TaskOk(s, run, wait, t);
  }

  lemma ReturnKeeps(s: State, p: nat, t: TaskId, run: RunMap, wait: WaitMap)
    requires Inv(s, run, wait) && Acting(s, p) == Some(t)
    ensures Inv(WithPhase(s, p, Returned(t, FiberDone)), run, wait)
  {
    ActingIs(s, p, t, run, wait);
    HeldQuietly(s, WithPhase(s, p, Returned(t, FiberDone)), p, t, s.tasks[t], Returned(t, FiberDone), run, wait);
  }

  lemma YieldKeeps(s: State, p: nat, t: TaskId, run: RunMap, wait: WaitMap)
    requires Inv(s, run, wait) && Acting(s, p) == Some(t)
    ensures Inv(DoYield(s, t), run, wait)
  {
    ActingIs(s, p, t, run, wait);
    HeldQuietly(s, DoYield(s, t), p, t, s.tasks[t].(state := Runnable), Inside(t), run, wait);
  }

  /** Parking: the task is registered where at says and keeps its thread. */
  lemma ParkKeeps(s: State, s': State, p: nat, t: TaskId, task: Task, w: Worker,
                  run: RunMap, wait: WaitMap, at: WaitPlace)
    requires Inv(s, run, wait) && Acting(s, p) == Some(t) && p < |s.workers| && t in s.tasks
    requires s'.workers == s.workers[p := w] && s'.tasks == s.tasks[t := task]
    requires s'.global == s.global && s'.idleWorkers == s.idleWorkers && s'.shutdown == s.shutdown && s'.lost == s.lost
    requires w.local == s.workers[p].local && w.idle == s.workers[p].idle && w.phase == s.workers[p].phase
    requires if at.OnTimer? then task.state.Sleeping? else task.state.Waiting?
    requires task == s.tasks[t].(state := task.state, waitingForIo := at.OnIo?) && at != NotWaiting
    requires WaitPlaced(s', wait[t := at]) && Counted(s')
    ensures Inv(s', run, wait[t := at])
  {
    ActingIs(s, p, t, run, wait);
    HeldStep(s, s', p, t, task, w, run, wait, at);
  }

  lemma SyncParkKeeps(s: State, p: nat, t: TaskId, q: nat, run: RunMap, wait: WaitMap)
    requires Inv(s, run, wait) && Acting(s, p) == Some(t)
    ensures Inv(DoSyncPark(s, t, q), run, wait[t := OnSync(q)])
  {
    ActingIs(s, p, t, run, wait);
    var task := s.tasks[t].(state := Waiting);
    var s1 := WithTask(s, t, task);
    var s' := DoSyncPark(s, t, q);
    WaitFrame(s, s1, wait);
    SyncIn(s1, q, t, wait);
    CountedAfterTask(s, s', t, task);
    ParkKeeps(s, s', p, t, task, s.workers[p], run, wait, OnSync(q));
  }

  lemma IoParkWaits(s: State, t: TaskId, wait: WaitMap)
    requires WaitPlaced(s, wait) && t in s.tasks && t in wait && wait[t] == NotWaiting
    requires !s.tasks[t].waitingForIo
    ensures WaitPlaced(DoIoPark(s, 0, t), wait[t := OnIo])
  {
    var s1 := WithTask(s, t, s.tasks[t].(state := Waiting));
    WaitFrame(s, s1, wait);
    IoIn(s1, t, wait);
    WaitFrame(WithTask(s1, t, s1.tasks[t].(waitingForIo := true)), DoIoPark(s, 0, t), wait[t := OnIo]);
  }

  lemma IoParkKeeps(s: State, p: nat, t: TaskId, run: RunMap, wait: WaitMap) returns (wait': WaitMap)
    requires Inv(s, run, wait) && Acting(s, p) == Some(t)
    ensures Inv(DoIoPark(s, p, t), run, wait')
  {
    wait' := wait;
    ActingIs(s, p, t, run, wait);
    if p == 0 {
      var task := s.tasks[t].(state := Waiting, waitingForIo := true);
      var s' := DoIoPark(s, p, t);
      IoParkWaits(s, t, wait);
      CountedAfterTask(s, s', t, task);
      ParkKeeps(s, s', p, t, task, s.workers[p], run, wait, OnIo);
      wait' := wait[t := OnIo];
    }
  }

  lemma SleepKeeps(s: State, p: nat, t: TaskId, run: RunMap, wait: WaitMap)
    requires Inv(s, run, wait) && Acting(s, p) == Some(t) && p < |s.workers| && t in s.tasks
    ensures Inv(DoSleep(s, p, t), run, wait[t := OnTimer(p)])
  {
    ActingIs(s, p, t, run, wait);
    var task := s.tasks[t].(state := Sleeping);
    var w := s.workers[p].(timers := s.workers[p].timers + {t});
    var s1 := WithTask(s, t, task);
    var s' := DoSleep(s, p, t);
    WaitFrame(s, s1, wait);
    TimerIn(s1, p, t, wait);
    WaitFrame(WithWorker(s1, p, w), s', wait[t := OnTimer(p)]);
    CountedAfter(s, s', t, task, p, w);
    ParkKeeps(s, s', p, t, task, w, run, wait, OnTimer(p));
  }

  lemma JoinWaits(s: State, t: TaskId, target: TaskId, wait: WaitMap)
    requires WaitPlaced(s, wait) && t in s.tasks && t in wait && wait[t] == NotWaiting
    requires target in s.tasks && target != t
    ensures WaitPlaced(DoJoin(s, t, target),
                       if Terminal(s.tasks[target].state) then wait else wait[t := OnJoin(target)])
  {
    if !Terminal(s.tasks[target].state) {
      var s1 := WithTask(s, t, s.tasks[t].(state := Waiting));
      WaitFrame(s, s1, wait);
      JoinIn(s1, target, t, wait);
    }
  }

  lemma JoinCounted(s: State, t: TaskId, target: TaskId)
    requires Counted(s) && t in s.tasks && target in s.tasks && !Terminal(s.tasks[t].state)
    ensures Counted(DoJoin(s, t, target))
  {
    if target != t && !Terminal(s.tasks[target].state) {
      var s1 := WithTask(s, t, s.tasks[t].(state := Waiting));
      var s' := DoJoin(s, t, target);
      CountedAfterTask(s, s1, t, s1.tasks[t]);
      CountedAfterTask(s1, s', target, s'.tasks[target]);
    }
  }

  lemma JoinTasks(s: State, p: nat, t: TaskId, target: TaskId, run: RunMap, wait: WaitMap)
    requires run.Keys == s.tasks.Keys && wait.Keys == s.tasks.Keys && TasksOk(s, run, wait)
    requires p < |s.workers| && t in s.tasks && s.workers[p].phase == Inside(t) && run[t] == Held(p)
    requires s.tasks[t].state.Running? && wait[t] == NotWaiting
    requires target in s.tasks && target != t && !Terminal(s.tasks[target].state)
    requires forall u :: u in run && u != t ==> run[u] != Held(p)
    ensures TasksOk(DoJoin(s, t, target), run, wait[t := OnJoin(target)])
  {
    assert TaskOk(s, run, wait, t);
    var s' := DoJoin(s, t, target);
    assert s'.tasks[t] == s.tasks[t].(state := Waiting);
    assert OnlyTask(s, s', t, p);
    assert run[t := Held(p)] == run;
    OneTaskOk(s, s', run, wait, t, p, Held(p), OnJoin(target));
  }

  lemma JoinedKeeps(s: State, p: nat, t: TaskId, target: TaskId, run: RunMap, wait: WaitMap)
    requires Inv(s, run, wait) && Acting(s, p) == Some(t)
    requires target in s.tasks && target != t && !Terminal(s.tasks[target].state)
    ensures Inv(DoJoin(s, t, target), run, wait[t := OnJoin(target)])
  {
    ActingIs(s, p, t, run, wait);
    OnlyHeld(s.global, s.workers, p, t, run);
    JoinWaits(s, t, target, wait);
    JoinCounted(s, t, target);
    JoinTasks(s, p, t, target, run, wait);
    JoinFrame(s, t, target);
  }

  lemma JoinFrame(s: State, t: TaskId, target: TaskId)
    requires t in s.tasks && target in s.tasks
    ensures var s' := DoJoin(s, t, target);
            && s'.tasks.Keys == s.tasks.Keys && s'.workers == s.workers && s'.global == s.global
            && s'.shutdown == s.shutdown && s'.idleWorkers == s.idleWorkers
  {
  }

  lemma JoinKeeps(s: State, p: nat, t: TaskId, target: TaskId, run: RunMap, wait: WaitMap) returns (wait': WaitMap)
    requires Inv(s, run, wait) && Acting(s, p) == Some(t)
    ensures Inv(DoJoin(s, t, target), run, wait')
  {
    wait' := wait;
    if target in s.tasks && target != t && !Terminal(s.tasks[target].state) {
      JoinedKeeps(s, p, t, target, run, wait);
      wait' := wait[t := OnJoin(target)];
    } else {
      assert DoJoin(s, t, target) == s;
    }
  }

  // --------------------------------------------------------------- back at the root

  /** The state the root leaves behind, but for the task's own settlement. */
  ghost function AtRoot(s: State, p: nat, t: TaskId, task: Task): State
    requires p < |s.workers|
  {
    s.(workers := s.workers[p := s.workers[p].(phase := LoopTop)],
       tasks := s.tasks[t := task],
       active := s.active - 1)
  }

  lemma ReturnedIs(s: State, p: nat, run: RunMap, wait: WaitMap)
    requires Inv(s, run, wait) && p < |s.workers| && s.workers[p].phase.Returned?
    ensures var t := s.workers[p].phase.task;
            && t in s.tasks && t in run && t in wait && run[t] == Held(p)
            && RunOk(s.workers, s.tasks[t], Held(p))
            && StateOk(s.shutdown, t in s.lost, s.tasks[t], Held(p), wait[t])
  {
    var t := s.workers[p].phase.task;
    OnlyHeld(s.global, s.workers, p, t, run);
    assert TaskOk(s, run, wait, t);
  }

  /** The task ends: cancelled, or done but with its joiners still to wake. */
  lemma EndKeeps(s: State, s': State, p: nat, task: Task, run: RunMap, wait: WaitMap)
    requires Inv(s, run, wait) && p < |s.workers| && s.workers[p].phase.Returned?
    requires s.workers[p].phase.task in s.tasks
    requires s.tasks[s.workers[p].phase.task].state.Running?
    requires task == s.tasks[s.workers[p].phase.task].(executing := false, state := task.state, fiber := None)
    requires Terminal(task.state)
    requires s' == AtRoot(s, p, s.workers[p].phase.task, task)
               .(live := Less(s.live),
                 completed := s.completed + Once(task.state.Done?),
                 cancelled := s.cancelled + Once(task.state.Cancelled?))
    ensures Inv(s', run[s.workers[p].phase.task := Nowhere], wait)
  {
    var t := s.workers[p].phase.task;
    ReturnedIs(s, p, run, wait);
    LiveHas(s, t);
    CountedAfter(s, s', t, task, p, s'.workers[p]);
    LetGo(s, s', p, t, task, LoopTop, Nowhere, run, wait);
  }

  /** The task goes back to the global queue. */
  lemma RequeueKeeps(s: State, s': State, p: nat, task: Task, run: RunMap, wait: WaitMap)
    requires Inv(s, run, wait) && p < |s.workers| && s.workers[p].phase.Returned?
    requires s.workers[p].phase.outcome.FiberSuspended? && s.workers[p].phase.task in s.tasks
    requires var was := s.tasks[s.workers[p].phase.task];
             was.state.Runnable? || (was.wakePending && (was.state.Waiting? || was.state.Sleeping?))
    requires task == s.tasks[s.workers[p].phase.task]
               .(executing := false, state := Runnable, wakePending := false, queued := true)
    requires s' == AtRoot(s, p, s.workers[p].phase.task, task).(global := s.global + [s.workers[p].phase.task])
    ensures Inv(s', run[s.workers[p].phase.task := InGlobal], wait)
  {
    var t := s.workers[p].phase.task;
    ReturnedIs(s, p, run, wait);
    CountedAfter(s, s', t, task, p, s'.workers[p]);
    LetGo(s, s', p, t, task, LoopTop, InGlobal, run, wait);
  }

  /** The task stays parked. */
  lemma StayKeeps(s: State, s': State, p: nat, task: Task, run: RunMap, wait: WaitMap)
    requires Inv(s, run, wait) && p < |s.workers| && s.workers[p].phase.Returned?
    requires s.workers[p].phase.task in s.tasks
    requires var was := s.tasks[s.workers[p].phase.task];
             !was.wakePending && (was.state.Waiting? || was.state.Sleeping?)
    requires task == s.tasks[s.workers[p].phase.task].(executing := false)
    requires s' == AtRoot(s, p, s.workers[p].phase.task, task)
    ensures Inv(s', run[s.workers[p].phase.task := Nowhere], wait)
  {
    var t := s.workers[p].phase.task;
    ReturnedIs(s, p, run, wait);
    CountedAfter(s, s', t, task, p, s'.workers[p]);
    LetGo(s, s', p, t, task, LoopTop, Nowhere, run, wait);
  }

  /** The counters once a task is done, its joiners still waiting. */
  ghost function Ended(s: State): State
  {
    s.(live := Less(s.live), completed := s.completed + 1)
  }

  lemma EnqueueAfterEnd(s: State, t: TaskId)
    requires t in s.tasks
    ensures EnqueueGlobal(Ended(s), t) == Ended(EnqueueGlobal(s, t))
  {
  }

  lemma WakeAfterEnd(s: State, t: TaskId)
    requires t in s.tasks
    ensures Wake(Ended(s), t) == Ended(Wake(s, t))
  {
    EnqueueAfterEnd(WithTask(s, t, s.tasks[t].(state := Runnable)), t);
  }

  lemma JoinerAfterEnd(s: State, u: TaskId)
    requires u in s.tasks && s.tasks[u].waiters != []
    ensures WakeJoiner(Ended(s), u) == Ended(WakeJoiner(s, u))
  {
    var t, s1 := s.tasks[u].waiters[0], JoinerTaken(s, u);
    assert JoinerTaken(Ended(s), u) == Ended(s1);
    if t in s1.tasks {
      WakeAfterEnd(s1, t);
      assert WakeJoiner(s, u) == Wake(s1, t);
      assert WakeJoiner(Ended(s), u) == Wake(Ended(s1), t);
    }
  }

  /** Counting the completed task before its joiners wake makes no difference. */
  lemma {:induction false} CompleteIs(s: State, u: TaskId)
    requires u in s.tasks
    ensures Complete(s, u) == WakeJoiners(Ended(s), u)
    decreases |s.tasks[u].waiters|
  {
    if s.tasks[u].waiters != [] {
      JoinerLeft(s, u);
      JoinerAfterEnd(s, u);
      CompleteIs(WakeJoiner(s, u), u);
    }
  }

  /** What the root does, case by case. */
  lemma RootIs(s: State, p: nat, fits: bool)
    requires p < |s.workers| && s.workers[p].phase.Returned? && s.workers[p].phase.task in s.tasks
    ensures var t := s.workers[p].phase.task;
            var task := s.tasks[t].(executing := false);
            var outcome := s.workers[p].phase.outcome;
            var settled := Settle(AtRoot(s, p, t, task), p, t, outcome, fits);
            && DoRoot(s, p, fits) == StopIfNoneLive(settled)
            && (outcome.ResumeFailed? || (outcome.FiberSuspended? && task.state.Running?) ==>
                  settled == AtRoot(s, p, t, task.(state := Cancelled, fiber := None))
                               .(live := Less(s.live), cancelled := s.cancelled + 1))
            && (outcome.FiberDone? ==>
                  settled == Complete(AtRoot(s, p, t, task.(state := Done, fiber := None)), t))
            && (outcome.FiberSuspended? && !task.wakePending && (task.state.Waiting? || task.state.Sleeping?) ==>
                  settled == AtRoot(s, p, t, task))
  {
    var t := s.workers[p].phase.task;
    var task := s.tasks[t].(executing := false);
    assert WithPhase(WithTask(s, t, task).(active := s.active - 1), p, LoopTop) == AtRoot(s, p, t, task);
    var done := task.(state := Done, fiber := None);
    assert WithTask(AtRoot(s, p, t, task), t, done) == AtRoot(s, p, t, done);
  }

  lemma RootRequeueIs(s: State, p: nat, fits: bool)
    requires p < |s.workers| && s.workers[p].phase.Returned? && s.workers[p].phase.task in s.tasks
    requires s.workers[p].phase.outcome.FiberSuspended?
    requires var task := s.tasks[s.workers[p].phase.task];
             && task.fiber.Some? && !task.queued
             && (task.state.Runnable? || (task.wakePending && (task.state.Waiting? || task.state.Sleeping?)))
             && (task.state.Runnable? ==> !task.wakePending)
    ensures var t := s.workers[p].phase.task;
            var task := s.tasks[t].(executing := false, state := Runnable, wakePending := false, queued := true);
            Settle(AtRoot(s, p, t, s.tasks[t].(executing := false)), p, t, FiberSuspended, fits) ==
            AtRoot(s, p, t, task).(global := s.global + [t])
  {
    var t := s.workers[p].phase.task;
    var task := s.tasks[t].(executing := false, state := Runnable, wakePending := false);
    var s1 := AtRoot(s, p, t, s.tasks[t].(executing := false));
    assert WithTask(s1, t, task) == AtRoot(s, p, t, task);
    assert Settle(s1, p, t, FiberSuspended, fits) == EnqueueLocal(AtRoot(s, p, t, task), p, t, fits);
    assert WithTask(AtRoot(s, p, t, task), t, task.(queued := true)) == AtRoot(s, p, t, task.(queued := true));
  }

  lemma RootKeeps(s: State, p: nat, fits: bool, run: RunMap, wait: WaitMap) returns (run': RunMap, wait': WaitMap)
    requires Inv(s, run, wait) && p < |s.workers|
    ensures Inv(DoRoot(s, p, fits), run', wait')
  {
    run', wait' := run, wait;
    var phase := s.workers[p].phase;
    if phase.Returned? {
      ReturnedIs(s, p, run, wait);
      RootIs(s, p, fits);
      var s1, run1, wait1 := SettleKeeps(s, p, fits, run, wait);
      StopIfNoneLiveKeeps(s1, run1, wait1);
      run', wait' := run1, wait1;
    }
  }

  lemma SettleKeeps(s: State, p: nat, fits: bool, run: RunMap, wait: WaitMap)
    returns (settled: State, run': RunMap, wait': WaitMap)
    requires Inv(s, run, wait) && p < |s.workers| && s.workers[p].phase.Returned?
    requires s.workers[p].phase.task in s.tasks
    ensures settled == Settle(AtRoot(s, p, s.workers[p].phase.task,
                                     s.tasks[s.workers[p].phase.task].(executing := false)),
                              p, s.workers[p].phase.task, s.workers[p].phase.outcome, fits)
    ensures Inv(settled, run', wait')
  {
    var t := s.workers[p].phase.task;
    var outcome := s.workers[p].phase.outcome;
    var task := s.tasks[t].(executing := false);
    settled := Settle(AtRoot(s, p, t, task), p, t, outcome, fits);
    RootIs(s, p, fits);
    ReturnedIs(s, p, run, wait);
    if outcome.ResumeFailed? || (outcome.FiberSuspended? && task.state.Running?) {
      EndKeeps(s, settled, p, task.(state := Cancelled, fiber := None), run, wait);
      run', wait' := run[t := Nowhere], wait;
    } else if outcome.FiberDone? {
      run', wait' := DoneKeeps(s, p, run, wait);
    } else if !task.wakePending && !task.state.Runnable? {
      StayKeeps(s, settled, p, task, run, wait);
      run', wait' := run[t := Nowhere], wait;
    } else {
      RootRequeueIs(s, p, fits);
      RequeueKeeps(s, settled, p, task.(state := Runnable, wakePending := false, queued := true), run, wait);
      run', wait' := run[t := InGlobal], wait;
    }
  }

  lemma EndedKeeps(s: State, p: nat, s0: State, run: RunMap, wait: WaitMap)
    requires Inv(s, run, wait) && p < |s.workers| && s.workers[p].phase.Returned?
    requires s.workers[p].phase.task in s.tasks && s.tasks[s.workers[p].phase.task].state.Running?
    requires var t := s.workers[p].phase.task;
             s0 == AtRoot(s, p, t, s.tasks[t].(executing := false, state := Done, fiber := None))
    ensures Inv(Ended(s0), run[s.workers[p].phase.task := Nowhere], wait)
  {
    var t := s.workers[p].phase.task;
    EndKeeps(s, Ended(s0), p, s.tasks[t].(executing := false, state := Done, fiber := None), run, wait);
  }

  lemma CompletedKeeps(s0: State, t: TaskId, run: RunMap, wait: WaitMap) returns (run': RunMap, wait': WaitMap)
    requires Inv(Ended(s0), run, wait) && t in s0.tasks
    ensures Inv(Complete(s0, t), run', wait')
  {
    CompleteIs(s0, t);
    run', wait' := WakeJoinersKeeps(Ended(s0), t, run, wait);
  }

  lemma DoneKeeps(s: State, p: nat, run: RunMap, wait: WaitMap) returns (run': RunMap, wait': WaitMap)
    requires Inv(s, run, wait) && p < |s.workers| && s.workers[p].phase.Returned?
    requires s.workers[p].phase.task in s.tasks && s.tasks[s.workers[p].phase.task].state.Running?
    ensures var t := s.workers[p].phase.task;
            var task := s.tasks[t].(executing := false, state := Done, fiber := None);
            Inv(Complete(AtRoot(s, p, t, task), t), run', wait')
  {
    var t := s.workers[p].phase.task;
    var s0 := AtRoot(s, p, t, s.tasks[t].(executing := false, state := Done, fiber := None));
    EndedKeeps(s, p, s0, run, wait);
    run', wait' := CompletedKeeps(s0, t, run[t := Nowhere], wait);
  }

  // ---------------------------------------------------------------- cancelling all

  lemma CancelWaits(s: State, t: TaskId, wait: WaitMap) returns (wait': WaitMap)
    requires WaitPlaced(s, wait) && t in s.tasks && t in wait && Counted(s)
    requires !Terminal(s.tasks[t].state) && !s.tasks[t].executing
    ensures WaitPlaced(CancelOne(s, t), wait')
    ensures wait' == if s.tasks[t].waitingForIo then wait[t := NotWaiting] else wait
    ensures s.tasks[t].waitingForIo ==> wait[t] == OnIo && s.ioWaiting != 0
  {
    wait' := wait;
    var s' := CancelOne(s, t);
    if s.tasks[t].waitingForIo {
      assert t in IoTasks(s.tasks);
      IoOut(s, t, wait);
      wait' := wait[t := NotWaiting];
      WaitFrame(WithTask(s, t, s.tasks[t].(waitingForIo := false)), s', wait');
    } else {
      WaitFrame(s, s', wait);
    }
  }

  lemma CancelTasks(s: State, t: TaskId, run: RunMap, wait: WaitMap, at: WaitPlace)
    requires run.Keys == s.tasks.Keys && wait.Keys == s.tasks.Keys && TasksOk(s, run, wait)
    requires t in s.tasks && !Terminal(s.tasks[t].state) && !s.tasks[t].executing && s.shutdown
    requires s.tasks[t].waitingForIo ==> s.ioWaiting != 0
    requires at == if s.tasks[t].waitingForIo then NotWaiting else wait[t]
    ensures TasksOk(CancelOne(s, t), run, wait[t := at])
  {
    assert TaskOk(s, run, wait, t);
    assert run[t := run[t]] == run;
    CancelledOk(s, t, run, wait, at);
    assert forall u :: u in run && u != t ==> run[u] != Held(|s.workers|) by {
      forall u | u in run && u != t
        ensures run[u] != Held(|s.workers|)
      {
        assert TaskOk(s, run, wait, u);
      }
    }
    OneTaskOk(s, CancelOne(s, t), run, wait, t, |s.workers|, run[t], at);
  }

  lemma CancelledOk(s: State, t: TaskId, run: RunMap, wait: WaitMap, at: WaitPlace)
    requires t in s.tasks && t in run && t in wait && TaskOk(s, run, wait, t)
    requires !Terminal(s.tasks[t].state) && !s.tasks[t].executing && s.shutdown
    requires s.tasks[t].waitingForIo ==> s.ioWaiting != 0
    requires at == if s.tasks[t].waitingForIo then NotWaiting else wait[t]
    ensures RunOk(s.workers, CancelOne(s, t).tasks[t], run[t])
    ensures StateOk(s.shutdown, t in s.lost, CancelOne(s, t).tasks[t], run[t], at)
  {
  }

  lemma CancelOneKeeps(s: State, t: TaskId, run: RunMap, wait: WaitMap) returns (wait': WaitMap)
    requires Inv(s, run, wait) && t in s.tasks && s.shutdown
    ensures Inv(CancelOne(s, t), run, wait')
  {
    wait' := wait;
    if !Terminal(s.tasks[t].state) && !s.tasks[t].executing {
      var s' := CancelOne(s, t);
      wait' := CancelWaits(s, t, wait);
      LiveHas(s, t);
      CancelTasks(s, t, run, wait, if s.tasks[t].waitingForIo then NotWaiting else wait[t]);
      assert wait[t := wait[t]] == wait;
      CountedAfterTask(s, s', t, s'.tasks[t]);
    }
  }

  lemma {:induction false} CancelListKeeps(s: State, list: seq<TaskId>, run: RunMap, wait: WaitMap)
    returns (wait': WaitMap)
    requires Inv(s, run, wait) && s.shutdown
    ensures Inv(CancelList(s, list), run, wait')
    decreases |list|
  {
    wait' := wait;
    if list != [] {
      var s1 := s;
      if list[0] in s.tasks {
        s1 := CancelOne(s, list[0]);
        wait' := CancelOneKeeps(s, list[0], run, wait);
      }
      wait' := CancelListKeeps(s1, list[1..], run, wait');
    }
  }

  // ---------------------------------------------------------------- the run loop

  lemma IdleEnterKeeps(s: State, p: nat, run: RunMap, wait: WaitMap)
    requires Inv(s, run, wait) && p < |s.workers|
    ensures Inv(DoIdleEnter(s, p), run, wait)
  {
    if s.workers[p].phase.TrySteal? {
      if !s.running {
        PhaseMove(s, p, LoopTop, run, wait);
      } else {
        var w := s.workers[p].(idle := true, phase := Idling);
        var s1 := WithWorker(s, p, w).(idleWorkers := s.idleWorkers + 1);
        IdleStep(s, s1, p, w, run, wait);
        var s' := DoIdleEnter(s, p);
        IdleEnterIs(s, p);
        FlagsKeep(s1, s'.running, s'.deadlock, run, wait);
      }
    }
  }

  lemma IdleEnterIs(s: State, p: nat)
    requires p < |s.workers| && s.workers[p].phase.TrySteal? && !s.workers[p].idle && s.running
    ensures var s' := DoIdleEnter(s, p);
            s' == WithWorker(s, p, s.workers[p].(idle := true, phase := Idling))
                    .(idleWorkers := s.idleWorkers + 1, running := s'.running, deadlock := s'.deadlock)
    ensures !DoIdleEnter(s, p).running <==> Stuck(Idle(s, p))
    ensures !DoIdleEnter(s, p).running ==> DoIdleEnter(s, p).deadlock
  {
  }

  lemma IdleStep(s: State, s': State, p: nat, w: Worker, run: RunMap, wait: WaitMap)
    requires Inv(s, run, wait) && p < |s.workers|
    requires w == s.workers[p].(phase := w.phase, idle := w.idle)
    requires Holding(s.workers[p].phase) == [] && Holding(w.phase) == []
    requires w.idle == w.phase.Idling? && !w.phase.Stealing? && !w.phase.Cancelling? && !w.phase.CancelCheck?
    requires s' == WithWorker(s, p, w).(idleWorkers := s'.idleWorkers)
    requires s'.idleWorkers <= s.idleWorkers + Once(w.idle && !s.workers[p].idle)
    requires s.workers[p].idle && !w.idle ==> s'.idleWorkers == Less(s.idleWorkers)
    ensures Inv(s', run, wait)
  {
    PhaseMoveTasks(s, p, w, run, wait);
    FlagsTasks(WithWorker(s, p, w), s', run, wait);
    RunFrame(s.global, s.workers, p, w, run);
    WaitFrame(s, s', wait);
    CountedAfterWorker(s, s', p, w);
    IdleAfter(s.workers, p, w);
  }

  lemma IdleLeaveKeeps(s: State, p: nat, run: RunMap, wait: WaitMap)
    requires Inv(s, run, wait) && p < |s.workers|
    ensures Inv(DoIdleLeave(s, p), run, wait)
  {
    if s.workers[p].phase.Idling? {
      IdleStep(s, DoIdleLeave(s, p), p, s.workers[p].(phase := LoopTop, idle := false), run, wait);
    }
  }

  lemma RunStartKeeps(s: State, run: RunMap, wait: WaitMap)
    requires Inv(s, run, wait)
    ensures Inv(DoRunStart(s), run, wait)
  {
    if s.workers[0].phase.Off? && !s.running && s.live != 0 {
      FlagsKeep(s, true, false, run, wait);
      var s1 := s.(running := true, deadlock := false);
      PhaseMove(s1, 0, LoopTop, run, wait);
      var s2 := WithPhase(s1, 0, LoopTop);
      ResetIdle(s2, run, wait);
      assert DoRunStart(s) == s2.(idleWorkers := 0);
    }
  }

  lemma ResetIdle(s: State, run: RunMap, wait: WaitMap)
    requires Inv(s, run, wait)
    ensures Inv(s.(idleWorkers := 0), run, wait)
  {
    WaitFrame(s, s.(idleWorkers := 0), wait);
    FlagsTasks(s, s.(idleWorkers := 0), run, wait);
  }
}
