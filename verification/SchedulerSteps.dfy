/** Every action of the scheduler keeps the invariant. */
module SchedulerSteps {
  import opened Common
  import opened GlobalQueue
  import opened Scheduler
  import opened SchedulerInvariant

  // ---------------------------------------------------------------- sequences

  lemma FirstOut(q: seq<TaskId>, t: TaskId)
    requires q != []
    ensures multiset(q)[t] == Once(q[0] == t) + multiset(q[1..])[t]
  {
    assert q == [q[0]] + q[1..];
  }

  lemma LastOut(q: seq<TaskId>, t: TaskId)
    requires q != []
    ensures multiset(q)[t] == multiset(q[..|q| - 1])[t] + Once(q[|q| - 1] == t)
  {
    assert q == q[..|q| - 1] + [q[|q| - 1]];
  }

  // ----------------------------------------------------- sets and the counters

  lemma {:induction false} TimerTotalAfter(ws: seq<Worker>, p: nat, w: Worker)
    requires p < |ws|
    ensures TimerTotal(ws[p := w]) + |ws[p].timers| == TimerTotal(ws) + |w.timers|
  {
    var n := |ws| - 1;
    if p == n {
      assert ws[p := w][..n] == ws[..n];
    } else {
      assert ws[p := w][..n] == ws[..n][p := w];
      TimerTotalAfter(ws[..n], p, w);
    }
  }

  lemma Resized<T>(a: set<T>, x: T, keep: bool)
    ensures |if keep then a + {x} else a - {x}| + Once(x in a) == |a| + Once(keep)
  {
    assert x in a ==> a + {x} == a;
    assert x !in a ==> a - {x} == a;
  }

  lemma ExecutingAfter(ws: seq<Worker>, p: nat, w: Worker)
    requires p < |ws|
    ensures |Executing(ws[p := w])| + Once(Executes(ws[p].phase)) == |Executing(ws)| + Once(Executes(w.phase))
  {
    assert Executing(ws[p := w]) == if Executes(w.phase) then Executing(ws) + {p} else Executing(ws) - {p};
    Resized(Executing(ws), p, Executes(w.phase));
  }

  lemma IdleAfter(ws: seq<Worker>, p: nat, w: Worker)
    requires p < |ws|
    ensures |IdleSet(ws[p := w])| + Once(ws[p].idle) == |IdleSet(ws)| + Once(w.idle)
  {
    assert IdleSet(ws[p := w]) == if w.idle then IdleSet(ws) + {p} else IdleSet(ws) - {p};
    Resized(IdleSet(ws), p, w.idle);
  }

  lemma LiveAfter(tasks: map<TaskId, Task>, t: TaskId, task: Task)
    ensures |Live(tasks[t := task])| + Once(t in tasks && !Terminal(tasks[t].state))
         == |Live(tasks)| + Once(!Terminal(task.state))
  {
    var live := !Terminal(task.state);
    assert Live(tasks[t := task]) == if live then Live(tasks) + {t} else Live(tasks) - {t};
    Resized(Live(tasks), t, live);
  }

  lemma DoneAfter(tasks: map<TaskId, Task>, t: TaskId, task: Task)
    ensures |DoneTasks(tasks[t := task])| + Once(t in tasks && tasks[t].state.Done?)
         == |DoneTasks(tasks)| + Once(task.state.Done?)
  {
    assert DoneTasks(tasks[t := task])
        == if task.state.Done? then DoneTasks(tasks) + {t} else DoneTasks(tasks) - {t};
    Resized(DoneTasks(tasks), t, task.state.Done?);
  }

  lemma CancelledAfter(tasks: map<TaskId, Task>, t: TaskId, task: Task)
    ensures |CancelledTasks(tasks[t := task])| + Once(t in tasks && tasks[t].state.Cancelled?)
         == |CancelledTasks(tasks)| + Once(task.state.Cancelled?)
  {
    assert CancelledTasks(tasks[t := task])
        == if task.state.Cancelled? then CancelledTasks(tasks) + {t} else CancelledTasks(tasks) - {t};
    Resized(CancelledTasks(tasks), t, task.state.Cancelled?);
  }

  lemma IoAfter(tasks: map<TaskId, Task>, t: TaskId, task: Task)
    ensures |IoTasks(tasks[t := task])| + Once(t in tasks && tasks[t].waitingForIo)
         == |IoTasks(tasks)| + Once(task.waitingForIo)
  {
    assert IoTasks(tasks[t := task]) == if task.waitingForIo then IoTasks(tasks) + {t} else IoTasks(tasks) - {t};
    Resized(IoTasks(tasks), t, task.waitingForIo);
  }

  /** The counters after one task has changed, if each moved with its set. */
  lemma CountedAfterTask(s: State, s': State, t: TaskId, task: Task)
    requires Counted(s) && t in s.tasks
    requires s'.tasks == s.tasks[t := task] && s'.workers == s.workers
    requires s'.live + Once(!Terminal(s.tasks[t].state)) == s.live + Once(!Terminal(task.state))
    requires s'.completed + Once(s.tasks[t].state.Done?) == s.completed + Once(task.state.Done?)
    requires s'.cancelled + Once(s.tasks[t].state.Cancelled?) == s.cancelled + Once(task.state.Cancelled?)
    requires s'.ioWaiting + Once(s.tasks[t].waitingForIo) == s.ioWaiting + Once(task.waitingForIo)
    requires s'.active == s.active && s'.timerCount == s.timerCount && s'.spawned == s.spawned
    ensures Counted(s')
  {
    LiveAfter(s.tasks, t, task);
    DoneAfter(s.tasks, t, task);
    CancelledAfter(s.tasks, t, task);
    IoAfter(s.tasks, t, task);
    assert s'.tasks.Keys == s.tasks.Keys;
  }

  /** The counters after one worker has changed, if each moved with its set. */
  lemma CountedAfterWorker(s: State, s': State, p: nat, w: Worker)
    requires Counted(s) && p < |s.workers|
    requires s'.tasks == s.tasks && s'.workers == s.workers[p := w]
    requires s'.live == s.live && s'.completed == s.completed && s'.cancelled == s.cancelled
    requires s'.ioWaiting == s.ioWaiting && s'.spawned == s.spawned
    requires s'.active + Once(Executes(s.workers[p].phase)) == s.active + Once(Executes(w.phase))
    requires s'.timerCount + |s.workers[p].timers| == s.timerCount + |w.timers|
    ensures Counted(s')
  {
    ExecutingAfter(s.workers, p, w);
    TimerTotalAfter(s.workers, p, w);
  }

  // ------------------------------------------------------------------- frames

  /** The wait structures are the same in both states. */
  ghost predicate SameWaits(s: State, s': State)
  {
    && s'.syncs == s.syncs
    && s'.tasks.Keys == s.tasks.Keys
    && |s'.workers| == |s.workers|
    && (forall t :: t in s.tasks ==>
          s'.tasks[t].waiters == s.tasks[t].waiters && s'.tasks[t].waitingForIo == s.tasks[t].waitingForIo)
    && (forall p :: 0 <= p < |s.workers| ==> s'.workers[p].timers == s.workers[p].timers)
  }

  lemma WaitFrame(s: State, s': State, wait: WaitMap)
    requires WaitPlaced(s, wait) && SameWaits(s, s')
    ensures WaitPlaced(s', wait)
  {
    forall t, place
      ensures WaitCount(s', t, place) == Once(!place.NotWaiting? && t in wait && wait[t] == place)
    {
      assert WaitCount(s', t, place) == WaitCount(s, t, place);
    }
  }

  /** A worker's record changes but not what it queues or holds. */
  lemma RunFrame(global: seq<TaskId>, ws: seq<Worker>, p: nat, w: Worker, run: RunMap)
    requires RunPlaced(global, ws, run) && p < |ws|
    requires w.local == ws[p].local && Holding(w.phase) == Holding(ws[p].phase)
    ensures RunPlaced(global, ws[p := w], run)
  {
    forall t, place
      ensures RunCount(global, ws[p := w], t, place) == Once(!place.Nowhere? && t in run && run[t] == place)
    {
      assert RunCount(global, ws[p := w], t, place) == RunCount(global, ws, t, place);
    }
  }

  lemma HeldBy(global: seq<TaskId>, ws: seq<Worker>, p: nat, t: TaskId, run: RunMap)
    requires RunPlaced(global, ws, run) && p < |ws|
    ensures t in run && run[t] == Held(p) <==> t in Holding(ws[p].phase)
    ensures t in run && run[t] == InLocal(p) <==> t in ws[p].local
    ensures t in run && run[t] == InGlobal <==> t in global
  {
    assert RunCount(global, ws, t, Held(p)) == multiset(Holding(ws[p].phase))[t];
    assert RunCount(global, ws, t, InLocal(p)) == multiset(ws[p].local)[t];
    assert RunCount(global, ws, t, InGlobal) == multiset(global)[t];
  }

  // --------------------------------------------------------- phases, no task

  lemma PhaseMoveTasks(s: State, p: nat, w: Worker, run: RunMap, wait: WaitMap)
    requires run.Keys == s.tasks.Keys && wait.Keys == s.tasks.Keys
    requires RunPlaced(s.global, s.workers, run) && TasksOk(s, run, wait)
    requires p < |s.workers| && Holding(s.workers[p].phase) == []
    ensures TasksOk(WithWorker(s, p, w), run, wait)
  {
    var s' := WithWorker(s, p, w);
    forall t | t in s'.tasks
      ensures TaskOk(s', run, wait, t)
    {
      assert TaskOk(s, run, wait, t);
      HeldBy(s.global, s.workers, p, t, run);
    }
  }

  /** A worker changes phase with nothing in its hands. */
  lemma PhaseMove(s: State, p: nat, phase: Phase, run: RunMap, wait: WaitMap)
    requires Inv(s, run, wait) && p < |s.workers|
    requires Holding(s.workers[p].phase) == [] && Holding(phase) == []
    requires !s.workers[p].phase.Idling? && !phase.Idling?
    requires phase.Cancelling? || phase.CancelCheck? ==> s.shutdown
    requires !phase.Stealing?
    ensures Inv(WithPhase(s, p, phase), run, wait)
  {
    var w := s.workers[p].(phase := phase);
    var s' := WithPhase(s, p, phase);
    PhaseMoveTasks(s, p, w, run, wait);
    RunFrame(s.global, s.workers, p, w, run);
    WaitFrame(s, s', wait);
    CountedAfterWorker(s, s', p, w);
    IdleAfter(s.workers, p, w);
  }

  // -------------------------------------------------------- one task, one worker

  lemma CountedAfter(s: State, s': State, t: TaskId, task: Task, p: nat, w: Worker)
    requires Counted(s) && p < |s.workers| && t in s.tasks
    requires s'.tasks == s.tasks[t := task] && s'.workers == s.workers[p := w]
    requires s'.live + Once(!Terminal(s.tasks[t].state)) == s.live + Once(!Terminal(task.state))
    requires s'.completed + Once(s.tasks[t].state.Done?) == s.completed + Once(task.state.Done?)
    requires s'.cancelled + Once(s.tasks[t].state.Cancelled?) == s.cancelled + Once(task.state.Cancelled?)
    requires s'.ioWaiting + Once(s.tasks[t].waitingForIo) == s.ioWaiting + Once(task.waitingForIo)
    requires s'.active + Once(Executes(s.workers[p].phase)) == s.active + Once(Executes(w.phase))
    requires s'.timerCount + |s.workers[p].timers| == s.timerCount + |w.timers|
    requires s'.spawned == s.spawned
    ensures Counted(s')
  {
    var s1 := s.(tasks := s'.tasks, live := s'.live, completed := s'.completed,
                 cancelled := s'.cancelled, ioWaiting := s'.ioWaiting);
    CountedAfterTask(s, s1, t, task);
    CountedAfterWorker(s1, s', p, w);
  }

  /** The tasks are the same but for t (and join lists), the workers but for p. */
  ghost predicate OnlyTask(s: State, s': State, t: TaskId, p: nat)
  {
    && s'.tasks.Keys == s.tasks.Keys && t in s.tasks
    && s'.shutdown == s.shutdown && s.lost <= s'.lost
    && |s'.workers| == |s.workers|
    && (forall u :: u in s.tasks && u != t ==> s'.tasks[u] == s.tasks[u].(waiters := s'.tasks[u].waiters))
    && (forall q :: 0 <= q < |s.workers| && q != p ==> s'.workers[q].phase == s.workers[q].phase)
  }

  lemma OneTaskOk(s: State, s': State, run: RunMap, wait: WaitMap, t: TaskId, p: nat, place: RunPlace, at: WaitPlace)
    requires run.Keys == s.tasks.Keys && wait.Keys == s.tasks.Keys
    requires TasksOk(s, run, wait) && OnlyTask(s, s', t, p)
    requires forall u :: u in run && u != t ==> run[u] != Held(p)
    requires RunOk(s'.workers, s'.tasks[t], place)
    requires StateOk(s'.shutdown, t in s'.lost, s'.tasks[t], place, at)
    ensures TasksOk(s', run[t := place], wait[t := at])
  {
    forall u | u in s'.tasks
      ensures TaskOk(s', run[t := place], wait[t := at], u)
    {
      assert TaskOk(s, run, wait, u);
    }
  }

  lemma OnlyHeld(global: seq<TaskId>, ws: seq<Worker>, p: nat, t: TaskId, run: RunMap)
    requires RunPlaced(global, ws, run) && p < |ws|
    requires Holding(ws[p].phase) == [t]
    ensures t in run && run[t] == Held(p)
    ensures forall u :: u in run && u != t ==> run[u] != Held(p)
  {
    forall u | u in run && run[u] == Held(p)
      ensures u == t
    {
      HeldBy(global, ws, p, u, run);
    }
    HeldBy(global, ws, p, t, run);
  }

  lemma NoneHeld(global: seq<TaskId>, ws: seq<Worker>, p: nat, run: RunMap)
    requires RunPlaced(global, ws, run) && p < |ws|
    requires Holding(ws[p].phase) == []
    ensures forall u :: u in run ==> run[u] != Held(p)
  {
    forall u | u in run
      ensures run[u] != Held(p)
    {
      HeldBy(global, ws, p, u, run);
    }
  }

  lemma WorkersOkAfter(s: State, s': State, p: nat, w: Worker)
    requires WorkersOk(s) && p < |s.workers| && s'.workers == s.workers[p := w]
    requires WorkerOk(w, |s.workers| == 1, s.shutdown) && s'.shutdown == s.shutdown
    requires w.idle == s.workers[p].idle && s'.idleWorkers == s.idleWorkers
    ensures WorkersOk(s')
  {
    IdleAfter(s.workers, p, w);
  }

  /** One task and one worker change, but not what waits. */
  lemma WaitFrameOne(s: State, s': State, t: TaskId, task: Task, p: nat, w: Worker, wait: WaitMap)
    requires WaitPlaced(s, wait) && t in s.tasks && p < |s.workers|
    requires s'.tasks == s.tasks[t := task] && s'.workers == s.workers[p := w] && s'.syncs == s.syncs
    requires task.waiters == s.tasks[t].waiters && task.waitingForIo == s.tasks[t].waitingForIo
    requires w.timers == s.workers[p].timers
    ensures WaitPlaced(s', wait)
  {
    WaitFrame(s, s', wait);
  }

  /** A worker goes on with the task it holds. */
  lemma HeldStep(
      s: State, s': State, p: nat, t: TaskId, task: Task, w: Worker, run: RunMap, wait: WaitMap, at: WaitPlace)
    requires Inv(s, run, wait) && p < |s.workers| && t in s.tasks
    requires s'.workers == s.workers[p := w] && s'.tasks == s.tasks[t := task]
    requires s'.global == s.global && s'.idleWorkers == s.idleWorkers && s'.shutdown == s.shutdown && s'.lost == s.lost
    requires w.local == s.workers[p].local && w.idle == s.workers[p].idle
    requires Holding(s.workers[p].phase) == [t] && Holding(w.phase) == [t] && !w.phase.Stealing?
    requires !s.workers[p].phase.Idling?
    requires PhaseOk(w.phase, p, task) && FiberOk(task, |s.workers|)
    requires StateOk(s.shutdown, t in s.lost, task, Held(p), at)
    requires WaitPlaced(s', wait[t := at])
    requires Counted(s')
    ensures Inv(s', run, wait[t := at])
  {
    OnlyHeld(s.global, s.workers, p, t, run);
    OneTaskOk(s, s', run, wait, t, p, Held(p), at);
    assert run[t := Held(p)] == run;
    RunFrame(s.global, s.workers, p, w, run);
    WorkersOkAfter(s, s', p, w);
  }

  /** The same when the task does not start or stop waiting. */
  lemma HeldQuietly(s: State, s': State, p: nat, t: TaskId, task: Task, phase: Phase, run: RunMap, wait: WaitMap)
    requires Inv(s, run, wait) && p < |s.workers| && t in s.tasks
    requires s'.workers == s.workers[p := s.workers[p].(phase := phase)] && s'.tasks == s.tasks[t := task]
    requires s'.global == s.global && s'.idleWorkers == s.idleWorkers && s'.shutdown == s.shutdown && s'.lost == s.lost
    requires s'.syncs == s.syncs && s'.ioWaiting == s.ioWaiting && s'.timerCount == s.timerCount
    requires s'.live == s.live && s'.completed == s.completed && s'.cancelled == s.cancelled
    requires s'.spawned == s.spawned
    requires s'.active + Once(Executes(s.workers[p].phase)) == s.active + Once(Executes(phase))
    requires Holding(s.workers[p].phase) == [t] && Holding(phase) == [t] && !phase.Stealing?
    requires task.waiters == s.tasks[t].waiters && task.waitingForIo == s.tasks[t].waitingForIo
    requires (!Terminal(task.state) && !Terminal(s.tasks[t].state)) || task.state == s.tasks[t].state
    requires PhaseOk(phase, p, task) && FiberOk(task, |s.workers|)
    requires t in wait && StateOk(s.shutdown, t in s.lost, task, Held(p), wait[t])
    ensures Inv(s', run, wait)
  {
    var w := s.workers[p].(phase := phase);
    assert wait[t := wait[t]] == wait;
    WaitFrameOne(s, s', t, task, p, w, wait);
    CountedAfter(s, s', t, task, p, w);
    HeldStep(s, s', p, t, task, w, run, wait, wait[t]);
  }

  // ------------------------------------------------------------- taking a task

  lemma PopLocalCount(global: seq<TaskId>, ws: seq<Worker>, p: nat, u: TaskId, place: RunPlace)
    requires p < |ws| && ws[p].phase.TryLocal? && ws[p].local != []
    ensures var q := ws[p].local;
            var t := q[|q| - 1];
            var ws' := ws[p := ws[p].(phase := Popped(t), local := q[..|q| - 1])];
            RunCount(global, ws', u, place) + Once(u == t && place == InLocal(p)) ==
            RunCount(global, ws, u, place) + Once(u == t && place == Held(p))
  {
    match place {
      case InLocal(q) => LastOut(ws[p].local, u);
      case _ =>
    }
  }

  lemma PopLocalRun(global: seq<TaskId>, ws: seq<Worker>, p: nat, run: RunMap)
    requires RunPlaced(global, ws, run) && p < |ws| && ws[p].phase.TryLocal? && ws[p].local != []
    ensures var q := ws[p].local;
            var t := q[|q| - 1];
            && t in run && run[t] == InLocal(p)
            && RunPlaced(global, ws[p := ws[p].(phase := Popped(t), local := q[..|q| - 1])], run[t := Held(p)])
  {
    var q := ws[p].local;
    var t := q[|q| - 1];
    var ws' := ws[p := ws[p].(phase := Popped(t), local := q[..|q| - 1])];
    HeldBy(global, ws, p, t, run);
    forall u, place
      ensures RunCount(global, ws', u, place)
           == Once(!place.Nowhere? && u in run[t := Held(p)] && run[t := Held(p)][u] == place)
    {
      PopLocalCount(global, ws, p, u, place);
      assert RunCount(global, ws, u, place) == Once(!place.Nowhere? && u in run && run[u] == place);
    }
  }

  lemma PoppedKeeps(s: State, p: nat, run: RunMap, wait: WaitMap)
    requires Inv(s, run, wait) && p < |s.workers| && s.workers[p].phase.TryLocal? && s.workers[p].local != []
    ensures Inv(DoPopLocal(s, p), run[s.workers[p].local[|s.workers[p].local| - 1] := Held(p)], wait)
  {
    var t := s.workers[p].local[|s.workers[p].local| - 1];
    var s' := DoPopLocal(s, p);
    PopLocalRun(s.global, s.workers, p, run);
    NoneHeld(s.global, s.workers, p, run);
    assert TaskOk(s, run, wait, t);
    OneTaskOk(s, s', run, wait, t, p, Held(p), wait[t]);
    assert wait[t := wait[t]] == wait;
    WaitFrame(s, s', wait);
    CountedAfterWorker(s, s', p, s'.workers[p]);
    WorkersOkAfter(s, s', p, s'.workers[p]);
  }

  lemma PopLocalKeeps(s: State, p: nat, run: RunMap, wait: WaitMap) returns (run': RunMap)
    requires Inv(s, run, wait) && p < |s.workers|
    ensures Inv(DoPopLocal(s, p), run', wait)
  {
    var w := s.workers[p];
    run' := run;
    if w.phase.TryLocal? && w.local == [] {
      PhaseMove(s, p, TryGlobal, run, wait);
    } else if w.phase.TryLocal? {
      PoppedKeeps(s, p, run, wait);
      run' := run[w.local[|w.local| - 1] := Held(p)];
    }
  }

  lemma ClearQueuedKeeps(s: State, p: nat, run: RunMap, wait: WaitMap)
    requires Inv(s, run, wait) && p < |s.workers|
    ensures Inv(DoClearQueued(s, p), run, wait)
  {
    var w := s.workers[p];
    if w.phase.Popped? && w.phase.task in s.tasks {
      var t := w.phase.task;
      OnlyHeld(s.global, s.workers, p, t, run);
      assert TaskOk(s, run, wait, t);
      HeldQuietly(s, DoClearQueued(s, p), p, t, s.tasks[t].(queued := false), Hand(t), run, wait);
    }
  }

  // -------------------------------------------------------- the global scan

  ghost function TakenRun(run: RunMap, r: Taken, p: nat): RunMap
  {
    map u | u in run :: if u in Chosen(r.task) then Held(p) else if u in r.extras then InLocal(p) else run[u]
  }

  /** Nothing in q is lost, and nothing appears twice in the three parts. */
  ghost predicate Splits(q: seq<TaskId>, r: Taken)
  {
    forall u {:trigger multiset(q)[u]} ::
      && multiset(q)[u] == multiset(Chosen(r.task))[u] + multiset(r.extras)[u] + multiset(r.queue)[u]
      && (u in Chosen(r.task) <==> multiset(Chosen(r.task))[u] > 0)
      && (u in r.extras <==> multiset(r.extras)[u] > 0)
  }

  lemma TakeSplits(q: seq<TaskId>, eligible: set<TaskId>, unstarted: set<TaskId>, several: bool, room: nat)
    ensures Splits(q, Take(q, eligible, unstarted, several, room))
  {
    TakeConserves(q, eligible, unstarted, several, room);
  }

  /** The scanned tasks: they were in the global queue, each is taken once. */
  ghost predicate Scanned(s: State, p: nat, r: Taken, run: RunMap)
  {
    && (forall u :: u in Chosen(r.task) ==>
          && u in run && run[u] == InGlobal && u in s.tasks
          && (s.tasks[u].fiber.None? || s.tasks[u].lastP == Some(p)))
    && (forall u :: u in r.extras ==>
          u in run && run[u] == InGlobal && u in s.tasks && s.tasks[u].fiber.None? && u !in Chosen(r.task))
  }

  lemma TakeScanned(s: State, p: nat, room: nat, run: RunMap)
    requires RunPlaced(s.global, s.workers, run) && run.Keys == s.tasks.Keys
    ensures var r := Take(s.global, Eligible(s, p), Unstarted(s), |s.workers| > 1, room);
            Splits(s.global, r) && Scanned(s, p, r, run)
  {
    var r := Take(s.global, Eligible(s, p), Unstarted(s), |s.workers| > 1, room);
    TakeSplits(s.global, Eligible(s, p), Unstarted(s), |s.workers| > 1, room);
    TakeChoosesFirst(s.global, Eligible(s, p), Unstarted(s), |s.workers| > 1, room);
    forall u | u in Chosen(r.task) || u in r.extras
      ensures u in run && run[u] == InGlobal && (u in r.extras ==> u !in Chosen(r.task))
    {
      assert RunCount(s.global, s.workers, u, InGlobal) == multiset(s.global)[u];
    }
  }

  lemma TakeRun(global: seq<TaskId>, ws: seq<Worker>, p: nat, phase: Phase, r: Taken, run: RunMap)
    requires RunPlaced(global, ws, run) && p < |ws| && Holding(ws[p].phase) == []
    requires Holding(phase) == Chosen(r.task) && Splits(global, r)
    ensures RunPlaced(r.queue, ws[p := ws[p].(phase := phase, local := ws[p].local + r.extras)], TakenRun(run, r, p))
  {
    var ws' := ws[p := ws[p].(phase := phase, local := ws[p].local + r.extras)];
    var run' := TakenRun(run, r, p);
    forall u, place
      ensures RunCount(r.queue, ws', u, place) == Once(!place.Nowhere? && u in run' && run'[u] == place)
    {
      assert RunCount(global, ws, u, InGlobal) == multiset(global)[u];
      assert RunCount(global, ws, u, place) == Once(!place.Nowhere? && u in run && run[u] == place);
      match place {
        case InLocal(i) =>
          if i == p {
            assert RunCount(r.queue, ws', u, place) == multiset(ws[p].local)[u] + multiset(r.extras)[u];
          }
        case _ =>
      }
    }
  }

  /** The state after a scan that found what r says. */
  ghost function AfterScan(s: State, p: nat, r: Taken): State
    requires p < |s.workers|
  {
    var w := s.workers[p];
    var phase := if r.task.Some? then Hand(r.task.value) else TrySteal;
    s.(workers := s.workers[p := w.(phase := phase, local := w.local + r.extras)],
       global := r.queue,
       tasks := if r.task.Some? && r.task.value in s.tasks
                then s.tasks[r.task.value := s.tasks[r.task.value].(queued := false)] else s.tasks)
  }

  lemma ScanTasks(s: State, p: nat, r: Taken, run: RunMap, wait: WaitMap)
    requires run.Keys == s.tasks.Keys && wait.Keys == s.tasks.Keys
    requires TasksOk(s, run, wait) && p < |s.workers| && Scanned(s, p, r, run)
    requires forall u :: u in run ==> run[u] != Held(p)
    ensures TasksOk(AfterScan(s, p, r), TakenRun(run, r, p), wait)
  {
    var s' := AfterScan(s, p, r);
    assert r.task.Some? ==> r.task.value in Chosen(r.task);
    forall u | u in s'.tasks
      ensures TaskOk(s', TakenRun(run, r, p), wait, u)
    {
      assert TaskOk(s, run, wait, u);
    }
  }

  lemma ScanCounted(s: State, p: nat, r: Taken)
    requires Counted(s) && p < |s.workers| && s.workers[p].phase.TryGlobal?
    ensures Counted(AfterScan(s, p, r))
  {
    var s' := AfterScan(s, p, r);
    if r.task.Some? && r.task.value in s.tasks {
      CountedAfter(s, s', r.task.value, s'.tasks[r.task.value], p, s'.workers[p]);
    } else {
      CountedAfterWorker(s, s', p, s'.workers[p]);
    }
  }

  lemma ScanFrame(s: State, p: nat, r: Taken, wait: WaitMap)
    requires WaitPlaced(s, wait) && WorkersOk(s) && p < |s.workers| && s.workers[p].phase.TryGlobal?
    requires |s.workers| == 1 ==> r.extras == []
    ensures WaitPlaced(AfterScan(s, p, r), wait) && WorkersOk(AfterScan(s, p, r))
  {
    var s' := AfterScan(s, p, r);
    WaitFrame(s, s', wait);
    WorkersOkAfter(s, s', p, s'.workers[p]);
  }

  lemma ScanKeeps(s: State, p: nat, r: Taken, run: RunMap, wait: WaitMap)
    requires Inv(s, run, wait) && p < |s.workers| && s.workers[p].phase.TryGlobal?
    requires Splits(s.global, r) && Scanned(s, p, r, run)
    requires |s.workers| == 1 ==> r.extras == []
    ensures Inv(AfterScan(s, p, r), TakenRun(run, r, p), wait)
  {
    var s' := AfterScan(s, p, r);
    NoneHeld(s.global, s.workers, p, run);
    TakeRun(s.global, s.workers, p, s'.workers[p].phase, r, run);
    ScanTasks(s, p, r, run, wait);
    ScanFrame(s, p, r, wait);
    ScanCounted(s, p, r);
  }

  lemma ScanIs(s: State, p: nat, room: nat, run: RunMap)
    requires p < |s.workers| && s.workers[p].phase.TryGlobal?
    requires Scanned(s, p, Take(s.global, Eligible(s, p), Unstarted(s), |s.workers| > 1, room), run)
    ensures DoTakeGlobal(s, p, room)
         == AfterScan(s, p, Take(s.global, Eligible(s, p), Unstarted(s), |s.workers| > 1, room))
    ensures |s.workers| == 1 ==>
              Take(s.global, Eligible(s, p), Unstarted(s), |s.workers| > 1, room).extras == []
  {
    var r := Take(s.global, Eligible(s, p), Unstarted(s), |s.workers| > 1, room);
    assert r.task.Some? ==> r.task.value in Chosen(r.task);
  }

  lemma TakeGlobalKeeps(s: State, p: nat, room: nat, run: RunMap, wait: WaitMap) returns (run': RunMap)
    requires Inv(s, run, wait) && p < |s.workers|
    ensures Inv(DoTakeGlobal(s, p, room), run', wait)
  {
    run' := run;
    if s.workers[p].phase.TryGlobal? {
      var r := Take(s.global, Eligible(s, p), Unstarted(s), |s.workers| > 1, room);
      TakeScanned(s, p, room, run);
      ScanIs(s, p, room, run);
      ScanKeeps(s, p, r, run, wait);
      run' := TakenRun(run, r, p);
    }
  }
}
